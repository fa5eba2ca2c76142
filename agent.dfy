/**
 * `run_agent`: executes the model's tool calls in order, stops at the first
 * failure, stores each result under its tool name, applies the chaining
 * policy, and picks the structured result or the plain-text fallback.
 */
module Agent {
  import opened Json
  import opened Text
  import opened Tools
  import opened Chaining

  /** One part of the model's first response: a proposed tool call, or anything else. */
  datatype Part = FunctionCall(name: string, args: Object) | Other

  /**
   * What `run_agent` produces: the apology for a failed primary call (carrying the
   * tool's `"error"` value), the structured results (serialised as JSON text by the
   * source), the plain-text fallback, or an exception escaping it.
   */
  datatype Answer =
    | Apology(error: Value)
    | Structured(results: Object)
    | PlainText(text: string)
    | Crashed

  /** An answer together with the invocations sent to the tool server, in order. */
  datatype Run = Run(answer: Answer, requests: seq<Invocation>)

  const ApologyPrefix := "I am sorry, something went wrong → "
  const SummaryFailed := "Sorry — I could not summarize the results."

  /**
   * The text the caller receives, where the model fixes it: the apology is the
   * fixed prefix followed by the error message, so the message can be read back.
   */
  function AnswerText(a: Answer): (t: Option<string>)
    ensures a.Apology? && a.error.Str? ==>
              t.Some? && |ApologyPrefix| <= |t.value| &&
              t.value[..|ApologyPrefix|] == ApologyPrefix && t.value[|ApologyPrefix|..] == a.error.s
    ensures a.PlainText? ==> t == Some(a.text)
    ensures a.Structured? || a.Crashed? ==> t.None?
  {
    match a
    case Apology(Str(e)) => Some(ApologyPrefix + e)
    case PlainText(t) => Some(t)
    case _ => None
  }

  /** The invocation a part proposes: one for a function call, none for anything else. */
  function Proposed(part: Part): seq<Invocation>
  {
    if part.FunctionCall? then [Invocation(part.name, part.args)] else []
  }

  /** The primary invocations: the function-call parts, in order; other parts are skipped. */
  function ToolCalls(parts: seq<Part>): (calls: seq<Invocation>)
    ensures |calls| <= |parts|
  {
    if parts == [] then [] else Proposed(parts[0]) + ToolCalls(parts[1..])
  }

  lemma {:induction false} ToolCallsAppend(p: seq<Part>, q: seq<Part>)
    ensures ToolCalls(p + q) == ToolCalls(p) + ToolCalls(q)
    decreases |p|
  {
    if p == [] {
      assert p + q == q;
    } else {
      assert (p + q)[0] == p[0];
      assert (p + q)[1..] == p[1..] + q;
      ToolCallsAppend(p[1..], q);
      assert ToolCalls(p + q) == Proposed(p[0]) + (ToolCalls(p[1..]) + ToolCalls(q));
    }
  }

  /** The tool output `call_tool` yields for one invocation. */
  function Output(server: Server, c: Invocation): Object
  {
    CallTool(server, c.tool, c.args)
  }

  predicate Fails(server: Server, c: Invocation)
  {
    "error" in Output(server, c)
  }

  /** The index of the first invocation whose output carries `"error"`, if any. */
  function FirstFailure(server: Server, calls: seq<Invocation>): (k: Option<nat>)
    ensures k.Some? ==> k.value < |calls| && Fails(server, calls[k.value])
  {
    if calls == [] then None
    else match FirstFailure(server, calls[..|calls| - 1])
      case Some(k) => Some(k)
      case None => if Fails(server, calls[|calls| - 1]) then Some(|calls| - 1) else None
  }

  /** `FirstFailure` finds the earliest failing call, and none when every call succeeds. */
  lemma {:induction false} FirstFailureIsFirst(server: Server, calls: seq<Invocation>)
    ensures var k := FirstFailure(server, calls);
            (k.Some? ==> forall j :: 0 <= j < k.value ==> !Fails(server, calls[j])) &&
            (k.None? <==> forall j :: 0 <= j < |calls| ==> !Fails(server, calls[j]))
    decreases |calls|
  {
    if calls != [] {
      var prefix := calls[..|calls| - 1];
      FirstFailureIsFirst(server, prefix);
      assert forall j :: 0 <= j < |prefix| ==> prefix[j] == calls[j];
    }
  }

  lemma {:induction false} FirstFailureExtend(server: Server, calls: seq<Invocation>, more: seq<Invocation>)
    requires FirstFailure(server, calls).Some?
    ensures FirstFailure(server, calls + more) == FirstFailure(server, calls)
    decreases |more|
  {
    var longer := calls + more;
    if more == [] {
      assert longer == calls;
    } else {
      var shorter := more[..|more| - 1];
      assert longer[..|longer| - 1] == calls + shorter;
      FirstFailureExtend(server, calls, shorter);
      assert FirstFailure(server, longer[..|longer| - 1]) == FirstFailure(server, calls);
    }
  }

  lemma ToolCallsStep(parts: seq<Part>, i: nat)
    requires i < |parts|
    ensures ToolCalls(parts[..i + 1]) == ToolCalls(parts[..i]) + Proposed(parts[i])
  {
    assert parts[..i + 1] == parts[..i] + [parts[i]];
    ToolCallsAppend(parts[..i], [parts[i]]);
    assert ToolCalls([parts[i]]) == Proposed(parts[i]) + ToolCalls([]);
  }

  /** One more successful call keeps "no failure so far" and stores its output under its tool name. */
  lemma StoreStep(server: Server, sent: seq<Invocation>, c: Invocation)
    requires FirstFailure(server, sent) == None
    requires !Fails(server, c)
    ensures FirstFailure(server, sent + [c]) == None
    ensures StoreAll(server, sent + [c]) == StoreAll(server, sent)[c.tool := Obj(Output(server, c))]
  {
    assert (sent + [c])[..|sent|] == sent;
  }

  /** A failing call at part `i`, after none failed before it, is the first failure overall. */
  lemma StopsAt(server: Server, parts: seq<Part>, i: nat)
    requires i < |parts| && parts[i].FunctionCall?
    requires FirstFailure(server, ToolCalls(parts[..i])) == None
    requires Fails(server, Invocation(parts[i].name, parts[i].args))
    ensures var sent := ToolCalls(parts[..i]) + [Invocation(parts[i].name, parts[i].args)];
            FirstFailure(server, ToolCalls(parts)) == Some(|sent| - 1) &&
            ToolCalls(parts)[..|sent|] == sent &&
            ToolCalls(parts)[|sent| - 1] == Invocation(parts[i].name, parts[i].args)
  {
    var sent := ToolCalls(parts[..i]) + [Invocation(parts[i].name, parts[i].args)];
    ToolCallsStep(parts, i);
    assert sent[..|sent| - 1] == ToolCalls(parts[..i]);
    assert FirstFailure(server, sent) == Some(|sent| - 1);
    var rest := ToolCalls(parts[i + 1..]);
    assert parts == parts[..i + 1] + parts[i + 1..];
    ToolCallsAppend(parts[..i + 1], parts[i + 1..]);
    FirstFailureExtend(server, sent, rest);
    assert (sent + rest)[..|sent|] == sent;
    assert (sent + rest)[|sent| - 1] == sent[|sent| - 1];
  }

  /** `all_results[tool_name] = tool_output` for each invocation, in order. */
  function StoreAll(server: Server, calls: seq<Invocation>): (stored: Object)
    ensures stored.Keys == set c <- calls :: c.tool
  {
    if calls == [] then map[]
    else
      var last := calls[|calls| - 1];
      StoreAll(server, calls[..|calls| - 1])[last.tool := Obj(Output(server, last))]
  }

  /** The final selection: the results when there are any, else the second model call's text. */
  function Finish(results: Object, summary: Option<string>): (a: Answer)
    ensures a.Structured? <==> results != map[]
    ensures a.Structured? ==> a.results == results
    ensures !a.Structured? ==> a.PlainText? && (summary.Some? ==> a.text == summary.value) &&
                               (summary.None? ==> a.text == SummaryFailed)
  {
    if results != map[] then Structured(results)
    else PlainText(match summary case Some(t) => t case None => SummaryFailed)
  }

  /**
   * What `run_agent` answers and which tool invocations it sends, given the
   * model's first response `parts`, the tool server, and the outcome `summary`
   * of the second model call (`None` when it raises).
   */
  function Respond(server: Server, query: string, parts: seq<Part>, summary: Option<string>): (r: Run)
    ensures r.answer.Apology? <==> FirstFailure(server, ToolCalls(parts)).Some?
    ensures |r.requests| <= |ToolCalls(parts)| + MaxNames
    ensures |r.requests| <= |ToolCalls(parts)| ==> r.requests == ToolCalls(parts)[..|r.requests|]
    ensures |r.requests| > |ToolCalls(parts)| ==> r.requests[..|ToolCalls(parts)|] == ToolCalls(parts)
  {
    var calls := ToolCalls(parts);
    match FirstFailure(server, calls)
    case Some(k) => Run(Apology(Output(server, calls[k])["error"]), calls[..k + 1])
    case None =>
      var stored := StoreAll(server, calls);
      if !Fires(query, stored) then Run(Finish(stored, summary), calls)
      else match SelectNames(stored[PlacesTool])
        case Crash => Run(Crashed, calls)
        case Names(names) =>
          var lang := TargetLanguage(query);
          var translations := List(Translations(server, names, lang));
          Run(Finish(stored[TranslationsKey := translations], summary), calls + FollowUps(names, lang))
  }

  /**
   * The primary loop: runs each function-call part in order, returns the `"error"`
   * value of the first failing output at once, and otherwise stores every output
   * under its tool name. `requests` records each invocation as it is sent.
   */
  method ExecuteCalls(server: Server, parts: seq<Part>)
    returns (failure: Option<Value>, results: Object, requests: seq<Invocation>)
    ensures var calls := ToolCalls(parts);
            match FirstFailure(server, calls)
            case Some(k) => failure == Some(Output(server, calls[k])["error"]) && requests == calls[..k + 1]
            case None => failure == None && requests == calls && results == StoreAll(server, calls)
  {
    results := map[];
    requests := [];
    for i := 0 to |parts|
      invariant requests == ToolCalls(parts[..i])
      invariant FirstFailure(server, requests) == None
      invariant results == StoreAll(server, requests)
    {
      ToolCallsStep(parts, i);
      if parts[i].FunctionCall? {
        var call := Invocation(parts[i].name, parts[i].args);
        var out := CallTool(server, call.tool, call.args);
        if "error" in out {
          requests := requests + [call];
          failure := Some(out["error"]);
          StopsAt(server, parts, i);
          return;
        }
        StoreStep(server, requests, call);
        requests := requests + [call];
        results := results[call.tool := Obj(out)];
      }
    }
    assert parts[..|parts|] == parts;
    assert requests == ToolCalls(parts);
    failure := None;
  }

  /**
   * The translation loop: one `translate_text` call per name, in order, each
   * adding its record whether or not the call succeeded.
   */
  method TranslateNames(server: Server, names: seq<Value>, lang: string)
    returns (translations: seq<Value>, requests: seq<Invocation>)
    ensures translations == Translations(server, names, lang)
    ensures requests == FollowUps(names, lang)
  {
    translations, requests := [], [];
    for j := 0 to |names|
      invariant translations == Translations(server, names[..j], lang)
      invariant requests == FollowUps(names[..j], lang)
    {
      var request := TranslateRequest(names[j], lang);
      var out := CallTool(server, request.tool, request.args);
      requests := requests + [request];
      translations := translations + [Entry(names[j], out)];
      assert names[..j + 1] == names[..j] + [names[j]];
    }
    assert names[..|names|] == names;
  }

  /** `run_agent`; `requests` lists the invocations sent to the tool server, in order. */
  method RunAgent(server: Server, query: string, parts: seq<Part>, summary: Option<string>)
    returns (answer: Answer, requests: seq<Invocation>)
    ensures Run(answer, requests) == Respond(server, query, parts, summary)
  {
    var failure, results;
    failure, results, requests := ExecuteCalls(server, parts);
    if failure.Some? {
      answer := Apology(failure.value);
      return;
    }

    if Fires(query, results) {
      var selection := SelectNames(results[PlacesTool]);
      if selection.Crash? {
        answer := Crashed;
        return;
      }
      var lang := TargetLanguage(query);
      var translations, followUps := TranslateNames(server, selection.names, lang);
      requests := requests + followUps;
      results := results[TranslationsKey := List(translations)];
    }

    answer := Finish(results, summary);
  }
}
