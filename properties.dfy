/** What `run_agent` guarantees, stated over the model `Agent.Respond`. */
module AgentProperties {
  import opened Json
  import opened Text
  import opened Tools
  import opened Chaining
  import opened Agent

  /** The call of part `i` is the one at position "number of calls before part i". */
  lemma {:induction false} CallPosition(parts: seq<Part>, i: nat)
    requires i < |parts| && parts[i].FunctionCall?
    ensures |ToolCalls(parts[..i])| < |ToolCalls(parts)|
    ensures ToolCalls(parts)[|ToolCalls(parts[..i])|] == Invocation(parts[i].name, parts[i].args)
  {
    ToolCallsStep(parts, i);
    assert parts == parts[..i + 1] + parts[i + 1..];
    ToolCallsAppend(parts[..i + 1], parts[i + 1..]);
  }

  /** A part that is not a function call adds no invocation. */
  lemma OtherPartSkipped(parts: seq<Part>, i: nat)
    requires i < |parts| && !parts[i].FunctionCall?
    ensures ToolCalls(parts[..i + 1]) == ToolCalls(parts[..i])
  {
    ToolCallsStep(parts, i);
  }

  /** Function calls are executed in the order their parts appear. */
  lemma CallsInPartOrder(parts: seq<Part>, i: nat, j: nat)
    requires i < j < |parts| && parts[i].FunctionCall? && parts[j].FunctionCall?
    ensures var calls := ToolCalls(parts);
            exists p, q :: 0 <= p < q < |calls| &&
              calls[p] == Invocation(parts[i].name, parts[i].args) &&
              calls[q] == Invocation(parts[j].name, parts[j].args)
  {
    CallPosition(parts, i);
    CallPosition(parts, j);
    var pre := parts[..j];
    assert pre[..i] == parts[..i];
    ToolCallsStep(pre, i);
    assert pre == pre[..i + 1] + pre[i + 1..];
    ToolCallsAppend(pre[..i + 1], pre[i + 1..]);
    assert |ToolCalls(parts[..i])| < |ToolCalls(parts[..j])|;
  }

  /**
   * Short-circuit: when the k-th call is the first to fail, the answer is the
   * apology with its error and nothing after it is sent, translations included.
   */
  lemma ShortCircuit(server: Server, query: string, parts: seq<Part>, summary: Option<string>, k: nat)
    requires var calls := ToolCalls(parts);
             k < |calls| && Fails(server, calls[k]) &&
             forall j :: 0 <= j < k ==> !Fails(server, calls[j])
    ensures var calls := ToolCalls(parts);
            var r := Respond(server, query, parts, summary);
            r.answer == Apology(Output(server, calls[k])["error"]) &&
            r.requests == calls[..k + 1] && |r.requests| == k + 1
    ensures var e := Output(server, ToolCalls(parts)[k])["error"];
            e.Str? ==> AnswerText(Respond(server, query, parts, summary).answer) == Some(ApologyPrefix + e.s)
  {
    FirstFailureIsFirst(server, ToolCalls(parts));
  }

  /** The stored entry for a tool is the output of the latest call with that name. */
  lemma {:induction false} StoredIsLatest(server: Server, calls: seq<Invocation>, i: nat)
    requires i < |calls|
    requires forall j :: i < j < |calls| ==> calls[j].tool != calls[i].tool
    ensures calls[i].tool in StoreAll(server, calls)
    ensures StoreAll(server, calls)[calls[i].tool] == Obj(Output(server, calls[i]))
    decreases |calls|
  {
    if i < |calls| - 1 {
      var prefix := calls[..|calls| - 1];
      assert prefix[i] == calls[i];
      StoredIsLatest(server, prefix, i);
    }
  }

  /** Every stored value is the output of some call with that tool name. */
  lemma {:induction false} StoredComesFromCall(server: Server, calls: seq<Invocation>, tool: string)
    requires tool in StoreAll(server, calls)
    ensures exists i :: 0 <= i < |calls| && calls[i].tool == tool &&
                        StoreAll(server, calls)[tool] == Obj(Output(server, calls[i]))
    decreases |calls|
  {
    var last := calls[|calls| - 1];
    if last.tool != tool {
      var prefix := calls[..|calls| - 1];
      StoredComesFromCall(server, prefix, tool);
      var i :| 0 <= i < |prefix| && prefix[i].tool == tool &&
               StoreAll(server, prefix)[tool] == Obj(Output(server, prefix[i]));
      assert calls[i] == prefix[i];
    }
  }

  /**
   * Without the trigger no `translate_text` call is made: the requests are the
   * primary calls and the results are exactly the stored outputs.
   */
  lemma NoChaining(server: Server, query: string, parts: seq<Part>, summary: Option<string>)
    requires var calls := ToolCalls(parts);
             FirstFailure(server, calls) == None && !Fires(query, StoreAll(server, calls))
    ensures var calls := ToolCalls(parts);
            var r := Respond(server, query, parts, summary);
            r.requests == calls &&
            (calls != [] ==> r.answer == Structured(StoreAll(server, calls)) &&
                             r.answer.results.Keys == set c <- calls :: c.tool)
  {
    var calls := ToolCalls(parts);
    if calls != [] {
      assert calls[0].tool in StoreAll(server, calls);
    }
  }

  /** With the trigger, a selection that raises ends the run with no translation sent. */
  lemma SelectionCrashes(server: Server, query: string, parts: seq<Part>, summary: Option<string>)
    requires var calls := ToolCalls(parts);
             FirstFailure(server, calls) == None && Fires(query, StoreAll(server, calls)) &&
             SelectNames(StoreAll(server, calls)[PlacesTool]) == Crash
    ensures Respond(server, query, parts, summary) == Run(Crashed, ToolCalls(parts))
  {
  }

  /** With the trigger and the selected names, `run_agent` answers with the stored results plus the translations. */
  lemma ChainedShape(server: Server, query: string, parts: seq<Part>, summary: Option<string>, names: seq<Value>)
    requires var calls := ToolCalls(parts);
             FirstFailure(server, calls) == None && Fires(query, StoreAll(server, calls)) &&
             SelectNames(StoreAll(server, calls)[PlacesTool]) == Names(names)
    ensures var calls := ToolCalls(parts);
            var lang := TargetLanguage(query);
            var results := StoreAll(server, calls)[TranslationsKey := List(Translations(server, names, lang))];
            Respond(server, query, parts, summary) == Run(Structured(results), calls + FollowUps(names, lang))
  {
    var calls := ToolCalls(parts);
    var lang := TargetLanguage(query);
    var results := StoreAll(server, calls)[TranslationsKey := List(Translations(server, names, lang))];
    assert TranslationsKey in results;
  }

  /**
   * With the trigger: one `translate_text` call per selected name (at most three),
   * in order, each carrying that name and the target language, after the primary calls.
   */
  lemma ChainedRequests(server: Server, query: string, parts: seq<Part>, summary: Option<string>, names: seq<Value>)
    requires var calls := ToolCalls(parts);
             FirstFailure(server, calls) == None && Fires(query, StoreAll(server, calls)) &&
             SelectNames(StoreAll(server, calls)[PlacesTool]) == Names(names)
    ensures |names| <= MaxNames
    ensures var calls := ToolCalls(parts);
            var r := Respond(server, query, parts, summary);
            var lang := TargetLanguage(query);
            |r.requests| == |calls| + |names| && r.requests[..|calls|] == calls &&
            forall i :: 0 <= i < |names| ==>
              r.requests[|calls| + i] == Invocation(TranslateTool, map["text" := names[i], "target_lang" := Str(lang)])
  {
    ChainedShape(server, query, parts, summary, names);
    var calls := ToolCalls(parts);
    var follow := FollowUps(names, TargetLanguage(query));
    var sent := Respond(server, query, parts, summary).requests;
    assert sent == calls + follow;
    assert sent[..|calls|] == calls;
    assert forall i :: 0 <= i < |names| ==> sent[|calls| + i] == follow[i];
  }

  /**
   * With the trigger: the results keep every stored output and add a
   * `"translations"` list with one record per name, in order, whatever each
   * `translate_text` call returned.
   */
  lemma ChainedResults(server: Server, query: string, parts: seq<Part>, summary: Option<string>, names: seq<Value>)
    requires var calls := ToolCalls(parts);
             FirstFailure(server, calls) == None && Fires(query, StoreAll(server, calls)) &&
             SelectNames(StoreAll(server, calls)[PlacesTool]) == Names(names)
    ensures var calls := ToolCalls(parts);
            var r := Respond(server, query, parts, summary);
            r.answer.Structured? &&
            r.answer.results.Keys == (set c <- calls :: c.tool) + {TranslationsKey} &&
            forall t :: t in r.answer.results && t != TranslationsKey ==>
              r.answer.results[t] == StoreAll(server, calls)[t]
    ensures var r := Respond(server, query, parts, summary);
            var lang := TargetLanguage(query);
            r.answer.Structured? && TranslationsKey in r.answer.results &&
            r.answer.results[TranslationsKey].List? &&
            var entries := r.answer.results[TranslationsKey].items;
            |entries| == |names| &&
            forall i :: 0 <= i < |names| ==>
              var out := CallTool(server, TranslateTool, map["text" := names[i], "target_lang" := Str(lang)]);
              entries[i] == Obj(map["original" := names[i],
                                    "translated" := if "translated_text" in out then out["translated_text"] else Str(ErrorSentinel)])
  {
    ChainedShape(server, query, parts, summary, names);
  }

  /** A follow-up call happens only when the trigger holds. */
  lemma FollowUpsNeedTrigger(server: Server, query: string, parts: seq<Part>, summary: Option<string>)
    requires |Respond(server, query, parts, summary).requests| > |ToolCalls(parts)|
    ensures FirstFailure(server, ToolCalls(parts)) == None
    ensures Fires(query, StoreAll(server, ToolCalls(parts)))
  {
  }

  /** A `search_places` output without `"results"` makes no call but still records no translations. */
  lemma MissingResults(server: Server, query: string, parts: seq<Part>, summary: Option<string>)
    requires var calls := ToolCalls(parts);
             FirstFailure(server, calls) == None && Fires(query, StoreAll(server, calls)) &&
             var places := StoreAll(server, calls)[PlacesTool];
             places.Obj? && "results" !in places.fields
    ensures var r := Respond(server, query, parts, summary);
            r.requests == ToolCalls(parts) &&
            r.answer.Structured? && r.answer.results[TranslationsKey] == List([])
  {
    var calls := ToolCalls(parts);
    ChainedShape(server, query, parts, summary, []);
    assert calls + FollowUps([], TargetLanguage(query)) == calls;
  }

  /** The plain-text fallback is taken exactly when the model proposed no tool call. */
  lemma FallbackIffNoCalls(server: Server, query: string, parts: seq<Part>, summary: Option<string>)
    requires FirstFailure(server, ToolCalls(parts)) == None
    ensures Respond(server, query, parts, summary).answer.PlainText? <==> ToolCalls(parts) == []
    ensures ToolCalls(parts) == [] ==>
              Respond(server, query, parts, summary) ==
              Run(PlainText(if summary.Some? then summary.value else SummaryFailed), [])
  {
    var calls := ToolCalls(parts);
    var stored := StoreAll(server, calls);
    if calls == [] {
      assert stored == map[];
      assert !Fires(query, stored);
      assert Respond(server, query, parts, summary) == Run(Finish(stored, summary), calls);
    } else {
      assert calls[0].tool in stored;
      if !Fires(query, stored) {
        assert Respond(server, query, parts, summary) == Run(Finish(stored, summary), calls);
      } else if SelectNames(stored[PlacesTool]).Names? {
        ChainedShape(server, query, parts, summary, SelectNames(stored[PlacesTool]).names);
      }
    }
  }

  /** The token after the first `"to"` is the target language. */
  lemma LanguageAfterTo(query: string, words: seq<string>, i: nat)
    requires words == Words(Lower(query))
    requires i + 1 < |words| && words[i] == LanguageMarker
    requires forall j :: 0 <= j < i ==> words[j] != LanguageMarker
    ensures TargetLanguage(query) == words[i + 1]
  {
    assert IndexOf(words, LanguageMarker) == Some(i);
  }

  /** Without a `"to"`, or with the first `"to"` last, the target language is `"hindi"`. */
  lemma LanguageDefault(query: string)
    requires var words := Words(Lower(query));
             LanguageMarker !in words ||
             (words[|words| - 1] == LanguageMarker && forall j :: 0 <= j < |words| - 1 ==> words[j] != LanguageMarker)
    ensures TargetLanguage(query) == DefaultLanguage
  {
    var words := Words(Lower(query));
    if LanguageMarker in words {
      assert IndexOf(words, LanguageMarker) == Some(|words| - 1);
    }
  }

  lemma SpanishWords(q: string, ws: seq<string>)
    requires q == "translate these to spanish" && ws == ["translate", "these", "to", "spanish"]
    ensures Words(Lower(q)) == ws
  {
    LowerOfLower(q);
    SpanishJoined(q, ws);
    SpanishTokensAreWords(ws);
    WordsOfUnwords(ws);
  }

  lemma SpanishJoined(q: string, ws: seq<string>)
    requires q == "translate these to spanish" && ws == ["translate", "these", "to", "spanish"]
    ensures q == Unwords(ws)
  {
    JoinedFour(ws, q);
  }

  lemma SpanishTokensAreWords(ws: seq<string>)
    requires ws == ["translate", "these", "to", "spanish"]
    ensures forall k :: 0 <= k < |ws| ==> IsWord(ws[k])
  {
    assert IsWord(ws[0]) && IsWord(ws[1]) && IsWord(ws[2]) && IsWord(ws[3]);
  }

  /** Four words interleaved with five whitespace runs. */
  lemma JoinedFourRuns(ws: seq<string>, seps: seq<string>, joined: string)
    requires |ws| == 4 && |seps| == 5
    requires joined == seps[0] + ws[0] + (seps[1] + ws[1] + (seps[2] + ws[2] + (seps[3] + ws[3] + seps[4])))
    ensures Join(ws, seps) == joined
  {
    assert Join(ws[4..], seps[4..]) == seps[4];
    assert Join(ws[3..], seps[3..]) == seps[3] + ws[3] + seps[4];
    assert Join(ws[2..], seps[2..]) == seps[2] + ws[2] + Join(ws[3..], seps[3..]);
    assert Join(ws[1..], seps[1..]) == seps[1] + ws[1] + Join(ws[2..], seps[2..]);
  }

  /** The Spanish query with a doubled space, a tab and whitespace at both ends. */
  lemma SpacedJoined(q: string, ws: seq<string>, seps: seq<string>)
    requires q == " translate these  to\tspanish "
    requires ws == ["translate", "these", "to", "spanish"]
    requires seps == [" ", " ", "  ", "\t", " "]
    ensures Join(ws, seps) == q
  {
    JoinedFourRuns(ws, seps, q);
  }

  /** Runs of whitespace of any kind split like single spaces. */
  lemma SpacedWords(q: string, ws: seq<string>)
    requires q == " translate these  to\tspanish "
    requires ws == ["translate", "these", "to", "spanish"]
    ensures Words(Lower(q)) == ws
  {
    var seps := [" ", " ", "  ", "\t", " "];
    LowerOfLower(q);
    SpacedJoined(q, ws, seps);
    SpanishTokensAreWords(ws);
    assert AllSpace(seps[0]) && AllSpace(seps[1]) && AllSpace(seps[2]) && AllSpace(seps[3]) && AllSpace(seps[4]);
    WordsOfJoin(ws, seps);
  }

  /** " translate these  to\tspanish " targets "spanish", as its single-spaced form does. */
  lemma LanguageExampleSpaced(q: string)
    requires q == " translate these  to\tspanish "
    ensures TargetLanguage(q) == "spanish"
  {
    var ws := ["translate", "these", "to", "spanish"];
    SpacedWords(q, ws);
    MarkerAtTwo(ws);
    LanguageAfterTo(q, ws, 2);
  }

  lemma MarkerAtTwo(ws: seq<string>)
    requires ws == ["translate", "these", "to", "spanish"]
    ensures ws[2] == LanguageMarker && forall j :: 0 <= j < 2 ==> ws[j] != LanguageMarker
  {
  }

  /** "translate these to spanish" targets "spanish". */
  lemma LanguageExampleSpanish(q: string)
    requires q == "translate these to spanish"
    ensures TargetLanguage(q) == "spanish"
  {
    var ws := ["translate", "these", "to", "spanish"];
    SpanishWords(q, ws);
    MarkerAtTwo(ws);
    LanguageAfterTo(q, ws, 2);
  }

  /** "translate these" has no "to" and targets "hindi". */
  lemma LanguageExampleNoMarker(q: string)
    requires q == "translate these"
    ensures TargetLanguage(q) == DefaultLanguage
  {
    var ws := ["translate", "these"];
    LowerOfLower(q);
    assert q == Unwords(ws);
    WordsOfUnwords(ws);
    assert Words(Lower(q)) == ws;
    LanguageDefault(q);
  }

  /** "translate to": the marker is found, as the last token, and the target stays "hindi". */
  lemma LanguageExampleMarkerLast(q: string)
    requires q == "translate to"
    ensures IndexOf(Words(Lower(q)), LanguageMarker) == Some(1)
    ensures TargetLanguage(q) == DefaultLanguage
  {
    var ws := ["translate", "to"];
    LowerOfLower(q);
    assert q == Unwords(ws);
    WordsOfUnwords(ws);
    assert Words(Lower(q)) == ws;
    assert IndexOf(ws, LanguageMarker) == Some(1);
    LanguageDefault(q);
  }

  /** One primary call and no failure: the stored results hold exactly that call's output. */
  lemma SingleCall(server: Server, tool: string, args: Object)
    requires "error" !in Output(server, Invocation(tool, args))
    ensures ToolCalls([FunctionCall(tool, args)]) == [Invocation(tool, args)]
    ensures FirstFailure(server, [Invocation(tool, args)]) == None
    ensures StoreAll(server, [Invocation(tool, args)]) == map[tool := Obj(Output(server, Invocation(tool, args)))]
  {
    var calls := [Invocation(tool, args)];
    assert calls[..0] == [];
    assert ToolCalls([FunctionCall(tool, args)]) == Proposed(FunctionCall(tool, args)) + ToolCalls([]);
  }

  /** A weather question: one successful `get_weather` call is the whole structured answer. */
  lemma ScenarioWeather(server: Server, query: string, args: Object, body: Object, summary: Option<string>)
    requires server("get_weather", args) == Reply(body) && "error" !in body
    ensures Respond(server, query, [FunctionCall("get_weather", args)], summary) ==
            Run(Structured(map["get_weather" := Obj(body)]), [Invocation("get_weather", args)])
  {
    var call := Invocation("get_weather", args);
    SingleCall(server, "get_weather", args);
    var stored := map["get_weather" := Obj(body)];
    assert StoreAll(server, [call]) == stored;
    assert PlacesTool !in stored;
    assert "get_weather" in stored;
  }

  /** A failing `get_weather` call: the apology with its message, and no other call. */
  lemma ScenarioWeatherFails(server: Server, query: string, args: Object, summary: Option<string>)
    requires server("get_weather", args) == Reply(map["error" := Str("Location not found")])
    ensures var r := Respond(server, query, [FunctionCall("get_weather", args)], summary);
            AnswerText(r.answer) == Some("I am sorry, something went wrong → Location not found") &&
            r.requests == [Invocation("get_weather", args)]
  {
    var parts := [FunctionCall("get_weather", args)];
    var call := Invocation("get_weather", args);
    assert ToolCalls(parts) == Proposed(parts[0]) + ToolCalls([]);
    assert [call][..0] == [];
    assert Output(server, call) == map["error" := Str("Location not found")];
    assert FirstFailure(server, [call]) == Some(0);
    LocationNotFoundText();
  }

  lemma LocationNotFoundText()
    ensures AnswerText(Apology(Str("Location not found"))) ==
            Some("I am sorry, something went wrong → Location not found")
  {
    assert ApologyPrefix + "Location not found" == "I am sorry, something went wrong → Location not found";
  }

  // The lemmas from here to PlacesQueryMarker are solver steps for the places
  // query "find coffee shops near PSU and translate to hindi": each regroups a
  // string literal or a token list in an obligation of its own, small enough
  // for the solver, so that PlacesQuery can chain them.

  /** "PSU" lower-cases to "psu". */
  lemma PsuLower(b: string)
    requires b == "PSU"
    ensures Lower(b) == "psu"
  {
    assert LowerChar('P') == 'p' && LowerChar('S') == 's' && LowerChar('U') == 'u';
  }

  lemma PlacesQuerySplit(q: string)
    requires q == "find coffee shops near PSU and translate to hindi"
    ensures q == "find coffee shops near " + "PSU" + " and translate to hindi"
  {
  }

  lemma PlacesLowSplit(low: string)
    requires low == "find coffee shops near psu and translate to hindi"
    ensures low == "find coffee shops near " + "psu" + " and translate to hindi"
  {
  }

  lemma PlacesLowHalves(low: string)
    requires low == "find coffee shops near psu and translate to hindi"
    ensures low == "find coffee shops near" + " " + "psu and translate to hindi"
  {
  }

  /** The places query lower-cases by lowering its only upper-case word. */
  lemma PlacesQueryLower(q: string, low: string)
    requires q == "find coffee shops near PSU and translate to hindi"
    requires low == "find coffee shops near psu and translate to hindi"
    ensures Lower(q) == low
  {
    var a, b, c := "find coffee shops near ", "PSU", " and translate to hindi";
    PlacesQuerySplit(q);
    PlacesLowSplit(low);
    LowerConcat(a + b, c);
    LowerConcat(a, b);
    LowerOfLower(a);
    LowerOfLower(c);
    PsuLower(b);
  }

  /** Four words join with single spaces between them. */
  lemma JoinedFour(ws: seq<string>, joined: string)
    requires |ws| == 4 && joined == ws[0] + " " + (ws[1] + " " + (ws[2] + " " + ws[3]))
    ensures Unwords(ws) == joined
  {
    assert Unwords(ws[3..]) == ws[3];
    assert Unwords(ws[2..]) == ws[2] + " " + ws[3];
  }

  lemma PlacesBackSplit(b: string)
    requires b == "psu and translate to hindi"
    ensures b == "psu" + " " + "and translate to hindi"
  {
  }

  lemma PlacesJoinedBack(ws: seq<string>)
    requires ws == ["psu", "and", "translate", "to", "hindi"]
    ensures Unwords(ws) == "psu and translate to hindi"
  {
    JoinedFour(ws[1..], "and translate to hindi");
    assert Unwords(ws) == ws[0] + " " + Unwords(ws[1..]);
    PlacesBackSplit("psu and translate to hindi");
  }

  lemma PlacesJoined(low: string, ws: seq<string>)
    requires low == "find coffee shops near psu and translate to hindi"
    requires ws == ["find", "coffee", "shops", "near", "psu", "and", "translate", "to", "hindi"]
    ensures low == Unwords(ws)
  {
    var front, back := ws[..4], ws[4..];
    assert ws == front + back;
    JoinedFour(front, "find coffee shops near");
    PlacesJoinedBack(back);
    UnwordsAppend(front, back);
    PlacesLowHalves(low);
  }

  lemma PlacesTokensAreWords(ws: seq<string>)
    requires ws == ["find", "coffee", "shops", "near", "psu", "and", "translate", "to", "hindi"]
    ensures forall k :: 0 <= k < |ws| ==> IsWord(ws[k])
  {
    assert IsWord(ws[0]) && IsWord(ws[1]) && IsWord(ws[2]);
    assert IsWord(ws[3]) && IsWord(ws[4]) && IsWord(ws[5]);
    assert IsWord(ws[6]) && IsWord(ws[7]) && IsWord(ws[8]);
  }

  lemma PlacesQueryMarker(ws: seq<string>)
    requires ws == ["find", "coffee", "shops", "near", "psu", "and", "translate", "to", "hindi"]
    ensures TranslateWord in ws && ws[7] == LanguageMarker && ws[8] == DefaultLanguage
    ensures forall j :: 0 <= j < 7 ==> ws[j] != LanguageMarker
  {
    assert ws[6] == TranslateWord;
  }

  /**
   * "find coffee shops near PSU and translate to hindi" lower-cases and splits
   * into its nine tokens, meets the query half of the trigger (with a stored
   * `search_places` result it fires), and targets Hindi.
   */
  lemma PlacesQuery(q: string, stored: Object)
    requires q == "find coffee shops near PSU and translate to hindi"
    requires PlacesTool in stored
    ensures Words(Lower(q)) == ["find", "coffee", "shops", "near", "psu", "and", "translate", "to", "hindi"]
    ensures Fires(q, stored)
    ensures TargetLanguage(q) == DefaultLanguage
  {
    var low := "find coffee shops near psu and translate to hindi";
    var ws := ["find", "coffee", "shops", "near", "psu", "and", "translate", "to", "hindi"];
    PlacesQueryLower(q, low);
    PlacesJoined(low, ws);
    PlacesTokensAreWords(ws);
    WordsOfUnwords(ws);
    PlacesQueryMarker(ws);
    TranslateTokenFires(q, stored);
    LanguageAfterTo(q, ws, 7);
  }

  /**
   * Places with translation: for a query that asks for a translation into Hindi
   * (`PlacesQuery` proves both requirements on the query for
   * "find coffee shops near PSU and translate to hindi"),
   * one `search_places` call with three named places is followed by three
   * `translate_text` calls into Hindi, in place order, and the answer records
   * three translations.
   */
  lemma ScenarioPlacesTranslated(server: Server, q: string, args: Object, body: Object,
                                 places: seq<Value>, names: seq<Value>, summary: Option<string>)
    requires Contains(Lower(q), TranslateWord) && TargetLanguage(q) == DefaultLanguage
    requires server(PlacesTool, args) == Reply(body) && "error" !in body
    requires "results" in body && body["results"] == List(places)
    requires |places| == 3 && |names| == 3
    requires forall i :: 0 <= i < 3 ==> Named(places[i]) && places[i].fields["name"] == names[i]
    ensures var r := Respond(server, q, [FunctionCall(PlacesTool, args)], summary);
            |r.requests| == 4 && r.requests[0] == Invocation(PlacesTool, args) &&
            (forall i :: 0 <= i < 3 ==>
               r.requests[1 + i] == Invocation(TranslateTool, map["text" := names[i], "target_lang" := Str("hindi")])) &&
            r.answer.Structured? && TranslationsKey in r.answer.results &&
            r.answer.results[TranslationsKey].List? && |r.answer.results[TranslationsKey].items| == 3
  {
    var parts := [FunctionCall(PlacesTool, args)];
    PlacesSelection(server, args, body, places, names);
    ChainedRequests(server, q, parts, summary, names);
    ChainedResults(server, q, parts, summary, names);
  }

  /** One successful `search_places` call with three named places selects their three names. */
  lemma PlacesSelection(server: Server, args: Object, body: Object, places: seq<Value>, names: seq<Value>)
    requires server(PlacesTool, args) == Reply(body) && "error" !in body
    requires "results" in body && body["results"] == List(places)
    requires |places| == 3 && |names| == 3
    requires forall i :: 0 <= i < 3 ==> Named(places[i]) && places[i].fields["name"] == names[i]
    ensures var calls := ToolCalls([FunctionCall(PlacesTool, args)]);
            calls == [Invocation(PlacesTool, args)] && FirstFailure(server, calls) == None &&
            PlacesTool in StoreAll(server, calls) &&
            SelectNames(StoreAll(server, calls)[PlacesTool]) == Names(names)
  {
    SingleCall(server, PlacesTool, args);
    FirstThreeNames(body, places);
    assert Min(MaxNames, |places|) == 3;
  }
}
