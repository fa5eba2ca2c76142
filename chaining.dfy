/**
 * The chaining policy: after a `search_places` result, when the query asks for a
 * translation, the names of the first places are translated one by one.
 */
module Chaining {
  import opened Json
  import opened Text
  import opened Tools

  const PlacesTool := "search_places"
  const TranslateTool := "translate_text"
  const TranslateWord := "translate"
  const LanguageMarker := "to"
  const DefaultLanguage := "hindi"
  const MaxNames := 3
  const ErrorSentinel := "[error]"
  const TranslationsKey := "translations"

  /** The trigger: a stored `search_places` result and "translate" in the lower-cased query. */
  predicate Fires(query: string, stored: Object)
  {
    PlacesTool in stored && Contains(Lower(query), TranslateWord)
  }

  /** A query with a "translate" token meets the query half of the trigger. */
  lemma TranslateTokenFires(query: string, stored: Object)
    requires PlacesTool in stored && TranslateWord in Words(Lower(query))
    ensures Fires(query, stored)
  {
    var words := Words(Lower(query));
    var k :| 0 <= k < |words| && words[k] == TranslateWord;
    WordsOccur(Lower(query), k);
  }

  function Min(a: int, b: int): int
  {
    if a <= b then a else b
  }

  /** The names to translate, or `Crash` when Python raises while computing them. */
  datatype Selection = Names(names: seq<Value>) | Crash

  predicate Named(place: Value)
  {
    place.Obj? && "name" in place.fields
  }

  /** `[p["name"] for p in places]`, which raises on the first place without a name. */
  function NamesOf(places: seq<Value>): (r: Selection)
    ensures r.Names? <==> forall i :: 0 <= i < |places| ==> Named(places[i])
    ensures r.Names? ==> |r.names| == |places|
    ensures r.Names? ==> forall i :: 0 <= i < |places| ==> r.names[i] == places[i].fields["name"]
  {
    if places == [] then Names([])
    else if !Named(places[0]) then Crash
    else match NamesOf(places[1..])
      case Names(rest) => Names([places[0].fields["name"]] + rest)
      case Crash => Crash
  }

  /**
   * `places = payload.get("results", [])` followed by `places[:3]` and the name
   * extraction. A list is cut to its first three places; an empty string slices
   * to an empty string and yields no names; any other non-list value (or a
   * non-empty string, whose characters have no `"name"`) makes Python raise.
   */
  function SelectNames(payload: Value): (s: Selection)
    ensures s.Names? ==> |s.names| <= MaxNames
    ensures !payload.Obj? ==> s == Crash
    ensures payload.Obj? && "results" !in payload.fields ==> s == Names([])
    ensures payload.Obj? && "results" in payload.fields ==>
              var results := payload.fields["results"];
              (results.Str? ==> s == (if results.s == [] then Names([]) else Crash)) &&
              (!results.Str? && !results.List? ==> s == Crash)
  {
    match payload
    case Obj(fields) =>
      (match Get(fields, "results", List([]))
       case List(places) => NamesOf(places[..Min(MaxNames, |places|)])
       case Str(s) => if s == "" then Names([]) else Crash
       case _ => Crash)
    case _ => Crash
  }

  /** A `search_places` payload with a list of places yields the first three names, in order. */
  lemma FirstThreeNames(fields: Object, places: seq<Value>)
    requires Get(fields, "results", List([])) == List(places)
    ensures SelectNames(Obj(fields)).Names? <==>
              forall i :: 0 <= i < Min(MaxNames, |places|) ==> Named(places[i])
    ensures SelectNames(Obj(fields)).Names? ==>
              var names := SelectNames(Obj(fields)).names;
              |names| == Min(MaxNames, |places|) <= MaxNames &&
              forall i :: 0 <= i < |names| ==> names[i] == places[i].fields["name"]
  {
    var cut := places[..Min(MaxNames, |places|)];
    assert forall i :: 0 <= i < |cut| ==> cut[i] == places[i];
  }

  /**
   * The target language: the token after the first `"to"` of the whitespace-split,
   * lower-cased query, or `"hindi"` when there is none (`.strip()` is left out:
   * a token of `Words` holds no whitespace).
   */
  function TargetLanguage(query: string): (lang: string)
    ensures lang != []
  {
    var words := Words(Lower(query));
    var found :=
      match IndexOf(words, LanguageMarker)
      case Some(i) => if i + 1 < |words| then words[i + 1] else []
      case None => [];
    if found == [] then DefaultLanguage else found
  }

  /** The `translate_text` invocation for one name. */
  function TranslateRequest(name: Value, lang: string): Invocation
  {
    Invocation(TranslateTool, map["text" := name, "target_lang" := Str(lang)])
  }

  /** The follow-up invocations for the selected names, one per name, in order. */
  function FollowUps(names: seq<Value>, lang: string): (calls: seq<Invocation>)
    ensures |calls| == |names|
    ensures forall i :: 0 <= i < |names| ==>
              calls[i].tool == TranslateTool &&
              calls[i].args == map["text" := names[i], "target_lang" := Str(lang)]
  {
    seq(|names|, i requires 0 <= i < |names| => TranslateRequest(names[i], lang))
  }

  /** One translation record: the translated text when the tool returned one, else the sentinel. */
  function Entry(name: Value, out: Object): (e: Value)
    ensures e.Obj? && e.fields.Keys == {"original", "translated"} && e.fields["original"] == name
    ensures "translated_text" in out ==> e.fields["translated"] == out["translated_text"]
    ensures "translated_text" !in out ==> e.fields["translated"] == Str(ErrorSentinel)
  {
    Obj(map["original" := name, "translated" := Get(out, "translated_text", Str(ErrorSentinel))])
  }

  /**
   * The records of all follow-up invocations: record i is built from the output
   * of follow-up i alone, so a failed call never affects the others.
   */
  function Translations(server: Server, names: seq<Value>, lang: string): (records: seq<Value>)
    ensures |records| == |names|
    ensures forall i :: 0 <= i < |names| ==>
              var request := FollowUps(names, lang)[i];
              records[i] == Entry(names[i], CallTool(server, request.tool, request.args))
  {
    seq(|names|, i requires 0 <= i < |names| =>
      Entry(names[i], CallTool(server, TranslateTool, TranslateRequest(names[i], lang).args)))
  }
}
