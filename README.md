# Tool-calling orchestration of the Smart City agent, in Dafny

This project models `run_agent` and `call_tool` from `client/client.py`. These two functions are the client side of the Smart City Info agent.

The flow is as follows. The language model's first response is a list of parts. Each function-call part is a tool invocation. The agent sends each one in order to the tool server (`POST /tool/<name>`). It stops at the first output that carries an `"error"` key, and stores each other output under its tool name. The chaining policy may then run. When a `search_places` result was stored and the lower-cased query contains `"translate"`, the agent translates the names of at most the first three places. The target language is the token after the first `"to"` of the query, or `"hindi"` by default. Each translation is recorded as `{original, translated}`, with `"[error]"` when the tool returned no text. Finally the agent returns the structured results, or the text of a second model call when no tool was called.

The two external capabilities are inputs to the model:

- The model's first response is a `seq<Part>`. A `Part` is either `FunctionCall(name, args)` or `Other`.
- The tool server is a total function `Server = (string, Object) -> Response`. It returns the decoded JSON object of the reply, or the message of the exception that `requests.post(...).json()` raised.
- The outcome of the second model call is an `Option<string>`. `None` stands for the call raising.

The model makes tool calls observable with the `requests` output. It lists the invocations sent to the server, in order. This lets the contracts state call order, call count and short-circuiting.

Modules, one per component:

- `Json` (json.dfy): JSON values and `dict.get`.
- `Text` (text.dfy): models `str.lower()` (ASCII letters only), `sub in s`, `str.split()` (with Python's whitespace set) and `list.index`. The split is pinned down on every string: each string is its tokens interleaved with whitespace runs (`SplitRuns`), and any such interleaving splits back into its tokens (`WordsOfJoin`).
- `Tools` (tools.dfy): `call_tool`.
- `Chaining` (chaining.dfy): the trigger, the selection of the first three names, the target-language rule and the translation records.
- `Agent` (agent.dfy): `Respond` is a declarative specification of what `run_agent` returns and sends. `RunAgent` is the imperative version: the primary loop (`ExecuteCalls`), which mutates a result map and returns early, and the translation loop (`TranslateNames`), which appends to a list. `RunAgent` is proved equal to `Respond`.
- `AgentProperties` (properties.dfy): the guarantees, stated over `Respond` and therefore over `RunAgent`.

Two behaviours of `client/client.py` are easy to miss:

- The client never looks a tool name up in a registry. An unknown name is posted like any other. The server answers with a non-JSON 404 page, `response.json()` raises, and `call_tool` returns `{"error": <message of that exception>}`. That message need not contain the tool name.
- Name selection can raise inside `run_agent`, and nothing there catches it. This happens when `"results"` is not a list (an empty string excepted, since `""[:3]` is empty), or when one of the first three places has no `"name"`. The model returns `Crashed` in that case, with no translation sent.

## Model

| member | source | states |
|---|---|---|
| Tools.CallTool | client/client.py:36-52 | total (never raises); the output carries `"error"` exactly when the server raised or its reply carries `"error"`; a decoded reply is passed on unmodified; a raise becomes `{"error": message}` |
| Agent.RunAgent | client/client.py:56-200 | the answer and the sequence of tool invocations sent are exactly those of the specification `Respond` |
| Agent.Respond | client/client.py:56-200 | the answer is the apology exactly when some primary call fails; at most three invocations follow the primary calls; the invocations sent always begin with the proposed calls in order (a prefix of them when a call fails, all of them before any follow-up otherwise) |
| Agent.ToolCalls | client/client.py:137-140 | never more calls than parts (position and order of each call: `ToolCallsAppend`, `CallPosition`, `CallsInPartOrder`) |
| Agent.StoreAll | client/client.py:159 | the stored keys are exactly the called tool names (the stored values: `StoredIsLatest`, `StoredComesFromCall`) |
| Agent.Finish | client/client.py:191-200 | the answer is structured exactly when the results are non-empty, and then carries them unchanged; otherwise it is the second call's text, or `"Sorry — I could not summarize the results."` when that call failed |
| Agent.AnswerText | client/client.py:156 | the apology text is `"I am sorry, something went wrong → "` followed by the error message, which can be read back from it; a plain-text answer is returned as it is |
| Agent.ExecuteCalls | client/client.py:134-159 | the primary loop sends the function-call parts in order; at the first failing output it stops with that output's `"error"` value, having sent exactly the calls up to and including it; otherwise it sent every call and the results map equals `StoreAll` of them |
| Agent.TranslateNames | client/client.py:178-188 | one `translate_text` invocation per name, in order, and a record per name, whatever each call returned |
| Agent.FirstFailure | client/client.py:155-156 | when it finds an index, that call's output carries `"error"` |
| Agent.FirstFailureIsFirst | client/client.py:152-156 | every call before the found index succeeds; no index is found exactly when every call succeeds |
| Agent.FirstFailureExtend | client/client.py:155-156 | calls after a failure do not change which call fails first |
| Agent.ToolCallsAppend | client/client.py:137-140 | the calls of two concatenated part lists are the calls of the first followed by those of the second |
| Agent.ToolCallsStep | client/client.py:137-146 | each part adds its own call (if it is a function call) at the end of the calls so far |
| Agent.StopsAt | client/client.py:152-156 | a failing call at part i, with none failing before, is the first failure of the whole response, at the position right after the earlier calls |
| Agent.StoreStep | client/client.py:159 | a further successful call keeps "no failure yet" and stores its output under its tool name |
| AgentProperties.CallPosition | client/client.py:137-152 | the call of a function-call part i sits in the call sequence at the position given by the number of calls before part i |
| AgentProperties.OtherPartSkipped | client/client.py:138-140 | a part that is not a function call adds no invocation |
| AgentProperties.CallsInPartOrder | client/client.py:137-152 | two function-call parts are executed in the order in which they appear |
| AgentProperties.ShortCircuit | client/client.py:155-156 | if call k is the first to fail, the answer is the apology carrying its `"error"` value, with the text `"I am sorry, something went wrong → " + error` for a string error; exactly the calls 0..k are sent, so no later call and no translation |
| AgentProperties.StoredIsLatest | client/client.py:159 | a tool name maps to the output of the last call with that name |
| AgentProperties.StoredComesFromCall | client/client.py:159 | every stored value is the output of some call with that tool name |
| AgentProperties.NoChaining | client/client.py:162 | without the trigger, no follow-up is sent, and when some call was made the answer is exactly the stored outputs, keyed by exactly the called tool names |
| AgentProperties.FollowUpsNeedTrigger | client/client.py:162 | any invocation beyond the primary calls implies no primary failure and the trigger (a `search_places` result and "translate" in the lower-cased query) |
| AgentProperties.SelectionCrashes | client/client.py:162-165 | with the trigger, when selecting the names raises (a `"results"` value that is not a list or empty string, or an unnamed place among the first three), the run ends `Crashed` having sent only the primary calls, no translation |
| AgentProperties.ChainedShape | client/client.py:162-188 | with the trigger and selected names, the answer is the stored outputs plus `"translations"`, and the sent invocations are the primary calls followed by the follow-ups |
| AgentProperties.ChainedRequests | client/client.py:178-182 | with the trigger, exactly one `translate_text` call per selected name (at most 3), in order, after the primary calls, each with `text` = that name and `target_lang` = the extracted language |
| AgentProperties.ChainedResults | client/client.py:183-188 | with the trigger, the results keep every stored output and add `"translations"`, a list as long as the names, whose i-th entry is `{original: name_i, translated: translated_text or "[error]"}` |
| AgentProperties.MissingResults | client/client.py:164-165 | a `search_places` output without `"results"` sends no follow-up but still records an empty `"translations"` list |
| AgentProperties.FallbackIffNoCalls | client/client.py:191-200 | with no primary failure, the plain-text path is taken exactly when no function call was proposed; it returns the second call's text, or `"Sorry — I could not summarize the results."` when that call fails, and sends nothing |
| Chaining.NamesOf | client/client.py:165 | succeeds exactly when every place is an object with a `"name"`, and then yields those names in order |
| Chaining.FirstThreeNames | client/client.py:164-165 | for a list of places, the selection succeeds exactly when each of the first min(3, n) places has a name, and then holds exactly those min(3, n) names, in order |
| Chaining.SelectNames | client/client.py:164-165 | at most three names; a payload that is not an object crashes; a missing `"results"` key selects no names; a string `"results"` selects no names when empty and crashes otherwise; any other value that is not a list crashes (the list case: `FirstThreeNames`) |
| Chaining.TranslateTokenFires | client/client.py:162 | the trigger `Fires` (a predicate with no contract of its own): with a stored `search_places` result, a "translate" token among the lower-cased query's tokens satisfies the substring test `"translate" in user_query.lower()` |
| Chaining.FollowUps | client/client.py:180-182 | one invocation per name, in order, each of `translate_text` with `text` = that name and `target_lang` = the language |
| Chaining.Entry | client/client.py:183-186 | a record with exactly the keys `original` (the name) and `translated` (the tool's `translated_text`, or `"[error]"` when it returned none) |
| Chaining.Translations | client/client.py:180-188 | one record per name; record i is built from the output of follow-up i alone |
| Chaining.TargetLanguage | client/client.py:168-176 | the target language is never empty |
| AgentProperties.LanguageAfterTo | client/client.py:168-173 | the token right after the first `"to"` of the lower-cased, whitespace-split query is the target language |
| AgentProperties.LanguageDefault | client/client.py:170-176 | with no `"to"`, or with the first `"to"` as last token, the target language is `"hindi"` |
| AgentProperties.LanguageExampleSpanish | client/client.py:168-176 | "translate these to spanish" targets "spanish" |
| AgentProperties.LanguageExampleNoMarker | client/client.py:168-176 | "translate these" (no "to") targets "hindi" |
| AgentProperties.LanguageExampleMarkerLast | client/client.py:168-176 | "translate to": `words.index("to")` finds the last token, nothing follows it, and the target is "hindi" |
| AgentProperties.SpanishWords | client/client.py:169 | "translate these to spanish" lower-cases and splits into its four tokens |
| AgentProperties.SpacedWords | client/client.py:169 | " translate these  to\tspanish " (doubled space, tab, whitespace at both ends) splits into the same four tokens |
| AgentProperties.LanguageExampleSpaced | client/client.py:168-173 | that spaced query targets `"spanish"`, as its single-spaced form does |
| AgentProperties.SingleCall | client/client.py:137-159 | a single successful call yields that call alone, no failure, and a results map holding only its output |
| AgentProperties.ScenarioWeather | client/client.py:137-193 | one successful `get_weather` call: the answer is `{"get_weather": body}` and that is the only call |
| AgentProperties.ScenarioWeatherFails | client/client.py:152-156 | `get_weather` answering `{"error": "Location not found"}` gives exactly "I am sorry, something went wrong → Location not found", and no other call |
| AgentProperties.PsuLower | client/client.py:162 | upper-case letters are lowered: "PSU" becomes "psu" |
| AgentProperties.PlacesQueryLower | client/client.py:162 | "find coffee shops near PSU and translate to hindi" lower-cases to "find coffee shops near psu and translate to hindi" |
| AgentProperties.PlacesQuery | client/client.py:162-176 | "find coffee shops near PSU and translate to hindi" splits into its nine lower-cased tokens, meets the query half of the trigger (so it fires once a `search_places` result is stored), and targets "hindi" |
| AgentProperties.ScenarioPlacesTranslated | client/client.py:162-188 | a translating query with a `search_places` result of three named places sends four calls, the last three being `translate_text` into "hindi" in place order, and answers with three translation records |
| Text.Lower | client/client.py:162 | `str.lower()` on ASCII: the same length, each upper-case letter replaced by its lower-case counterpart (`A`..`Z` to `a`..`z`), every other character kept |
| Text.LowerOfLower | client/client.py:162 | a string without upper-case letters is its own lower-case form |
| Text.LowerIdempotent | client/client.py:162 | lower-casing twice is lower-casing once |
| Text.LowerConcat | client/client.py:162 | lower-casing distributes over concatenation |
| Text.Words | client/client.py:169 | every token of `str.split()` is non-empty and holds no whitespace; `WordsOfJoin` and `SplitRuns` fix the tokens on every string |
| Text.WordStart | client/client.py:169 | the k-th token of `str.split()` occurs in the string at the position returned |
| Text.WordsOfUnwords | client/client.py:169 | splitting tokens joined by single spaces gives the tokens back |
| Text.WordsOfSpace | client/client.py:169 | leading whitespace, any run of any of Python's whitespace characters, does not change the split |
| Text.WordsOfJoin | client/client.py:169 | tokens separated by non-empty whitespace runs (any length, tabs included), with optional whitespace before the first and after the last, split back into exactly those tokens |
| Text.SplitRuns | client/client.py:169 | every string is its own split interleaved with whitespace runs that meet `WordsOfJoin`'s conditions, so the two together determine `str.split()` on every string |
| Text.WordsOccur | client/client.py:162-169 | the substring test `Contains` (Python's `in`, a predicate with no contract of its own) succeeds for every token of the split |
| Text.IndexOf | client/client.py:170-171 | `list.index`: the first position holding the token, and none exactly when the token is absent |

## Left out

- The Gemini SDK (`genai.configure`, `GenerativeModel`, both `generate_content` calls) is not modelled. The first response is the input `parts`, and the second call is the input `summary`. An exception from the first call, or a response without candidates, propagates out of `run_agent`; the model does not represent it.
- The HTTP transport (`requests.post`) and the tool implementations under `server/` are not modelled. They appear only as the `Server` function. A reply is modelled as a JSON object, because every tool route returns `jsonify` of a dict. A 200 reply whose body is a JSON list or scalar is not modelled.
- The byte-level JSON text of `json.dumps(all_results, indent=2)` is not modelled. The answer `Structured(results)` carries the map itself.
- AnswerText: gives the exact apology text only for a string `"error"` value. Python's `str()` rendering of a non-string error value is not modelled; the `Apology` answer still carries the value itself.
- JSON numbers are Dafny reals. The core never computes with them.
- `str.lower()` is modelled for the ASCII letters only. Unicode case mapping, which can change a string's length, is not.
- `.strip()` on the language token is omitted. `Text.Words` proves that a token holds no whitespace, so the strip would change nothing.
- `hasattr(part, "function_call")` on the SDK's part objects is not modelled. Which parts are function calls is decided at the SDK boundary: `Part` is an input already tagged `FunctionCall` or `Other`. If the SDK's part objects answered `hasattr` with true for every part, a text part would be posted as a call to the tool `""`. That call would fail, and the plain-text fallback would not be reached. `FallbackIffNoCalls` assumes the parts are tagged as the SDK intends.
- `print` logging, the command-line `input` loop, and the write to `run_agent.last_tool_output` are left out. Nothing ever reads that attribute.
- The static `TOOLS` schema is left out. It is data handed to the model and has no behaviour of its own.
- Repeatability (the same inputs give the same output) is not stated as a lemma. `Respond` is a function, so it holds by construction.
- `server/server.py` is not part of this model. It covers Flask routing, CORS, templates, and the `/ask` endpoint that turns an escaping exception into a 500 reply.
