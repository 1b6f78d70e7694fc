# Travel-assistant agents: tool registry and response interpreters

Two command-line travel assistants, `new-agent.js` and `city-agent.js`, answer questions
about Delhi, Mumbai and Bangalore. Both contain the same mock tool registry:
- six lookups (weather, forecast, food, places, destinations, best time to visit), each a
  closed table keyed by the lowercased city name with a `'default'` fallback;
- `executeTool`, which resolves a tool name against the six registered tools and turns
  every failure into `Error executing <name>`.

Each agent also has its own `processAIResponse`:

- **new-agent.js** uses a cascading interpreter. It first checks a gate on the
  substrings `"type"`, `"action"` and `"output"`. Then it runs a left-to-right scan for
  `{…}` candidates, using the non-greedy `/{[\s\S]*?}/g`. It parses each candidate and
  dispatches the action steps into an observation dictionary, where the last write wins.
  The answer is then chosen in this order:
  1. the explicit output;
  2. otherwise, a digest of the observations;
  3. otherwise, the fallbacks: an ordered keyword/regex table, a hard-coded "best time"
     check, a generic city extractor, and a fixed help message.
- **city-agent.js** uses a line interpreter. It splits the reply at `'\n'` and skips
  blank lines and lines that do not parse. Action steps run their tool only for the log.
  The answer is the last output step's text, or the reply itself when that text is empty.

The model is organised as follows:
- `Tools` holds the registry.
- `JsText` holds the string built-ins the interpreters use (`toLowerCase`, `includes`,
  `trim`, `split`, `join`).
- `Patterns` holds the regular expressions, written as hand-made matchers with the
  backtracking order of the originals.
- `Steps` and `Dispatch` hold the recovered JSON steps and the observation dictionary.
- `NewAgent` and `CityAgent` hold the two interpreters.
- `PrototypeLookup` holds the lookups as written, which also see `Object.prototype`.

Each loop of the source is a method that is proved equal to a declarative function, and
the properties are proved about those functions:
- the extraction loop, the dispatch loop and the digest loop;
- the keyword loop with its early return;
- the city agent's line loop with `continue`.

`JSON.parse` is a parameter `parse: string -> Option<Object>`, where `Object` maps member
names to string values. `None` stands for a text that throws or whose value is not an
object. For such values the two agents behave as if the text had not parsed:
- `null` throws at `json.type`, which the `catch` turns into a skip;
- a number, a string, a boolean or an array has no `type`, so neither branch of the
  dispatch is taken and nothing happens.

Both agents' tool sections (lines 11-98) are character-for-character identical, so one
`Tools` module models both.

`processAIResponse` in new-agent.js does not always return a string: its keyword stage
returns the tool's result unconverted, which is an array for the food, places and
destinations tools. `NewAgent.Answer` is therefore a `ToolResult`, and
`NewAgent.AnswerText` is the corrected string answer, which converts an array the way
`String(result)` does (see "## Findings").

The new-agent CLI passes the user's input to `processAIResponse`, not the model's reply
(new-agent.js:313-314). `NewAgent.Answer` is therefore a function of an arbitrary string.

## Model

| member | source | states |
|---|---|---|
| Tools.Render | new-agent.js:154 | a text result is shown as it is; an array is joined with a bare `,` as `${…}` does; a non-empty result gives a non-empty text; splitting that text at `,` gives the items back when no item holds a comma |
| Tools.ToolByName | new-agent.js:80-89 | a name resolves only to the registered tool that carries that very name |
| Tools.ToolByNameRoundTrip | new-agent.js:80-87 | each of the six tools is found under its own registry key |
| Tools.RegisteredNames | city-agent.js:80-91 | exactly the six registered names resolve; every other name is unknown to the registry |
| Tools.CityOfNamesCities | new-agent.js:13-18 | exactly the keys `delhi`, `mumbai` and `bangalore` name a city; `'default'` and every other key name none |
| Tools.Key | new-agent.js:57-61 | each city is listed under a lowercase key that names it, so `toLowerCase` leaves that key as it is |
| Tools.ForecastEntry | new-agent.js:13-18 | every forecast entry, including the default, is a non-empty string |
| Tools.DestinationEntry | new-agent.js:24-29 | every destinations entry is a non-empty array of non-empty strings |
| Tools.BestTimeEntry | new-agent.js:35-40 | every best-time entry is a non-empty string |
| Tools.WeatherEntry | new-agent.js:46-51 | every weather entry is a non-empty string |
| Tools.FoodEntry | new-agent.js:57-62 | every food entry is a non-empty array of non-empty strings |
| Tools.PlaceEntry | new-agent.js:68-73 | every places entry is a non-empty array of non-empty strings |
| Tools.Lookup | new-agent.js:19 | the city is lowercased; delhi, mumbai and bangalore get their own entry; every other string gets the `'default'` entry, and no input fails |
| Tools.LookupIgnoresCase | city-agent.js:63 | a city and its lowercase form find the same entry |
| Tools.LookupTableOf | new-agent.js:63 | looking a city up is taking the entry of the city its lowercase form names, or the default entry when it names none |
| Tools.Apply | new-agent.js:94 | the weather, forecast and best-time tools answer a string; the food, places and destinations tools answer an array |
| Tools.WeatherForecastLooksUp | new-agent.js:11-20 | `getWeatherForecast` is the lookup in the forecasts table |
| Tools.FamousDestinationsLooksUp | new-agent.js:22-31 | `getFamousDestinations` is the lookup in the destinations table |
| Tools.BestTimeToVisitLooksUp | new-agent.js:33-42 | `getBestTimeToVisit` is the lookup in the best-times table |
| Tools.WeatherDetailsLooksUp | new-agent.js:44-53 | `getWeatherDetails` is the lookup in the weather table |
| Tools.FamousFoodLooksUp | new-agent.js:55-64 | `getFamousFood` is the lookup in the food table |
| Tools.FamousPlacesLooksUp | new-agent.js:66-75 | `getFamousPlaces` is the lookup in the places table |
| Tools.ApplyNonEmpty | city-agent.js:11-75 | every lookup answers something non-empty for every city |
| Tools.ExecuteTool | new-agent.js:78-98 | a registered name with an input gives that tool applied to the input; an unknown name, or a missing input (the lookup's `toLowerCase` throws), gives exactly `Error executing <name>` |
| Tools.ExecuteToolNonEmpty | city-agent.js:78-98 | `executeTool` never answers an empty string or an empty array |
| JsText.Lower | new-agent.js:192 | same length, and each character is its lowercase form |
| JsText.LowerIdempotent | new-agent.js:222 | lowercasing an already lowercased capture changes nothing |
| JsText.IndexFrom | new-agent.js:111 | the first occurrence at or after a position, or none at all |
| JsText.ContainsIff | new-agent.js:195 | `includes` holds exactly when the key occurs at some position |
| JsText.ContainsInConcat | new-agent.js:212 | a text built around a key includes the key |
| JsText.TrimStart | city-agent.js:108 | removes exactly the leading run of white space |
| JsText.TrimEnd | city-agent.js:108 | removes exactly the trailing run of white space |
| JsText.TrimEmptyIff | city-agent.js:108 | `!line.trim()` holds exactly for lines made only of white space |
| JsText.Split | city-agent.js:104 | a split always has at least one piece |
| JsText.SplitPiecesFree | city-agent.js:104 | no piece contains the separator |
| JsText.JoinSplit | city-agent.js:104 | joining the pieces with the separator gives the reply back |
| JsText.SplitJoin | city-agent.js:104 | splitting a join of separator-free lines gives the lines back |
| JsText.Capitalize | new-agent.js:228 | same length and the same tail; a lowercase first letter is made upper case; a text that does not start with a lowercase letter (such as `2024` or `_x`) is left as it is |
| Patterns.SpacesFrom | new-agent.js:167 | the maximal run of `\s` characters at a position |
| Patterns.SpacesFromAreSpaces | new-agent.js:167 | every character of that run is a `\s` character |
| Patterns.WordEnd | new-agent.js:167 | the end of the maximal run of `\w` characters at a position |
| Patterns.WordEndAreWordChars | new-agent.js:167 | every character before that end is a `\w` character |
| Patterns.WordEndOfRun | new-agent.js:167 | a run of `\w` characters that stops at a non-word character ends there |
| Patterns.WordAt | new-agent.js:167 | `(\w+)` at a position: the maximal word run, present exactly when a word character stands there |
| Patterns.SpaceWord | new-agent.js:221 | `\s+(\w+)` matches exactly when at least one space is followed by a word run, which is captured |
| Patterns.SpacedLit | new-agent.js:171 | `\s+LIT` matches exactly when a run of at least one space is followed by the literal, and then ends right after the literal |
| Patterns.OptionalThenWord | new-agent.js:171 | `(?:\s+LIT)?\s+(\w+)`: the group is taken whenever a word follows it, and the word after it is captured; otherwise the word right after the spaces is captured, `LIT` included; the group never decides whether the regex matches |
| Patterns.SpacesOptionalInWord | new-agent.js:179 | `\s+(?:in\s+)?(\w+)` matches exactly when `\s+(\w+)` does; `in` and its spaces are skipped whenever a word follows them, and captured otherwise |
| Patterns.SpacesOptionalInIsOptionalIn | new-agent.js:179 | `\s+(?:in\s+)?(\w+)` and `(?:\s+in)?\s+(\w+)` capture the same word at every position |
| Patterns.AlternativeNone | new-agent.js:183 | the alternation fails exactly when no alternative starts at the position |
| Patterns.AlternativeFirst | new-agent.js:183 | a match is the length of an alternative that starts there, and no earlier alternative starts there |
| Patterns.AlternativePicks | new-agent.js:221 | the first alternative, in the regex's order, that starts at the position is the one taken |
| Patterns.BestTimeToVisitAt | new-agent.js:167 | `best time to visit\s+(\w+)` matches exactly when the phrase is followed by spaces and a word, and captures that word run |
| Patterns.WeatherInAt | new-agent.js:171 | `weather(?:\s+in)?\s+(\w+)` matches exactly when `weather` is followed by spaces and a word; `in` is skipped when a word follows it, and captured otherwise |
| Patterns.ForecastAt | new-agent.js:175 | it matches exactly when `weather\s+forecast` or `forecast` alone is followed by spaces and a word |
| Patterns.ToVisitNeedsSpaceWord | new-agent.js:179 | the optional `\s+to\s+visit` group can only be taken where `\s+(\w+)` would also match |
| Patterns.PlacesTail | new-agent.js:179 | the tail of the places regex matches exactly when spaces and a word follow |
| Patterns.PlacesAt | new-agent.js:179 | the places regex matches exactly when one of `places`, `attractions`, `sights` opens it and spaces and a word follow |
| Patterns.FoodAt | new-agent.js:183 | the food regex matches exactly when `food`, `cuisine` or `dishes` is followed by spaces and a word; `in` is skipped when a word follows it, and captured otherwise |
| Patterns.DestinationsAt | new-agent.js:187 | after `destinations` it matches exactly when spaces and a word follow, skipping `in` when a word follows it and capturing it otherwise; elsewhere it matches exactly when `tourist\s+spots` is followed by spaces and a word |
| Patterns.CityAt | new-agent.js:221 | the city regex matches exactly when the first of `about`, `in`, `for`, `visit` that starts there is followed by spaces and a word, and it captures that whole word run |
| Patterns.CityStartsWithKeyLetter | new-agent.js:221 | a city match starts with `a`, `i`, `f` or `v` |
| Patterns.MatchAt | new-agent.js:167-187 | each of the seven regexes, when it matches at a position, captures a non-empty run of `\w` characters |
| Patterns.Search | new-agent.js:196 | the leftmost position at which the regex matches, and no match before it; none when no position matches |
| Patterns.Exec | new-agent.js:221 | group 1 of the leftmost match is a non-empty word, and there is none exactly when no position matches |
| Patterns.ExecLeftmost | new-agent.js:221 | the leftmost match decides the capture, whatever later positions would capture |
| Patterns.NextCandidate | new-agent.js:113-117 | the next `/{[\s\S]*?}/` match runs from the first `{` at or after `lastIndex` to the first `}` after it; it fails exactly when no `{` is followed by a `}` |
| Patterns.OneSpaceThenWord | new-agent.js:167 | one space then a complete word: `\s+(\w+)` captures that word |
| Patterns.SpacedLitAt | new-agent.js:171 | one space then the literal: `\s+LIT` ends right after the literal |
| Patterns.SpacedLitAbsent | new-agent.js:171 | one space then a word that does not begin with the literal: `\s+LIT` fails |
| Patterns.GroupTaken | new-agent.js:171 | the optional group is taken when a word follows it |
| Patterns.GroupSkipped | new-agent.js:171 | the optional group is skipped when it fails or no word follows it |
| Patterns.WeatherInThen | new-agent.js:171 | the weather regex captures what its optional `in` tail captures after `weather` |
| Patterns.ForecastThen | new-agent.js:175 | without `weather` in front, the forecast regex captures what its `for` tail captures after `forecast` |
| Patterns.WeatherForecastThen | new-agent.js:175 | with `weather\s+forecast` in front, the optional prefix is taken when the tail after it matches |
| Patterns.ToVisitThen | new-agent.js:179 | after `\s+to\s+visit`, the `in` tail decides the capture |
| Patterns.ToWithoutVisit | new-agent.js:179 | `\s+to` without `\s+visit` after it: the optional group fails |
| Patterns.ToVisitTaken | new-agent.js:179 | the places regex takes its optional group whenever what follows the group matches |
| Patterns.ToVisitSkipped | new-agent.js:179 | otherwise the places regex skips the group |
| Patterns.PlacesThen | new-agent.js:179 | whichever of `places`, `attractions`, `sights` opens the places regex, the tail after that word decides the capture |
| Patterns.FoodThen | new-agent.js:183 | the food regex captures what its optional `in` tail captures after the opening word |
| Patterns.TouristSpotsThen | new-agent.js:187 | `tourist\s+spots` ends where `\s+spots` does |
| Patterns.DestinationsThen | new-agent.js:187 | `tourist\s+spots` opens the destinations regex when `destinations` does not |
| Patterns.CityThen | new-agent.js:221 | the city regex captures the word after the first keyword that starts there |
| Patterns.NoCityAt | new-agent.js:221 | no city match starts at a letter other than `a`, `i`, `f`, `v` |
| Patterns.BestTimeToVisitExample | new-agent.js:167 | `best time to visit delhi` captures `delhi` |
| Patterns.WeatherInExample | new-agent.js:171 | `weather in delhi` captures `delhi`, not `in` |
| Patterns.WeatherWithoutIn | new-agent.js:171 | `weather delhi` captures `delhi` |
| Patterns.WeatherInCapturesIn | new-agent.js:171 | `weather in` with nothing after it captures `in` |
| Patterns.ForecastExample | new-agent.js:175 | `weather forecast for delhi` captures `delhi` |
| Patterns.ForecastWithoutWeather | new-agent.js:175 | `forecast mumbai` captures `mumbai` |
| Patterns.ForecastWithoutCity | new-agent.js:175 | `weather forecast` with no word after it does not match |
| Patterns.PlacesExample | new-agent.js:179 | `places to visit in mumbai` captures `mumbai` |
| Patterns.PlacesCapturesTo | new-agent.js:179 | `places to see` captures `to` |
| Patterns.SightsExample | new-agent.js:179 | `sights in delhi` captures `delhi` |
| Patterns.FoodExample | new-agent.js:183 | `food in delhi` captures `delhi` |
| Patterns.CuisineCapturesOf | new-agent.js:183 | `cuisine of delhi` captures `of` |
| Patterns.TouristSpotsExample | new-agent.js:187 | `tourist spots` ends after `spots` in `tourist spots in goa` |
| Patterns.DestinationsExample | new-agent.js:187 | `tourist spots in goa` captures `goa` |
| Patterns.CityExample | new-agent.js:221 | `about delhi` captures `delhi` |
| Patterns.CityNeedsSpace | new-agent.js:221 | `information` does not match at its start: `in` must be followed by spaces |
| Patterns.TellMeAboutDelhi | new-agent.js:221 | in `tell me about delhi food` the leftmost match is at `about`, and it captures `delhi` |
| Steps.Parsed | new-agent.js:117-124 | the texts that parse, in order; there are never more objects than texts |
| Steps.ParsedCount | new-agent.js:117-124 | every text gives an object exactly when every text parses, and none does when none parses |
| Steps.ParsedAppend | new-agent.js:117-124 | parsing a concatenation of candidate lists parses each part |
| Steps.ParsedSnoc | city-agent.js:110-121 | one more text adds its object if it parses, and nothing otherwise |
| Steps.SkipUnparsed | new-agent.js:121-123 | a candidate that fails to parse is dropped without affecting the others |
| Steps.LastOutputIsLast | new-agent.js:145-147 | the last output step's text is the one kept |
| Steps.LastOutputNone | new-agent.js:132 | with no output step nothing is kept |
| Steps.LastOutputIgnores | city-agent.js:113-117 | a step that is not an output step, wherever it stands, does not change the kept output |
| Dispatch.RecordedNames | new-agent.js:141 | there are no names to record exactly when no recorded action step occurs |
| Dispatch.Dedup | new-agent.js:141 | the dictionary's keys: each written name |
| Dispatch.DedupDistinct | new-agent.js:141 | no key is listed twice |
| Dispatch.Observations | new-agent.js:135-144 | the dictionary holds exactly the names the recorded action steps wrote under |
| Dispatch.DedupFirstSeenOrder | new-agent.js:141-144 | keys are listed in the order of their first writes, so a rewrite keeps the key's position |
| Dispatch.LastWriteWins | new-agent.js:141-144 | the record under a name is that of the last action step with that name |
| Dispatch.RecordCount | new-agent.js:151 | there are as many records as distinct action names |
| Dispatch.DispatchStep | new-agent.js:134-148 | one more step changes the key order, the dictionary and the kept output exactly as one turn of the loop does |
| NewAgent.SpansFrom | new-agent.js:113-117 | the `exec` matches are candidate spans, in left-to-right order, without overlap |
| NewAgent.SpansCoverEveryOpenBrace | new-agent.js:113-117 | no candidate is missed: every `{` with a `}` after it lies inside some match |
| NewAgent.Texts | new-agent.js:119 | `match[0]` for every span |
| NewAgent.SpanText | new-agent.js:114 | the text of a span opens with `{`, closes with `}` and holds no other `}` |
| NewAgent.CandidatesShape | new-agent.js:114 | every candidate starts with `{`, ends with `}` and has no other `}` |
| NewAgent.ExtractStep | new-agent.js:117-119 | one turn of the `exec` loop moves the next candidate into the ones seen |
| NewAgent.ExtractDone | new-agent.js:117 | when `exec` fails, every candidate has been seen |
| NewAgent.ExtractObjects | new-agent.js:113-125 | the `while (exec)` loop yields exactly the parsed candidates, in text order |
| NewAgent.NothingParsesNothingExtracted | new-agent.js:117-124 | when no candidate parses, no object is extracted |
| NewAgent.Accumulate | new-agent.js:131-148 | the dispatch loop leaves the dictionary, its key order and `finalOutput` as the declarative definitions say |
| NewAgent.DispatchOne | new-agent.js:135-148 | one turn of the dispatch loop takes the state after the steps seen to the state after one more |
| NewAgent.RecordAction | new-agent.js:140-144 | an action writes its record under its name, and the name enters the key order at its first write; `__proto__` writes nothing |
| NewAgent.BuildDigest | new-agent.js:151-156 | the `+=` loop builds the lead-in followed by each result and a blank line, in key order |
| NewAgent.DigestBodyStep | new-agent.js:153-154 | one more name adds its rendered result and a blank line at the end |
| NewAgent.DigestOfOne | new-agent.js:152-154 | one observation's digest is the lead-in, its rendered result and a blank line |
| NewAgent.Compose | new-agent.js:150-160 | the stage answers only with a non-empty text |
| NewAgent.ComposeObjects | new-agent.js:131-160 | the dispatch loop, then the explicit output, else the digest when some tool was recorded, else nothing |
| NewAgent.Structured | new-agent.js:111 | the embedded-JSON stage answers only when the gate is open, and only with a non-empty text |
| NewAgent.StructuredNoneIff | new-agent.js:111-161 | the stage falls through exactly when the gate is shut, or when no output step leaves a non-empty text and no action step is recorded |
| NewAgent.NoQuoteNoGate | new-agent.js:111 | a text without a double quote never opens the gate |
| NewAgent.Fires | new-agent.js:195-198 | an entry fires exactly when its key occurs and its regex captures, and the city it fires with is group 1 of that regex, a word |
| NewAgent.KeywordFrom | new-agent.js:194-209 | the keyword stage answers nothing exactly when no entry fires, and otherwise something non-empty |
| NewAgent.MatchKeywords | new-agent.js:194-209 | the keyword loop with its early return answers the first entry that fires |
| NewAgent.SilentEntriesSkipped | new-agent.js:194-209 | entries that do not fire are passed over |
| NewAgent.EntrySkipped | new-agent.js:195-197 | an entry that does not fire hands over to the next |
| NewAgent.FirstFiringEntryWins | new-agent.js:164-209 | table order decides: the first entry that fires wins, however early another phrase stands in the text, and its tool gets that entry's capture |
| NewAgent.Emergency | new-agent.js:212-218 | it answers exactly when "best time" and one of the cities occur; Mumbai goes before Delhi, and Delhi before Bangalore; the answer is that city's best time |
| NewAgent.Extractor | new-agent.js:221-236 | it answers exactly when `(?:about\|in\|for\|visit)\s+(\w+)` matches; with the lowercased capture, "weather" gives the weather entry, else "food" gives `Famous foods in <Capitalised>: a, b`, else "place" the same for places, else the best time |
| NewAgent.Fallback | new-agent.js:192-238 | the stages after the embedded-JSON one always answer something non-empty |
| NewAgent.Answer | new-agent.js:102-243 | every reply gets a non-empty answer: a non-empty string, or from the keyword stage a non-empty array |
| NewAgent.AnswerText | new-agent.js:202-206 | the corrected string answer, converting an array as `String(result)` does: never empty, a text answer unchanged, and an array's items recoverable by splitting at `,` |
| NewAgent.StructuredStage | new-agent.js:111-161 | the embedded-JSON stage answers the explicit output, else the digest, else nothing |
| NewAgent.FallbackStages | new-agent.js:192-238 | keyword table, then emergency check, then extractor, then help message |
| NewAgent.ProcessAIResponse | new-agent.js:102-243 | the cascade returns what `Answer` defines |
| NewAgent.ExplicitOutputWins | new-agent.js:145-160 | a non-empty last output step is returned verbatim |
| NewAgent.DigestWhenNoOutput | new-agent.js:150-160 | when the last output text is empty or missing and some action is recorded, the answer is the digest, one paragraph per distinct name in first-write order |
| NewAgent.LastWriterAfter | new-agent.js:141 | the last action step writing under a given name |
| NewAgent.NoJsonMeansFallback | new-agent.js:111-163 | when no JSON parses, the parser plays no part and control falls through to the fallbacks |
| NewAgent.KeywordAnswer | new-agent.js:194-209 | with the gate shut, a firing keyword entry decides the answer |
| NewAgent.UnrecognisedGetsHelp | new-agent.js:238 | when no stage recognises anything, the answer is the fixed help message |
| NewAgentExamples.DelhiFoodListing | new-agent.js:228 | Delhi's foods joined by `, ` |
| NewAgentExamples.DelhiFoodArrayText | new-agent.js:154 | Delhi's foods joined by a bare comma, as `String` (or a template literal) converts an array |
| NewAgentExamples.TellMeAboutDelhiFood | new-agent.js:221-228 | the extractor answers `Famous foods in Delhi: Butter Chicken, Chole Bhature, Parantha, Chaat` |
| NewAgentExamples.WeatherBeatsFood | new-agent.js:224-226 | "weather" is tested before "food" wherever the two stand: `in delhi food weather` gets Delhi's weather |
| NewAgentExamples.FoodKeyword | new-agent.js:202-206 | when the food entry is the first to fire, the keyword stage answers the array of the city's foods |
| NewAgentExamples.KeywordAnswerIsList | new-agent.js:202-206 | as written, `food in delhi` is answered with the array of Delhi's foods, not a string |
| NewAgentExamples.KeywordAnswerAsText | new-agent.js:202-206 | converted to a string, that answer is the foods joined by a bare comma |
| CityAgent.NonBlankIsTrimmedNonEmpty | city-agent.js:108 | `!line.trim()` is false exactly for lines holding a non-space character |
| CityAgent.NonBlankLines | city-agent.js:107-108 | the lines the loop does not skip: every one holds a non-space character |
| CityAgent.NonBlankLinesAppend | city-agent.js:107-108 | skipping distributes over concatenation |
| CityAgent.NonBlankLinesThree | city-agent.js:107-108 | skipping over three runs of lines skips in each run |
| CityAgent.ActionCalls | city-agent.js:113-115 | at most one tool call per step, and none exactly when there is no action step |
| CityAgent.ParsedStep | city-agent.js:108-121 | one more line adds its object when it is not blank and parses, and nothing otherwise |
| CityAgent.OutputStep | city-agent.js:113-118 | one more line replaces `output` exactly when it is an output step |
| CityAgent.LineStep | city-agent.js:107-122 | one turn of the loop: only an output line changes `output`, and only an action line calls a tool |
| CityAgent.DispatchLines | city-agent.js:107-122 | the loop keeps the last output text, and calls the tools in line order |
| CityAgent.ProcessAIResponse | city-agent.js:102-130 | the answer is `output \|\| response` |
| CityAgent.AnswerEmptyIff | city-agent.js:125 | the answer is empty exactly when the reply is |
| CityAgent.NoOutputLineKeepsNothing | city-agent.js:105-123 | lines none of which is an output step leave `output` empty |
| CityAgent.EchoWithoutOutput | city-agent.js:125 | a reply without an output step, whatever actions it runs, is echoed back |
| CityAgent.ParsedThree | city-agent.js:110-122 | the objects of three runs of lines are those of each run |
| CityAgent.InsertedLine | city-agent.js:110-122 | a line that is not an output step can be dropped without changing what is kept |
| CityAgent.NonOutputLineIrrelevant | city-agent.js:104-125 | a blank line, a non-JSON line or an action line, inserted anywhere in the reply, leaves the kept output unchanged |
| CityAgent.TwoLines | city-agent.js:104 | two lines joined by a line break split back into the two |
| CityAgent.ActionThenOutput | city-agent.js:113-125 | an action line followed by an output line answers the output's text |
| PrototypeLookup.Inherited | new-agent.js:19 | exactly the twelve `Object.prototype` member names are found on an object literal without an own key |
| PrototypeLookup.LookupAsWritten | new-agent.js:63 | `table[city.toLowerCase()] \|\| table.default` as written: an own truthy entry, else an inherited member when the name is inherited, else the default entry |
| PrototypeLookup.InheritedCityLeaks | new-agent.js:63 | as written, a lowercase inherited name used as a city yields the inherited member, not the default entry |
| PrototypeLookup.ConstructorCityLeaks | new-agent.js:63 | as written, the food table answers the `Object` function for the city "constructor" |
| PrototypeLookup.FoodListingAsWritten | new-agent.js:226-228 | as written, the food listing is the trouble message for an inherited city name, and the usual listing otherwise |
| PrototypeLookup.ConstructorFoodThrows | new-agent.js:226-228 | as written, the food listing for "constructor" throws at `join` and ends in the trouble message |
| PrototypeLookup.InheritedCityGetsDefault | new-agent.js:63 | in the closed table, every inherited name gets the default entry |
| PrototypeLookup.LookupAgreesOffPrototype | new-agent.js:19-74 | away from the inherited names, the as-written lookup and the closed one agree |
| PrototypeLookup.ExecuteToolAsWritten | new-agent.js:89-97 | as written, away from the inherited names it is the closed registry; an inherited member other than `toString`, `isPrototypeOf` and `constructor` throws and gives `Error executing <name>` |
| PrototypeLookup.InheritedNotRegistered | new-agent.js:80-87 | no inherited name is a registered tool |
| PrototypeLookup.InheritedToolsRun | new-agent.js:89-94 | as written, `toString`, `isPrototypeOf` and `constructor` run as tools instead of failing |
| PrototypeLookup.ClosedRegistryRejectsInherited | new-agent.js:89-97 | in the closed registry, every inherited name gives `Error executing <name>` |

## Left out

- JsText.Lower: only ASCII letters are lowercased. `toLowerCase` also maps non-ASCII
  letters, and can change the length for a few of them.
- NewAgent.Accumulate: the key order is plain first-insertion order. `Object.values` lists
  keys that are canonical array indices, such as `"0"` or `"42"`, first, in ascending
  numeric order. The model does not capture that.
- NewAgent.ProcessAIResponse: the `catch` branch ("I'm having trouble processing that
  request right now.") cannot be reached over the closed tables. It is reached only
  through the prototype leak, which `PrototypeLookup.ConstructorFoodThrows` shows.
- Patterns.MatchAt: its own contract says only that a capture is a non-empty word run.
  Which word each regex captures is stated on the matchers it dispatches to and on
  their composition lemmas (`WeatherInThen`, `ForecastThen`, `ToVisitThen`, …).
- Patterns.ForecastAt, Patterns.PlacesAt: their contracts fix when they match, not what
  they capture. The capture is stated by the lemmas `ForecastThen` (a `forecast` opening)
  and `WeatherForecastThen` (a `weather\s+forecast` opening), and by `PlacesThen` (any of
  the three opening words) with `ToVisitTaken` and `ToVisitSkipped`.
- Patterns.DestinationsAt: its contract gives the capture after `destinations`. After
  `tourist\s+spots` it gives only when the regex matches; the capture there is stated by
  `DestinationsThen`.
- CityAgent.ProcessAIResponse: the outer `catch` (return the reply) cannot be reached,
  because splitting a string does not throw.
- JSON: `JSON.parse` is an abstract parameter. Members whose value is not a string, such
  as numbers, nested objects or an array `input`, are not modelled. A missing `function`
  member is the name "undefined". A missing `output` counts as the empty string, since
  both are falsy.
- Tool results: `PrototypeLookup.ExecuteToolAsWritten` uses the closed lookups for the six
  registered tools. The city-lookup leak is modelled separately, in `LookupAsWritten`.
- Logging: `console.log` and `console.error` are omitted. The dead `debug` branches are
  omitted. The city agent's per-action log is kept only as the list of tool calls that
  `CityAgent.DispatchLines` returns.
- `async`/`await`: every tool is a synchronous table lookup.
- I/O: the Gemini HTTP call (`askGemini`), `dotenv` and the `readline` chat loops are not
  part of this model. The same goes for deploy_res.js (an Express server with AWS SDK
  calls), aiagent.js and main.js (HTTP and CLI only).
- The iterative plan/action/observation loop described in the system prompts is not
  modelled, because the code makes a single pass.

## Findings

| source | as written | input that shows it | evidently intended | confidence | as-written member | corrected member |
|---|---|---|---|---|---|---|
| new-agent.js:63 (same pattern at lines 19, 30, 41, 52 and 74, and in city-agent.js) | `food[city.toLowerCase()] \|\| food.default` also finds members inherited from `Object.prototype` | "tell me about constructor food": the extractor captures `constructor`, `getFamousFood` returns the `Object` function, `foods.join` throws, and the answer is "I'm having trouble processing that request right now." | an unknown city gets the `'default'` entry ("No specific food information found for this city") | high; not executed | PrototypeLookup.ConstructorFoodThrows | PrototypeLookup.InheritedCityGetsDefault |
| new-agent.js:202-206 | the keyword stage returns the tool's result unconverted, so the food, places and destinations tools make `processAIResponse` return an array | "food in delhi" returns the array `['Butter Chicken', 'Chole Bhature', 'Parantha', 'Chaat']`, where every other path returns a string | a string answer, as every other stage returns; for an array, the conversion `String(result)` makes | medium; not executed | NewAgentExamples.KeywordAnswerIsList | NewAgent.AnswerText |
| new-agent.js:89-90 (same in city-agent.js) | `availableTools[action.function]` with `if (!tool)` accepts inherited members | `{"type":"action","function":"toString","input":"delhi"}`: `Object.prototype.toString` runs with `this` undefined, and `"[object Undefined]"` is recorded and digested as a tool result | an unregistered name gives `Error executing toString` | high; not executed | PrototypeLookup.InheritedToolsRun | PrototypeLookup.ClosedRegistryRejectsInherited |
