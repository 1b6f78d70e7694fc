/** The cascading response interpreter of the travel assistant (`processAIResponse` in
    new-agent.js). It turns semi-structured text into one answer, trying in order:
    the JSON steps embedded in the text (an explicit output, else a digest of the tool
    observations), an ordered keyword table, a hard-coded "best time" check, a generic
    city extractor, and a fixed help message. */
module NewAgent {

  import opened Options
  import opened JsText
  import opened Tools
  import opened Patterns
  import opened Steps
  import opened Dispatch

  const Lead := "Here's what I found:\n\n"

  const HelpMessage :=
    "I'm sorry, I couldn't understand " + "your request. You can ask about "
    + "weather, food, places to visit, or " + "the best time to visit cities like "
    + "Mumbai, Delhi, or Bangalore."

  // ---------------------------------------------------------------- embedded JSON

  /** The text is only searched for JSON when it mentions `"type"` and `"action"` or `"output"`. */
  predicate JsonGate(t: string) {
    Contains(t, "\"type\"") && (Contains(t, "\"action\"") || Contains(t, "\"output\""))
  }

  /** A candidate match of `/{[\s\S]*?}/`: from a `{` to the first `}` after it. */
  ghost predicate IsCandidateSpan(t: string, span: (nat, nat)) {
    span.0 < span.1 <= |t| && t[span.0] == '{' && t[span.1 - 1] == '}'
    && forall j :: span.0 < j < span.1 - 1 ==> t[j] != '}'
  }

  /** The spans the `exec` loop visits from `lastIndex == from` on: each a candidate,
      all after `from`, in order and without overlap. */
  function SpansFrom(t: string, from: nat): (spans: seq<(nat, nat)>)
    requires from <= |t|
    ensures forall k :: 0 <= k < |spans| ==> IsCandidateSpan(t, spans[k]) && from <= spans[k].0
    ensures forall k :: 0 <= k < |spans| - 1 ==> spans[k].1 <= spans[k + 1].0
    decreases |t| - from
  {
    match NextCandidate(t, from)
    case None => []
    case Some(span) => [span] + SpansFrom(t, span.1)
  }

  /** No candidate is missed: every `{` that has a `}` somewhere after it lies inside one
      of the spans. */
  lemma {:induction false} SpansCoverEveryOpenBrace(t: string, from: nat, i: nat, j: nat)
    requires from <= i < j < |t| && t[i] == '{' && t[j] == '}'
    ensures exists k :: 0 <= k < |SpansFrom(t, from)| && SpansFrom(t, from)[k].0 <= i < SpansFrom(t, from)[k].1
    decreases |t| - from
  {
    var spans := SpansFrom(t, from);
    var next := NextCandidate(t, from);
    assert next.Some?;
    var span := next.value;
    assert spans[0] == span;
    if i >= span.1 {
      SpansCoverEveryOpenBrace(t, span.1, i, j);
      var rest := SpansFrom(t, span.1);
      var k :| 0 <= k < |rest| && rest[k].0 <= i < rest[k].1;
      assert spans[k + 1] == rest[k];
    }
  }

  /** The texts of a sequence of spans. */
  function Texts(t: string, spans: seq<(nat, nat)>): (texts: seq<string>)
    requires forall k :: 0 <= k < |spans| ==> spans[k].0 <= spans[k].1 <= |t|
    ensures |texts| == |spans|
    ensures forall k :: 0 <= k < |spans| ==> texts[k] == t[spans[k].0..spans[k].1]
  {
    if spans == [] then [] else [t[spans[0].0..spans[0].1]] + Texts(t, spans[1..])
  }

  /** The candidate texts the `exec` loop hands to `JSON.parse`. */
  function Candidates(t: string): seq<string> {
    Texts(t, SpansFrom(t, 0))
  }

  /** Each candidate runs from a `{` to the first `}` after it. */
  lemma CandidatesShape(t: string)
    ensures forall k :: 0 <= k < |Candidates(t)| ==>
              var c := Candidates(t)[k]; |c| >= 2 && c[0] == '{' && c[|c| - 1] == '}' && '}' !in c[..|c| - 1]
  {
    var spans := SpansFrom(t, 0);
    var cs := Candidates(t);
    forall k | 0 <= k < |cs|
      ensures var c := cs[k]; |c| >= 2 && c[0] == '{' && c[|c| - 1] == '}' && '}' !in c[..|c| - 1]
    {
      assert cs[k] == t[spans[k].0..spans[k].1];
      SpanText(t, spans[k]);
    }
  }

  /** The text of a candidate span opens with `{`, closes with `}` and holds no other `}`. */
  lemma SpanText(t: string, span: (nat, nat))
    requires IsCandidateSpan(t, span)
    ensures var c := t[span.0..span.1]; |c| >= 2 && c[0] == '{' && c[|c| - 1] == '}' && '}' !in c[..|c| - 1]
  {
    var c := t[span.0..span.1];
    forall j | 0 <= j < |c| - 1 ensures c[j] != '}' {
      assert c[j] == t[span.0 + j];
    }
  }

  /** One turn of the `exec` loop: the next candidate's text joins the ones seen. */
  lemma ExtractStep(t: string, seen: seq<string>, from: nat)
    requires from <= |t| && NextCandidate(t, from).Some?
    requires seen + Texts(t, SpansFrom(t, from)) == Candidates(t)
    ensures var span := NextCandidate(t, from).value;
            (seen + [t[span.0..span.1]]) + Texts(t, SpansFrom(t, span.1)) == Candidates(t)
  {
    var span := NextCandidate(t, from).value;
    var x := t[span.0..span.1];
    assert SpansFrom(t, from) == [span] + SpansFrom(t, span.1);
    assert Texts(t, SpansFrom(t, from)) == [x] + Texts(t, SpansFrom(t, span.1));
  }

  /** When the `exec` loop stops, every candidate has been seen. */
  lemma ExtractDone(t: string, seen: seq<string>, from: nat)
    requires from <= |t| && NextCandidate(t, from).None?
    requires seen + Texts(t, SpansFrom(t, from)) == Candidates(t)
    ensures seen == Candidates(t)
  {
    assert Texts(t, SpansFrom(t, from)) == [];
  }

  /** The `while ((match = jsonPattern.exec(response)) !== null)` loop: every candidate
      is parsed, the ones that fail are skipped, and the objects are kept in text order. */
  method ExtractObjects(parse: Parser, response: string) returns (jsonObjects: seq<Object>)
    ensures jsonObjects == Parsed(parse, Candidates(response))
  {
    jsonObjects := [];
    var lastIndex := 0;
    ghost var seen: seq<string> := [];
    while true
      invariant lastIndex <= |response|
      invariant seen + Texts(response, SpansFrom(response, lastIndex)) == Candidates(response)
      invariant jsonObjects == Parsed(parse, seen)
      decreases |response| - lastIndex
    {
      var m := NextCandidate(response, lastIndex);
      if m.None? {
        ExtractDone(response, seen, lastIndex);
        return;
      }
      var start, end := m.value.0, m.value.1;
      var jsonStr := response[start..end];
      ExtractStep(response, seen, lastIndex);
      ParsedSnoc(parse, seen, jsonStr);
      match parse(jsonStr) {
        case Some(json) => jsonObjects := jsonObjects + [json];
        case None =>
      }
      seen := seen + [jsonStr];
      lastIndex := end;
    }
  }

  /** When no candidate parses, nothing is extracted. */
  lemma NothingParsesNothingExtracted(parse: Parser, t: string)
    requires forall k :: 0 <= k < |Candidates(t)| ==> parse(Candidates(t)[k]).None?
    ensures Parsed(parse, Candidates(t)) == []
  {
    var cs := Candidates(t);
    var n := |cs|;
    var i := 0;
    while i < n
      invariant i <= n
      invariant Parsed(parse, cs[..i]) == []
    {
      ParsedAppend(parse, cs[..i], [cs[i]]);
      assert cs[..i + 1] == cs[..i] + [cs[i]];
      assert Parsed(parse, [cs[i]]) == [] by {
        assert [cs[i]][..0] == [];
      }
      i := i + 1;
    }
    assert cs[..n] == cs;
  }

  // ---------------------------------------------------------------- dispatch and composition

  /** The `for (const json of jsonObjects)` loop: action steps are executed and recorded
      under their name, output steps overwrite `finalOutput`. */
  method Accumulate(jsonObjects: seq<Object>)
    returns (order: seq<string>, observations: map<string, Record>, finalOutput: string)
    ensures order == Dedup(RecordedNames(jsonObjects))
    ensures observations == Observations(jsonObjects)
    ensures finalOutput == LastOutput(jsonObjects)
  {
    order, observations, finalOutput := [], map[], "";
    for i := 0 to |jsonObjects|
      invariant order == Dedup(RecordedNames(jsonObjects[..i]))
      invariant observations == Observations(jsonObjects[..i])
      invariant finalOutput == LastOutput(jsonObjects[..i])
    {
      assert jsonObjects[..i + 1] == jsonObjects[..i] + [jsonObjects[i]];
      order, observations, finalOutput := DispatchOne(jsonObjects[..i], order, observations, finalOutput, jsonObjects[i]);
    }
    assert jsonObjects[..|jsonObjects|] == jsonObjects;
  }

  /** The body of the dispatch loop: an action step is recorded, an output step sets
      `finalOutput`, and the state after `seen` becomes the state after `seen + [json]`. */
  method DispatchOne(ghost seen: seq<Object>, order: seq<string>, observations: map<string, Record>,
                     finalOutput: string, json: Object)
    returns (order': seq<string>, observations': map<string, Record>, finalOutput': string)
    requires order == Dedup(RecordedNames(seen))
    requires observations == Observations(seen)
    requires finalOutput == LastOutput(seen)
    ensures order' == Dedup(RecordedNames(seen + [json]))
    ensures observations' == Observations(seen + [json])
    ensures finalOutput' == LastOutput(seen + [json])
  {
    DispatchStep(seen, json);
    order', observations', finalOutput' := order, observations, finalOutput;
    if IsAction(json) {
      order', observations' := RecordAction(order, observations, json);
    } else if IsOutput(json) {
      finalOutput' := OutputText(json);
    }
  }

  /** One action step: the tool runs and `observations[json.function]` is written; the
      name enters the key order at its first write, and `__proto__` creates no key. */
  method RecordAction(order: seq<string>, observations: map<string, Record>, json: Object)
    returns (order': seq<string>, observations': map<string, Record>)
    requires IsAction(json)
    ensures order' == if IsRecorded(json) && FunctionName(json) !in observations then order + [FunctionName(json)] else order
    ensures observations' == if IsRecorded(json) then observations[FunctionName(json) := RecordOf(json)] else observations
  {
    var result := ExecuteTool(FunctionName(json), InputOf(json));
    var name := FunctionName(json);
    order', observations' := order, observations;
    if name != "__proto__" {
      if name !in observations {
        order' := order + [name];
      }
      observations' := observations[name := Record(InputOf(json), result)];
    }
  }

  /** One paragraph per recorded tool, in key order: its result and a blank line. */
  function DigestBody(order: seq<string>, observations: map<string, Record>): string {
    if order == [] then ""
    else
      var name := order[|order| - 1];
      var paragraph := if name in observations then Render(observations[name].result) else "";
      DigestBody(order[..|order| - 1], observations) + paragraph + "\n\n"
  }

  function Digest(order: seq<string>, observations: map<string, Record>): string {
    Lead + DigestBody(order, observations)
  }

  /** The `finalOutput += \`${data.result}\n\n\`` loop over `Object.values(observations)`. */
  method BuildDigest(order: seq<string>, observations: map<string, Record>) returns (text: string)
    requires forall k :: 0 <= k < |order| ==> order[k] in observations
    ensures text == Digest(order, observations)
  {
    text := Lead;
    for i := 0 to |order|
      invariant text == Lead + DigestBody(order[..i], observations)
    {
      DigestBodyStep(order, observations, i);
      text := text + Render(observations[order[i]].result) + "\n\n";
    }
    assert order[..|order|] == order;
  }

  /** The digest of the first `i + 1` names is that of the first `i` and one more paragraph. */
  lemma DigestBodyStep(order: seq<string>, observations: map<string, Record>, i: nat)
    requires i < |order| && order[i] in observations
    ensures DigestBody(order[..i + 1], observations)
         == DigestBody(order[..i], observations) + Render(observations[order[i]].result) + "\n\n"
  {
    assert order[..i + 1][..i] == order[..i];
  }

  /** The digest of one observation is the lead-in, its rendered result and a blank line. */
  lemma DigestOfOne(name: string, observations: map<string, Record>)
    requires name in observations
    ensures Digest([name], observations) == Lead + Render(observations[name].result) + "\n\n"
  {
    assert [name][..0] == [];
    assert DigestBody([name], observations) == Render(observations[name].result) + "\n\n";
  }

  /** What the embedded-JSON stage makes of the objects it extracted: the last output
      step's text when it is non-empty, else a digest of the observations when there
      are any. */
  function Compose(objs: seq<Object>): (r: Option<ToolResult>)
    ensures r.Some? ==> r.value.Text? && r.value.text != []
  {
    var finalOutput := LastOutput(objs);
    if finalOutput != "" then Some(Text(finalOutput))
    else
      var order := Dedup(RecordedNames(objs));
      if order != [] then Some(Text(Digest(order, Observations(objs)))) else None
  }

  /** The answer the embedded-JSON stage gives, if any: nothing when the gate is shut,
      else what the parsed candidates compose to. */
  function Structured(parse: Parser, t: string): (r: Option<ToolResult>)
    ensures r.Some? ==> JsonGate(t) && r.value.Text? && r.value.text != []
  {
    if !JsonGate(t) then None else Compose(Parsed(parse, Candidates(t)))
  }

  /** The embedded-JSON stage gives no answer exactly when the gate is shut, or when no
      output step leaves a non-empty text and no action step is recorded. */
  lemma StructuredNoneIff(parse: Parser, t: string)
    ensures var objs := Parsed(parse, Candidates(t));
            Structured(parse, t).None?
            <==> !JsonGate(t) || (LastOutput(objs) == "" && forall j :: 0 <= j < |objs| ==> !IsRecorded(objs[j]))
  {
    var objs := Parsed(parse, Candidates(t));
    var names := RecordedNames(objs);
    if names != [] {
      assert names[0] in Dedup(names);
    }
  }

  /** Without a double quote in the text the gate stays shut. */
  lemma NoQuoteNoGate(t: string)
    requires '"' !in t
    ensures !JsonGate(t)
  {
    FirstCharAbsent(t, "\"type\"");
  }

  // ---------------------------------------------------------------- keyword fallback

  /** One row of the `keywords` table. */
  datatype Keyword = Keyword(key: string, tool: Tool, pattern: Pattern)

  /** The `keywords` table, in declaration order, which is the order it is walked in. */
  const Keywords: seq<Keyword> := [
    Keyword("best time to visit", BestTimeToVisit, BestTimeToVisitRe),
    Keyword("weather in", WeatherDetails, WeatherInRe),
    Keyword("forecast", WeatherForecast, ForecastRe),
    Keyword("places to visit", FamousPlaces, PlacesRe),
    Keyword("food in", FamousFood, FoodRe),
    Keyword("destinations", FamousDestinations, DestinationsRe)]

  /** An entry fires when its key occurs in the lowercased text and its regex captures a city. */
  function Fires(entry: Keyword, userMessage: string): (city: Option<string>)
    ensures city.Some? <==> Contains(userMessage, entry.key) && Exec(entry.pattern, userMessage).Some?
    ensures city.Some? ==> IsWord(city.value)
    // the city is group 1 of the entry's regex on the text
    ensures city.Some? ==> city == Exec(entry.pattern, userMessage)
  {
    if Contains(userMessage, entry.key) then Exec(entry.pattern, userMessage) else None
  }

  /** The first entry, from the `i`-th on, that fires, applied to its capture. */
  function KeywordFrom(userMessage: string, i: nat): (r: Option<ToolResult>)
    ensures r.None? <==> forall j :: i <= j < |Keywords| ==> Fires(Keywords[j], userMessage).None?
    ensures r.Some? ==> NonEmpty(r.value)
    decreases |Keywords| - i
  {
    if i >= |Keywords| then None
    else
      match Fires(Keywords[i], userMessage)
      case Some(city) =>
        ExecuteToolNonEmpty(ToolName(Keywords[i].tool), Some(city));
        Some(ExecuteTool(ToolName(Keywords[i].tool), Some(city)))
      case None => KeywordFrom(userMessage, i + 1)
  }

  /** The `for (const [key, info] of Object.entries(keywords))` loop with its early return. */
  method MatchKeywords(userMessage: string) returns (answer: Option<ToolResult>)
    ensures answer == KeywordFrom(userMessage, 0)
  {
    for i := 0 to |Keywords|
      invariant KeywordFrom(userMessage, 0) == KeywordFrom(userMessage, i)
    {
      var info := Keywords[i];
      if Contains(userMessage, info.key) {
        var match_ := Exec(info.pattern, userMessage);
        if match_.Some? {
          var city := match_.value;
          var result := ExecuteTool(ToolName(info.tool), Some(city));
          return Some(result);
        }
      }
    }
    return None;
  }

  /** Entries that do not fire are passed over. */
  lemma {:induction false} SilentEntriesSkipped(userMessage: string, i: nat, k: nat)
    requires i <= k < |Keywords|
    requires forall j :: i <= j < k ==> Fires(Keywords[j], userMessage).None?
    ensures KeywordFrom(userMessage, i) == KeywordFrom(userMessage, k)
    decreases k - i
  {
    if i < k {
      EntrySkipped(userMessage, i);
      SilentEntriesSkipped(userMessage, i + 1, k);
    }
  }

  /** An entry that does not fire hands over to the next one. */
  lemma EntrySkipped(userMessage: string, i: nat)
    requires i < |Keywords| && Fires(Keywords[i], userMessage).None?
    ensures KeywordFrom(userMessage, i) == KeywordFrom(userMessage, i + 1)
  {
  }

  /** Table order decides: the first entry that fires wins, however early another entry's
      phrase stands in the text, and its tool gets the lowercased capture. */
  lemma FirstFiringEntryWins(userMessage: string, k: nat)
    requires k < |Keywords| && Fires(Keywords[k], userMessage).Some?
    requires forall j :: 0 <= j < k ==> Fires(Keywords[j], userMessage).None?
    ensures KeywordFrom(userMessage, 0)
         == Some(Apply(Keywords[k].tool, Fires(Keywords[k], userMessage).value))
  {
    SilentEntriesSkipped(userMessage, 0, k);
    ToolByNameRoundTrip(Keywords[k].tool);
  }

  // ---------------------------------------------------------------- last resorts

  /** The hard-coded "best time" check: Mumbai, then Delhi, then Bangalore. */
  function Emergency(userMessage: string): (r: Option<ToolResult>)
    ensures r.Some? <==> Contains(userMessage, "best time")
                         && (Contains(userMessage, "mumbai") || Contains(userMessage, "delhi")
                             || Contains(userMessage, "bangalore"))
    ensures r.Some? && Contains(userMessage, "mumbai") ==> r.value == Text(BestTimeEntry(Some(Mumbai)))
    ensures r.Some? && !Contains(userMessage, "mumbai") && Contains(userMessage, "delhi") ==> r.value == Text(BestTimeEntry(Some(Delhi)))
    ensures r.Some? && !Contains(userMessage, "mumbai") && !Contains(userMessage, "delhi") ==> r.value == Text(BestTimeEntry(Some(Bangalore)))
    ensures r.Some? ==> NonEmpty(r.value)
  {
    if Contains(userMessage, "best time") && Contains(userMessage, "mumbai") then Some(Apply(BestTimeToVisit, Key(Mumbai)))
    else if Contains(userMessage, "best time") && Contains(userMessage, "delhi") then Some(Apply(BestTimeToVisit, Key(Delhi)))
    else if Contains(userMessage, "best time") && Contains(userMessage, "bangalore") then Some(Apply(BestTimeToVisit, Key(Bangalore)))
    else None
  }

  /** `Famous foods in <City>: a, b, …` and its places counterpart. */
  function Listing(heading: string, city: string, items: seq<string>): string {
    heading + Capitalize(city) + ": " + Join(items, ", ")
  }

  /** The generic city extractor: the first `(?:about|in|for|visit)\s+(\w+)` capture,
      lowercased, goes to the weather, food or places lookup, whichever the text
      mentions first in that preference order, else to the best time to visit. */
  function Extractor(userMessage: string): (r: Option<ToolResult>)
    ensures r.Some? <==> Exec(CityRe, userMessage).Some?
    ensures r.Some? ==> NonEmpty(r.value)
    // "weather" wins over "food", which wins over "place"; the default is the best time
    ensures r.Some? && Contains(userMessage, "weather")
            ==> r.value == Apply(WeatherDetails, Lower(Exec(CityRe, userMessage).value))
    ensures r.Some? && !Contains(userMessage, "weather") && Contains(userMessage, "food")
            ==> var city := Lower(Exec(CityRe, userMessage).value);
                r.value == Text("Famous foods in " + Capitalize(city) + ": " + Join(Apply(FamousFood, city).items, ", "))
    ensures r.Some? && !Contains(userMessage, "weather") && !Contains(userMessage, "food") && Contains(userMessage, "place")
            ==> var city := Lower(Exec(CityRe, userMessage).value);
                r.value == Text("Famous places in " + Capitalize(city) + ": " + Join(Apply(FamousPlaces, city).items, ", "))
    ensures r.Some? && !Contains(userMessage, "weather") && !Contains(userMessage, "food") && !Contains(userMessage, "place")
            ==> r.value == Apply(BestTimeToVisit, Lower(Exec(CityRe, userMessage).value))
  {
    match Exec(CityRe, userMessage)
    case None => None
    case Some(capture) =>
      var city := Lower(capture);
      ApplyNonEmpty(WeatherDetails, city);
      ApplyNonEmpty(BestTimeToVisit, city);
      if Contains(userMessage, "weather") then Some(Apply(WeatherDetails, city))
      else if Contains(userMessage, "food") then Some(Text(Listing("Famous foods in ", city, Apply(FamousFood, city).items)))
      else if Contains(userMessage, "place") then Some(Text(Listing("Famous places in ", city, Apply(FamousPlaces, city).items)))
      else Some(Apply(BestTimeToVisit, city))
  }

  /** The stages after the embedded-JSON one, all on the lowercased text. */
  function Fallback(userMessage: string): (r: ToolResult)
    ensures NonEmpty(r)
  {
    match KeywordFrom(userMessage, 0)
    case Some(r) => r
    case None =>
      match Emergency(userMessage)
      case Some(r) => r
      case None =>
        match Extractor(userMessage)
        case Some(r) => r
        case None => Text(HelpMessage)
  }

  /** What `processAIResponse(response)` returns: whatever the text, something to show. */
  function Answer(parse: Parser, response: string): (r: ToolResult)
    ensures NonEmpty(r)
  {
    match Structured(parse, response)
    case Some(r) => r
    case None => Fallback(Lower(response))
  }

  /** The answer as a string, as every stage but the keyword one returns it: an array
      answer is converted the way `String(result)` converts an array, its items joined
      by `,`. */
  function AnswerText(parse: Parser, response: string): (s: string)
    ensures s != []
    ensures Answer(parse, response).Text? ==> s == Answer(parse, response).text
    ensures var r := Answer(parse, response);
            r.List? && (forall k :: 0 <= k < |r.items| ==> ',' !in r.items[k]) ==> Split(s, ',') == r.items
  {
    Render(Answer(parse, response))
  }

  /** The embedded-JSON stage of `processAIResponse`. */
  method StructuredStage(parse: Parser, response: string) returns (answer: Option<ToolResult>)
    ensures answer == Structured(parse, response)
  {
    if !JsonGate(response) {
      return None;
    }
    var jsonObjects := ExtractObjects(parse, response);
    answer := ComposeObjects(jsonObjects);
  }

  /** The dispatch loop, then `finalOutput` if it is non-empty, else the digest when some
      tool was recorded. */
  method ComposeObjects(jsonObjects: seq<Object>) returns (answer: Option<ToolResult>)
    ensures answer == Compose(jsonObjects)
  {
    var order, observations, finalOutput := Accumulate(jsonObjects);
    if finalOutput == "" && |order| > 0 {
      assert forall k :: 0 <= k < |order| ==> order[k] in RecordedNames(jsonObjects);
      finalOutput := BuildDigest(order, observations);
      return Some(Text(finalOutput));
    }
    if finalOutput != "" {
      return Some(Text(finalOutput));
    }
    return None;
  }

  /** The stages after the embedded-JSON one. */
  method FallbackStages(userMessage: string) returns (answer: ToolResult)
    ensures answer == Fallback(userMessage)
  {
    var keyword := MatchKeywords(userMessage);
    if keyword.Some? {
      return keyword.value;
    }
    var emergency := Emergency(userMessage);
    if emergency.Some? {
      return emergency.value;
    }
    var direct := Extractor(userMessage);
    if direct.Some? {
      return direct.value;
    }
    return Text(HelpMessage);
  }

  /** `processAIResponse`, stage by stage as the source runs them. */
  method ProcessAIResponse(parse: Parser, response: string) returns (answer: ToolResult)
    ensures answer == Answer(parse, response)
  {
    var structured := StructuredStage(parse, response);
    if structured.Some? {
      return structured.value;
    }
    answer := FallbackStages(Lower(response));
  }

  // ---------------------------------------------------------------- what the cascade promises

  /** An explicit, non-empty output step is returned verbatim: the last one wins. */
  lemma ExplicitOutputWins(parse: Parser, response: string, k: nat)
    requires JsonGate(response)
    requires k < |Parsed(parse, Candidates(response))|
    requires IsOutput(Parsed(parse, Candidates(response))[k]) && OutputText(Parsed(parse, Candidates(response))[k]) != ""
    requires forall j :: k < j < |Parsed(parse, Candidates(response))| ==> !IsOutput(Parsed(parse, Candidates(response))[j])
    ensures Answer(parse, response) == Text(OutputText(Parsed(parse, Candidates(response))[k]))
  {
    LastOutputIsLast(Parsed(parse, Candidates(response)), k);
  }

  /** Without an output step, the actions' results are digested, one paragraph per
      distinct tool name. */
  lemma DigestWhenNoOutput(parse: Parser, response: string)
    requires JsonGate(response)
    requires LastOutput(Parsed(parse, Candidates(response))) == ""
    requires exists j :: 0 <= j < |Parsed(parse, Candidates(response))| && IsRecorded(Parsed(parse, Candidates(response))[j])
    ensures Answer(parse, response)
         == Text(Digest(Dedup(RecordedNames(Parsed(parse, Candidates(response)))), Observations(Parsed(parse, Candidates(response)))))
  {
    var objs := Parsed(parse, Candidates(response));
    var j :| 0 <= j < |objs| && IsRecorded(objs[j]);
    LastWriteWins(objs, LastWriterAfter(objs, j));
  }

  /** The last recorded action with the same name as the `j`-th. */
  function LastWriterAfter(objs: seq<Object>, j: nat): (k: nat)
    requires j < |objs| && IsRecorded(objs[j])
    ensures j <= k < |objs| && IsRecorded(objs[k]) && FunctionName(objs[k]) == FunctionName(objs[j])
    ensures forall i :: k < i < |objs| ==> !(IsRecorded(objs[i]) && FunctionName(objs[i]) == FunctionName(objs[k]))
    decreases |objs| - j
  {
    if exists i :: j < i < |objs| && IsRecorded(objs[i]) && FunctionName(objs[i]) == FunctionName(objs[j]) then
      var i :| j < i < |objs| && IsRecorded(objs[i]) && FunctionName(objs[i]) == FunctionName(objs[j]);
      LastWriterAfter(objs, i)
    else j
  }

  /** When the text holds no JSON that parses, the parser plays no part: the answer is
      the fallback on the lowercased text. */
  lemma NoJsonMeansFallback(parse: Parser, response: string)
    requires !JsonGate(response) || forall k :: 0 <= k < |Candidates(response)| ==> parse(Candidates(response)[k]).None?
    ensures Answer(parse, response) == Fallback(Lower(response))
  {
    if JsonGate(response) {
      NothingParsesNothingExtracted(parse, response);
    }
  }

  /** With the JSON gate shut, an entry of the keyword table that fires decides the answer. */
  lemma KeywordAnswer(parse: Parser, response: string)
    requires !JsonGate(response) && KeywordFrom(Lower(response), 0).Some?
    ensures Answer(parse, response) == KeywordFrom(Lower(response), 0).value
  {
  }

  /** When no stage recognises anything, the answer is the help message. */
  lemma UnrecognisedGetsHelp(parse: Parser, response: string)
    requires Structured(parse, response).None?
    requires forall j :: 0 <= j < |Keywords| ==> Fires(Keywords[j], Lower(response)).None?
    requires !Contains(Lower(response), "best time")
    requires Exec(CityRe, Lower(response)).None?
    ensures Answer(parse, response) == Text(HelpMessage)
  {
  }
}
