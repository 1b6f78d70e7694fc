/** The line-oriented response interpreter of the city agent (`processAIResponse` in
    city-agent.js). The reply is split into lines; each non-blank line that parses as a
    JSON step is dispatched: an action step runs its tool (the result is only logged),
    an output step replaces the kept output. The kept output is returned, or the whole
    reply when no output step left a non-empty text. */
module CityAgent {

  import opened Options
  import opened JsText
  import opened Tools
  import opened Steps

  /** The line holds something besides white space. */
  predicate NonBlank(line: string) {
    exists i :: 0 <= i < |line| && !IsSpace(line[i])
  }

  /** `!line.trim()` is false exactly for the lines that are not blank. */
  lemma NonBlankIsTrimmedNonEmpty(line: string)
    ensures NonBlank(line) <==> Trim(line) != []
  {
    TrimEmptyIff(line);
  }

  /** The lines the loop does not skip with `continue`, in order. */
  function NonBlankLines(lines: seq<string>): (kept: seq<string>)
    ensures |kept| <= |lines|
    ensures forall k :: 0 <= k < |kept| ==> NonBlank(kept[k])
  {
    if lines == [] then []
    else
      var last := lines[|lines| - 1];
      NonBlankLines(lines[..|lines| - 1]) + (if NonBlank(last) then [last] else [])
  }

  /** Filtering a concatenation filters each part. */
  lemma {:induction false} NonBlankLinesAppend(a: seq<string>, b: seq<string>)
    ensures NonBlankLines(a + b) == NonBlankLines(a) + NonBlankLines(b)
    decreases |b|
  {
    if b == [] {
      assert a + b == a;
    } else {
      var b' := b[..|b| - 1];
      var x := b[|b| - 1];
      var tail := if NonBlank(x) then [x] else [];
      assert (a + b)[..|a + b| - 1] == a + b';
      assert (a + b)[|a + b| - 1] == x;
      assert NonBlankLines(a + b) == NonBlankLines(a + b') + tail;
      assert NonBlankLines(b) == NonBlankLines(b') + tail;
      NonBlankLinesAppend(a, b');
    }
  }

  /** The text `output` holds after the loop has gone over `lines`. */
  function OutputOfLines(parse: Parser, lines: seq<string>): string {
    LastOutput(Parsed(parse, NonBlankLines(lines)))
  }

  /** The tool calls the action steps make, in step order: name and result. */
  function ActionCalls(objs: seq<Object>): (calls: seq<(string, ToolResult)>)
    ensures |calls| <= |objs|
    ensures calls == [] <==> forall j :: 0 <= j < |objs| ==> !IsAction(objs[j])
  {
    if objs == [] then []
    else
      var o := objs[|objs| - 1];
      ActionCalls(objs[..|objs| - 1]) + (if IsAction(o) then [(FunctionName(o), ActionResult(o))] else [])
  }

  /** The tool calls the loop makes while going over `lines`. */
  function CallsOfLines(parse: Parser, lines: seq<string>): seq<(string, ToolResult)> {
    ActionCalls(Parsed(parse, NonBlankLines(lines)))
  }

  /** How one more line changes what the loop has parsed: a blank line or one that does
      not parse adds nothing, any other adds its object. */
  lemma ParsedStep(parse: Parser, lines: seq<string>, line: string)
    ensures Parsed(parse, NonBlankLines(lines + [line]))
         == Parsed(parse, NonBlankLines(lines))
            + if NonBlank(line) && parse(line).Some? then [parse(line).value] else []
  {
    var seen := NonBlankLines(lines);
    assert (lines + [line])[..|lines|] == lines;
    if NonBlank(line) {
      assert NonBlankLines(lines + [line]) == seen + [line];
      ParsedSnoc(parse, seen, line);
    } else {
      assert NonBlankLines(lines + [line]) == seen;
    }
  }

  /** One turn of the loop, for `output`: only an output step replaces it. */
  lemma OutputStep(parse: Parser, lines: seq<string>, line: string)
    ensures OutputOfLines(parse, lines + [line])
         == if NonBlank(line) && parse(line).Some? && IsOutput(parse(line).value) then OutputText(parse(line).value)
            else OutputOfLines(parse, lines)
  {
    ParsedStep(parse, lines, line);
    if NonBlank(line) && parse(line).Some? {
      var objs := Parsed(parse, NonBlankLines(lines));
      assert (objs + [parse(line).value])[..|objs|] == objs;
    } else {
      assert Parsed(parse, NonBlankLines(lines)) + [] == Parsed(parse, NonBlankLines(lines));
    }
  }

  /** One turn of the loop: a blank line, a line that does not parse and a step that is
      not an output step leave `output` alone; an output step replaces it. Only an action
      step calls a tool. */
  lemma LineStep(parse: Parser, lines: seq<string>, line: string)
    ensures OutputOfLines(parse, lines + [line])
         == if NonBlank(line) && parse(line).Some? && IsOutput(parse(line).value) then OutputText(parse(line).value)
            else OutputOfLines(parse, lines)
    ensures CallsOfLines(parse, lines + [line])
         == CallsOfLines(parse, lines)
            + if NonBlank(line) && parse(line).Some? && IsAction(parse(line).value)
              then [(FunctionName(parse(line).value), ActionResult(parse(line).value))] else []
  {
    OutputStep(parse, lines, line);
    ParsedStep(parse, lines, line);
    if NonBlank(line) && parse(line).Some? {
      var objs := Parsed(parse, NonBlankLines(lines));
      assert (objs + [parse(line).value])[..|objs|] == objs;
    } else {
      assert Parsed(parse, NonBlankLines(lines)) + [] == Parsed(parse, NonBlankLines(lines));
    }
  }

  /** The text `output` holds after the loop. */
  function KeptOutput(parse: Parser, response: string): string {
    OutputOfLines(parse, Split(response, '\n'))
  }

  /** `output || response`. */
  function LineAnswer(parse: Parser, response: string): string {
    var output := KeptOutput(parse, response);
    if output != "" then output else response
  }

  /** The `for (const line of lines)` loop: blank lines are skipped, lines that do not
      parse are skipped, action steps run their tool and output steps set `output`.
      `calls` lists the tool calls made, whose results the source only logs. */
  method DispatchLines(parse: Parser, lines: seq<string>) returns (output: string, calls: seq<(string, ToolResult)>)
    ensures output == OutputOfLines(parse, lines)
    ensures calls == CallsOfLines(parse, lines)
  {
    output, calls := "", [];
    for i := 0 to |lines|
      invariant output == OutputOfLines(parse, lines[..i])
      invariant calls == CallsOfLines(parse, lines[..i])
    {
      var line := lines[i];
      assert lines[..i + 1] == lines[..i] + [line];
      LineStep(parse, lines[..i], line);
      NonBlankIsTrimmedNonEmpty(line);
      if Trim(line) == [] {
        continue;
      }
      match parse(line) {
        case None =>
        case Some(json) =>
          if IsAction(json) {
            var result := ExecuteTool(FunctionName(json), InputOf(json));
            calls := calls + [(FunctionName(json), result)];
          } else if IsOutput(json) {
            output := OutputText(json);
          }
      }
    }
    assert lines[..|lines|] == lines;
  }

  /** `processAIResponse(response)`: the reply split at `'\n'`, dispatched line by line,
      and `output || response`. */
  method ProcessAIResponse(parse: Parser, response: string) returns (answer: string)
    ensures answer == LineAnswer(parse, response)
  {
    var lines := Split(response, '\n');
    var output, _ := DispatchLines(parse, lines);
    answer := if output != "" then output else response;
  }

  /** The answer is empty exactly when the reply is: a non-empty reply is echoed at worst,
      and an empty one has no line to act on. */
  lemma AnswerEmptyIff(parse: Parser, response: string)
    ensures LineAnswer(parse, response) == [] <==> response == []
  {
    if response == [] {
      var lines := Split(response, '\n');
      assert lines == [[]];
      assert !NonBlank(lines[0]);
      assert lines[..0] == [];
      assert NonBlankLines(lines) == [];
    }
  }

  /** Lines none of which is an output step leave `output` empty. */
  lemma {:induction false} NoOutputLineKeepsNothing(parse: Parser, lines: seq<string>)
    requires forall k :: 0 <= k < |lines| ==> parse(lines[k]).None? || !IsOutput(parse(lines[k]).value)
    ensures OutputOfLines(parse, lines) == ""
    decreases |lines|
  {
    if lines != [] {
      var front, last := lines[..|lines| - 1], lines[|lines| - 1];
      NoOutputLineKeepsNothing(parse, front);
      OutputStep(parse, front, last);
      assert front + [last] == lines;
    }
  }

  /** A reply with no output step, whatever actions it runs, is echoed back. */
  lemma EchoWithoutOutput(parse: Parser, response: string)
    requires forall k :: 0 <= k < |Split(response, '\n')| ==>
               parse(Split(response, '\n')[k]).None? || !IsOutput(parse(Split(response, '\n')[k]).value)
    ensures LineAnswer(parse, response) == response
  {
    NoOutputLineKeepsNothing(parse, Split(response, '\n'));
  }

  /** The objects of three runs of texts are those of each run, in order. */
  lemma ParsedThree(parse: Parser, a: seq<string>, x: string, b: seq<string>)
    ensures Parsed(parse, a + [x] + b)
         == Parsed(parse, a) + (match parse(x) case Some(o) => [o] case None => []) + Parsed(parse, b)
  {
    ParsedAppend(parse, a + [x], b);
    ParsedSnoc(parse, a, x);
  }

  /** Filtering three runs of lines filters each run. */
  lemma NonBlankLinesThree(a: seq<string>, x: string, b: seq<string>)
    ensures NonBlankLines(a + [x] + b)
         == NonBlankLines(a) + (if NonBlank(x) then [x] else []) + NonBlankLines(b)
  {
    NonBlankLinesAppend(a + [x], b);
    NonBlankLinesAppend(a, [x]);
    assert [x][..0] == [];
  }

  /** Among the lines, one that is not an output step can be dropped. */
  lemma InsertedLine(parse: Parser, a: seq<string>, x: string, b: seq<string>)
    requires parse(x).None? || !IsOutput(parse(x).value)
    ensures OutputOfLines(parse, a + [x] + b) == OutputOfLines(parse, a + b)
  {
    NonBlankLinesThree(a, x, b);
    NonBlankLinesAppend(a, b);
    var na, nb := NonBlankLines(a), NonBlankLines(b);
    ParsedAppend(parse, na, nb);
    var pa, pb := Parsed(parse, na), Parsed(parse, nb);
    if NonBlank(x) {
      ParsedThree(parse, na, x, nb);
      if parse(x).Some? {
        LastOutputIgnores(pa, parse(x).value, pb);
      } else {
        assert pa + [] + pb == pa + pb;
      }
    } else {
      assert na + [] + nb == na + nb;
    }
  }

  /** A reply holding a line that is not an output step (blank, not JSON, or an action)
      keeps the same output as the reply without it. */
  lemma NonOutputLineIrrelevant(parse: Parser, a: seq<string>, x: string, b: seq<string>)
    requires |a + b| >= 1
    requires forall k :: 0 <= k < |a| ==> '\n' !in a[k]
    requires forall k :: 0 <= k < |b| ==> '\n' !in b[k]
    requires '\n' !in x
    requires parse(x).None? || !IsOutput(parse(x).value)
    ensures KeptOutput(parse, Join(a + [x] + b, "\n")) == KeptOutput(parse, Join(a + b, "\n"))
  {
    var withX := a + [x] + b;
    var without := a + b;
    forall k | 0 <= k < |withX| ensures '\n' !in withX[k] {
      if k < |a| { assert withX[k] == a[k]; }
      else if k == |a| { assert withX[k] == x; }
      else { assert withX[k] == b[k - |a| - 1]; }
    }
    forall k | 0 <= k < |without| ensures '\n' !in without[k] {
      if k < |a| { assert without[k] == a[k]; }
      else { assert without[k] == b[k - |a|]; }
    }
    SplitJoin(withX, '\n');
    SplitJoin(without, '\n');
    InsertedLine(parse, a, x, b);
  }

  /** Two lines joined by a line break split back into the two. */
  lemma TwoLines(first: string, second: string)
    requires '\n' !in first && '\n' !in second
    ensures Split(first + "\n" + second, '\n') == [first, second]
  {
    var lines := [first, second];
    assert Join(lines, "\n") == first + "\n" + second by {
      assert lines[1..] == [second];
    }
    SplitJoin(lines, '\n');
  }

  /** A reply of an action line followed by an output line answers the output's text. */
  lemma ActionThenOutput(parse: Parser, actionLine: string, outputLine: string)
    requires '\n' !in actionLine && '\n' !in outputLine
    requires NonBlank(outputLine)
    requires parse(actionLine).Some? && IsAction(parse(actionLine).value)
    requires parse(outputLine).Some? && IsOutput(parse(outputLine).value)
    requires OutputText(parse(outputLine).value) != ""
    ensures LineAnswer(parse, actionLine + "\n" + outputLine) == OutputText(parse(outputLine).value)
  {
    TwoLines(actionLine, outputLine);
    OutputStep(parse, [actionLine], outputLine);
    assert [actionLine] + [outputLine] == [actionLine, outputLine];
  }
}
