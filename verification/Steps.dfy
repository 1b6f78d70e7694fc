/** The structured steps both interpreters recover from text. `JSON.parse` is a library
    call; the interpreters receive it as a deterministic partial function from a
    candidate text to a flat object (member name to string value), `None` standing for
    every text that does not parse or is not an object. */
module Steps {

  import opened Options
  import opened Tools

  /** A parsed JSON object with string-valued members; a repeated member keeps its last value. */
  type Object = map<string, string>

  /** `JSON.parse` as the interpreters use it. */
  type Parser = string -> Option<Object>

  /** `json.type === 'action'`. */
  predicate IsAction(o: Object) {
    "type" in o && o["type"] == "action"
  }

  /** `json.type === 'output'`. */
  predicate IsOutput(o: Object) {
    "type" in o && o["type"] == "output"
  }

  /** `json.function` as a property key and in a template literal: a missing member is
      `undefined`, which both spell "undefined". */
  function FunctionName(o: Object): string {
    if "function" in o then o["function"] else "undefined"
  }

  /** `json.input`; a missing member is `undefined`. */
  function InputOf(o: Object): Option<string> {
    if "input" in o then Some(o["input"]) else None
  }

  /** `json.output`; a missing member is `undefined`, which every later use treats like
      the empty string (both are falsy). */
  function OutputText(o: Object): string {
    if "output" in o then o["output"] else ""
  }

  /** What `executeTool(json)` returns for an action step. */
  function ActionResult(o: Object): ToolResult {
    ExecuteTool(FunctionName(o), InputOf(o))
  }

  /** The texts that parse, as objects, in their order; the others are skipped. */
  function Parsed(parse: Parser, texts: seq<string>): (objs: seq<Object>)
    ensures |objs| <= |texts|
  {
    if texts == [] then []
    else
      var last := texts[|texts| - 1];
      var front := Parsed(parse, texts[..|texts| - 1]);
      match parse(last)
      case Some(o) => front + [o]
      case None => front
  }

  /** Every text yields an object exactly when every text parses; none does when none
      parses. */
  lemma {:induction false} ParsedCount(parse: Parser, texts: seq<string>)
    ensures |Parsed(parse, texts)| == |texts| <==> forall j :: 0 <= j < |texts| ==> parse(texts[j]).Some?
    ensures (forall j :: 0 <= j < |texts| ==> parse(texts[j]).None?) ==> Parsed(parse, texts) == []
    decreases |texts|
  {
    if texts != [] {
      var front := texts[..|texts| - 1];
      ParsedCount(parse, front);
      assert forall j :: 0 <= j < |front| ==> front[j] == texts[j];
    }
  }

  /** Parsing a concatenation parses each part. */
  lemma {:induction false} ParsedAppend(parse: Parser, a: seq<string>, b: seq<string>)
    ensures Parsed(parse, a + b) == Parsed(parse, a) + Parsed(parse, b)
    decreases |b|
  {
    if b != [] {
      var b' := b[..|b| - 1];
      assert (a + b)[..|a + b| - 1] == a + b';
      assert b[..|b| - 1] == b';
      ParsedAppend(parse, a, b');
    } else {
      assert a + b == a;
    }
  }

  /** One more text adds its object, if it parses. */
  lemma ParsedSnoc(parse: Parser, texts: seq<string>, x: string)
    ensures Parsed(parse, texts + [x])
         == Parsed(parse, texts) + (match parse(x) case Some(o) => [o] case None => [])
  {
    assert (texts + [x])[..|texts|] == texts;
  }

  /** A text that does not parse is dropped without affecting the others. */
  lemma SkipUnparsed(parse: Parser, a: seq<string>, x: string, b: seq<string>)
    requires parse(x).None?
    ensures Parsed(parse, a + [x] + b) == Parsed(parse, a + b)
  {
    ParsedAppend(parse, a + [x], b);
    ParsedAppend(parse, a, [x]);
    ParsedAppend(parse, a, b);
    assert Parsed(parse, [x]) == [] by {
      assert [x][..0] == [];
    }
  }

  /** The text `finalOutput` / `output` holds after the loop: each output step overwrites
      the previous one, and the other steps leave it alone. */
  function LastOutput(objs: seq<Object>): string {
    if objs == [] then ""
    else
      var last := objs[|objs| - 1];
      if IsOutput(last) then OutputText(last) else LastOutput(objs[..|objs| - 1])
  }

  /** The last output step wins: its text is kept whatever came before it. */
  lemma {:induction false} LastOutputIsLast(objs: seq<Object>, k: nat)
    requires k < |objs| && IsOutput(objs[k])
    requires forall j :: k < j < |objs| ==> !IsOutput(objs[j])
    ensures LastOutput(objs) == OutputText(objs[k])
    decreases |objs|
  {
    if k < |objs| - 1 {
      var front := objs[..|objs| - 1];
      assert front[k] == objs[k];
      LastOutputIsLast(front, k);
    }
  }

  /** With no output step at all nothing is kept. */
  lemma {:induction false} LastOutputNone(objs: seq<Object>)
    requires forall j :: 0 <= j < |objs| ==> !IsOutput(objs[j])
    ensures LastOutput(objs) == ""
    decreases |objs|
  {
    if objs != [] {
      LastOutputNone(objs[..|objs| - 1]);
    }
  }

  /** A step that is not an output step has no influence on the kept output, wherever it stands. */
  lemma {:induction false} LastOutputIgnores(a: seq<Object>, x: Object, b: seq<Object>)
    requires !IsOutput(x)
    ensures LastOutput(a + [x] + b) == LastOutput(a + b)
    decreases |b|
  {
    if b == [] {
      assert (a + [x] + b)[..|a| + 1 - 1] == a;
      assert a + b == a;
    } else {
      var b' := b[..|b| - 1];
      assert (a + [x] + b)[..|a + [x] + b| - 1] == a + [x] + b';
      assert (a + b)[..|a + b| - 1] == a + b';
      LastOutputIgnores(a, x, b');
    }
  }
}
