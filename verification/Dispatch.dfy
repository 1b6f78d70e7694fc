/** The observation dictionary the cascading interpreter fills while it dispatches action
    steps: `observations[json.function] = { input, result }`. A JavaScript object keeps
    its keys in first-insertion order and a repeated key is overwritten in place; the
    model keeps that order as a sequence of names beside a map from name to record. */
module Dispatch {

  import opened Options
  import opened Tools
  import opened Steps

  /** `{ input: json.input, result }`. */
  datatype Record = Record(input: Option<string>, result: ToolResult)

  function RecordOf(o: Object): Record {
    Record(InputOf(o), ActionResult(o))
  }

  /** An action step adds an own key to the dictionary, unless its name is `__proto__`:
      assigning to that name replaces the dictionary's prototype and creates no key. */
  predicate IsRecorded(o: Object) {
    IsAction(o) && FunctionName(o) != "__proto__"
  }

  /** The names under which the action steps write, in step order, repeats included. */
  function RecordedNames(objs: seq<Object>): (names: seq<string>)
    ensures names == [] <==> forall j :: 0 <= j < |objs| ==> !IsRecorded(objs[j])
  {
    if objs == [] then []
    else
      var o := objs[|objs| - 1];
      RecordedNames(objs[..|objs| - 1]) + (if IsRecorded(o) then [FunctionName(o)] else [])
  }

  /** The keys in first-insertion order: a name enters at its first write and stays put. */
  function Dedup(s: seq<string>): (d: seq<string>)
    ensures forall x :: x in d <==> x in s
  {
    if s == [] then []
    else
      var front := s[..|s| - 1];
      var x := s[|s| - 1];
      if x in front then Dedup(front)
      else
        assert forall y :: y in s <==> y in front || y == x;
        Dedup(front) + [x]
  }

  /** The dictionary after the dispatch loop: each recorded action overwrites its name. */
  function Observations(objs: seq<Object>): (m: map<string, Record>)
    ensures forall n :: n in m <==> n in RecordedNames(objs)
  {
    if objs == [] then map[]
    else
      var o := objs[|objs| - 1];
      var front := Observations(objs[..|objs| - 1]);
      if IsRecorded(o) then front[FunctionName(o) := RecordOf(o)] else front
  }

  /** No key is listed twice. */
  lemma {:induction false} DedupDistinct(s: seq<string>)
    ensures forall i, j :: 0 <= i < j < |Dedup(s)| ==> Dedup(s)[i] != Dedup(s)[j]
    decreases |s|
  {
    if s != [] {
      DedupDistinct(s[..|s| - 1]);
    }
  }

  /** Where a name is first written. */
  function FirstIndex(s: seq<string>, x: string): (i: nat)
    requires x in s
    ensures i < |s| && s[i] == x && x !in s[..i]
  {
    if s[0] == x then 0 else 1 + FirstIndex(s[1..], x)
  }

  lemma {:induction false} FirstIndexAppend(s: seq<string>, y: string, x: string)
    requires x in s
    ensures FirstIndex(s + [y], x) == FirstIndex(s, x)
  {
    if s[0] != x {
      assert (s + [y])[1..] == s[1..] + [y];
      FirstIndexAppend(s[1..], y, x);
    }
  }

  /** The keys are listed in the order of their first writes. */
  lemma {:induction false} DedupFirstSeenOrder(s: seq<string>, i: nat, j: nat)
    requires i < j < |Dedup(s)|
    ensures FirstIndex(s, Dedup(s)[i]) < FirstIndex(s, Dedup(s)[j])
    decreases |s|
  {
    var front := s[..|s| - 1];
    var x := s[|s| - 1];
    var d := Dedup(s);
    assert s == front + [x];
    if x in front {
      DedupFirstSeenOrder(front, i, j);
      FirstIndexAppend(front, x, d[i]);
      FirstIndexAppend(front, x, d[j]);
    } else {
      assert d == Dedup(front) + [x];
      FirstIndexAppend(front, x, d[i]);
      if j < |Dedup(front)| {
        DedupFirstSeenOrder(front, i, j);
        FirstIndexAppend(front, x, d[j]);
      } else {
        assert d[j] == x;
        assert FirstIndex(s, x) == |front|;
      }
    }
  }

  /** Last write wins: the record kept under a name is that of the last action step
      that wrote under it. */
  lemma {:induction false} LastWriteWins(objs: seq<Object>, k: nat)
    requires k < |objs| && IsRecorded(objs[k])
    requires forall j :: k < j < |objs| ==> !(IsRecorded(objs[j]) && FunctionName(objs[j]) == FunctionName(objs[k]))
    ensures FunctionName(objs[k]) in Observations(objs)
    ensures Observations(objs)[FunctionName(objs[k])] == RecordOf(objs[k])
    decreases |objs|
  {
    if k < |objs| - 1 {
      var front := objs[..|objs| - 1];
      assert front[k] == objs[k];
      LastWriteWins(front, k);
    }
  }

  /** A sequence without repeats has as many elements as its set. */
  lemma {:induction false} DistinctCardinality(d: seq<string>)
    requires forall i, j :: 0 <= i < j < |d| ==> d[i] != d[j]
    ensures |set x | x in d| == |d|
    decreases |d|
  {
    if d != [] {
      var front := d[..|d| - 1];
      DistinctCardinality(front);
      assert (set x | x in d) == (set x | x in front) + {d[|d| - 1]};
    }
  }

  /** There are as many records as distinct action names, and the key order lists each once. */
  lemma RecordCount(objs: seq<Object>)
    ensures |Dedup(RecordedNames(objs))| == |Observations(objs)|
  {
    var d := Dedup(RecordedNames(objs));
    DedupDistinct(RecordedNames(objs));
    DistinctCardinality(d);
    assert (set x | x in d) == Observations(objs).Keys;
  }

  /** One step of the dispatch loop, in closed form: how the key order, the dictionary
      and the kept output change when one more step is dispatched. */
  lemma DispatchStep(objs: seq<Object>, o: Object)
    ensures RecordedNames(objs + [o]) == RecordedNames(objs) + (if IsRecorded(o) then [FunctionName(o)] else [])
    ensures Observations(objs + [o])
         == if IsRecorded(o) then Observations(objs)[FunctionName(o) := RecordOf(o)] else Observations(objs)
    ensures Dedup(RecordedNames(objs + [o]))
         == if IsRecorded(o) && FunctionName(o) !in Observations(objs) then Dedup(RecordedNames(objs)) + [FunctionName(o)]
            else Dedup(RecordedNames(objs))
    ensures LastOutput(objs + [o]) == if IsOutput(o) then OutputText(o) else LastOutput(objs)
  {
    assert (objs + [o])[..|objs|] == objs;
    var names := RecordedNames(objs + [o]);
    if IsRecorded(o) {
      assert names == RecordedNames(objs) + [FunctionName(o)];
      assert names[..|names| - 1] == RecordedNames(objs);
      assert names[|names| - 1] == FunctionName(o);
      assert FunctionName(o) in Observations(objs) <==> FunctionName(o) in RecordedNames(objs);
      if FunctionName(o) in Observations(objs) {
        assert Dedup(names) == Dedup(RecordedNames(objs));
      } else {
        assert Dedup(names) == Dedup(RecordedNames(objs)) + [FunctionName(o)];
      }
    } else {
      assert names == RecordedNames(objs) + [];
      assert names == RecordedNames(objs);
    }
  }
}
