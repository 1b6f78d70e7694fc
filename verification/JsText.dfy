/** The JavaScript string primitives the agents rely on: `toLowerCase`, `includes`,
    `trim`, `split('\n')`, `Array.prototype.join`, and the character classes `\s` and
    `\w` of a non-unicode regular expression. */
module JsText {

  import opened Options

  /** `\s` in a JavaScript regular expression, and what `String.prototype.trim` strips:
      the WhiteSpace and LineTerminator code points of ECMA-262. */
  predicate IsSpace(c: char) {
    c == ' ' || c == '\t' || c == '\n' || c == '\U{B}' || c == '\U{C}' || c == '\r'
    || c == '\U{A0}' || c == '\U{1680}' || ('\U{2000}' <= c <= '\U{200A}')
    || c == '\U{2028}' || c == '\U{2029}' || c == '\U{202F}' || c == '\U{205F}'
    || c == '\U{3000}' || c == '\U{FEFF}'
  }

  /** `\w` without the unicode flag: `[A-Za-z0-9_]`. */
  predicate IsWordChar(c: char) {
    ('a' <= c <= 'z') || ('A' <= c <= 'Z') || ('0' <= c <= '9') || c == '_'
  }

  predicate IsUpper(c: char) { 'A' <= c <= 'Z' }

  function LowerChar(c: char): (r: char)
    ensures !IsUpper(r)
    ensures IsWordChar(r) <==> IsWordChar(c)
    ensures IsSpace(r) <==> IsSpace(c)
  {
    if IsUpper(c) then (c as int + 32) as char else c
  }

  function UpperChar(c: char): (r: char)
    ensures 'a' <= c <= 'z' ==> IsUpper(r) && LowerChar(r) == c
    ensures !('a' <= c <= 'z') ==> r == c
  {
    if 'a' <= c <= 'z' then (c as int - 32) as char else c
  }

  /** `String.prototype.toLowerCase`, on the ASCII letters. */
  function Lower(s: string): (r: string)
    ensures |r| == |s|
    ensures forall i :: 0 <= i < |s| ==> r[i] == LowerChar(s[i])
  {
    if s == [] then [] else [LowerChar(s[0])] + Lower(s[1..])
  }

  /** Lowering twice is lowering once, so a lowercased key looks up the same entry. */
  lemma LowerIdempotent(s: string)
    ensures Lower(Lower(s)) == Lower(s)
  {
    var l := Lower(s);
    assert forall i :: 0 <= i < |l| ==> LowerChar(l[i]) == l[i];
  }

  /** Text without capitals is its own lowercase form. */
  lemma LowerOfLowercase(s: string)
    requires forall i :: 0 <= i < |s| ==> !IsUpper(s[i])
    ensures Lower(s) == s
  {
  }

  /** `str.startsWith(lit, i)`. */
  predicate StartsAt(t: string, i: nat, lit: string) {
    i + |lit| <= |t| && t[i..i + |lit|] == lit
  }

  /** The first position at or after `i` where `k` occurs, as `indexOf` finds it. */
  function IndexFrom(t: string, k: string, i: nat): (r: Option<nat>)
    ensures r.Some? ==> i <= r.value && StartsAt(t, r.value, k)
    ensures r.Some? ==> forall j :: i <= j < r.value ==> !StartsAt(t, j, k)
    ensures r.None? ==> forall j :: i <= j ==> !StartsAt(t, j, k)
    decreases |t| - i
  {
    if i + |k| > |t| then None
    else if t[i..i + |k|] == k then Some(i)
    else IndexFrom(t, k, i + 1)
  }

  /** `t.includes(k)`. */
  predicate Contains(t: string, k: string) {
    IndexFrom(t, k, 0).Some?
  }

  lemma ContainsIff(t: string, k: string)
    ensures Contains(t, k) <==> exists i :: StartsAt(t, i, k)
  {
    if Contains(t, k) {
      assert StartsAt(t, IndexFrom(t, k, 0).value, k);
    }
  }

  /** Witness form of `includes`: one occurrence is enough. */
  lemma ContainsAt(t: string, k: string, i: nat)
    requires StartsAt(t, i, k)
    ensures Contains(t, k)
  {
  }

  /** A text that has `k` as a part of a concatenation contains `k`. */
  lemma ContainsInConcat(a: string, k: string, b: string)
    ensures Contains(a + k + b, k)
  {
    assert (a + k + b)[|a|..|a| + |k|] == k;
    ContainsAt(a + k + b, k, |a|);
  }

  /** A text without the first character of `k` does not contain `k`. */
  lemma FirstCharAbsent(t: string, k: string)
    requires k != [] && k[0] !in t
    ensures !Contains(t, k)
  {
  }

  /** A text whose only occurrence of the first character of `k` opens it, and does not
      open `k` there, does not contain `k`. */
  lemma FirstCharOnlyAtStart(t: string, k: string)
    requires k != [] && t != [] && k[0] !in t[1..] && !StartsAt(t, 0, k)
    ensures !Contains(t, k)
  {
  }

  /** The first position at or after `i` holding the character `c`. */
  function CharFrom(t: string, c: char, i: nat): (r: Option<nat>)
    ensures r.Some? ==> i <= r.value < |t| && t[r.value] == c
    ensures r.Some? ==> forall j :: i <= j < r.value ==> t[j] != c
    ensures r.None? ==> forall j :: i <= j < |t| ==> t[j] != c
    decreases |t| - i
  {
    if i >= |t| then None
    else if t[i] == c then Some(i)
    else CharFrom(t, c, i + 1)
  }

  /** `s.trimStart()`. */
  function TrimStart(s: string): (r: string)
    ensures |r| <= |s| && r == s[|s| - |r|..]
    ensures r != [] ==> !IsSpace(r[0])
    ensures forall i :: 0 <= i < |s| - |r| ==> IsSpace(s[i])
  {
    if s != [] && IsSpace(s[0]) then TrimStart(s[1..]) else s
  }

  /** `s.trimEnd()`. */
  function TrimEnd(s: string): (r: string)
    ensures |r| <= |s| && r == s[..|r|]
    ensures r != [] ==> !IsSpace(r[|r| - 1])
    ensures forall i :: |r| <= i < |s| ==> IsSpace(s[i])
  {
    if s != [] && IsSpace(s[|s| - 1]) then TrimEnd(s[..|s| - 1]) else s
  }

  /** `s.trim()`. */
  function Trim(s: string): string {
    TrimEnd(TrimStart(s))
  }

  /** `!line.trim()` holds exactly for the lines made only of white space. */
  lemma TrimEmptyIff(s: string)
    ensures Trim(s) == [] <==> forall i :: 0 <= i < |s| ==> IsSpace(s[i])
  {
    var a := TrimStart(s);
    assert a != [] ==> IsSpace(a[0]) == (Trim(s) == []);
    if Trim(s) != [] && a != [] {
      assert !IsSpace(a[0]) && a[0] == s[|s| - |a|];
    }
  }

  /** `s.split(sep)` for a one-character separator: the pieces between separators,
      with an empty piece wherever two separators touch or one stands at an end. */
  function Split(s: string, sep: char): (r: seq<string>)
    ensures |r| >= 1
    decreases |s|
  {
    if s == [] then [[]]
    else
      var rest := Split(s[1..], sep);
      if s[0] == sep then [[]] + rest else [[s[0]] + rest[0]] + rest[1..]
  }

  /** `pieces.join(sep)`. */
  function Join(pieces: seq<string>, sep: string): string {
    if pieces == [] then []
    else if |pieces| == 1 then pieces[0]
    else pieces[0] + sep + Join(pieces[1..], sep)
  }

  /** No piece of a split holds the separator. */
  lemma {:induction false} SplitPiecesFree(s: string, sep: char)
    ensures forall k :: 0 <= k < |Split(s, sep)| ==> sep !in Split(s, sep)[k]
    decreases |s|
  {
    if s != [] {
      SplitPiecesFree(s[1..], sep);
    }
  }

  /** Joining the pieces of a split gives the text back. */
  lemma {:induction false} JoinSplit(s: string, sep: char)
    ensures Join(Split(s, sep), [sep]) == s
    decreases |s|
  {
    if s != [] {
      var rest := Split(s[1..], sep);
      JoinSplit(s[1..], sep);
      if s[0] == sep {
        assert Split(s, sep) == [[]] + rest;
      } else {
        assert Split(s, sep)[1..] == rest[1..];
      }
    }
  }

  /** Splitting a join of separator-free pieces gives the pieces back. */
  lemma {:induction false} SplitJoin(pieces: seq<string>, sep: char)
    requires |pieces| >= 1
    requires forall k :: 0 <= k < |pieces| ==> sep !in pieces[k]
    ensures Split(Join(pieces, [sep]), sep) == pieces
    decreases |pieces|, |pieces[0]|
  {
    var p := pieces[0];
    if p == [] {
      if |pieces| > 1 {
        var j := Join(pieces[1..], [sep]);
        assert Join(pieces, [sep]) == [sep] + j;
        assert ([sep] + j)[1..] == j;
        SplitJoin(pieces[1..], sep);
      }
    } else {
      var shorter := [p[1..]] + pieces[1..];
      assert shorter[1..] == pieces[1..];
      if |pieces| > 1 {
        assert Join(pieces, [sep]) == [p[0]] + Join(shorter, [sep]);
      } else {
        assert Join(pieces, [sep]) == [p[0]] + Join(shorter, [sep]);
      }
      SplitJoin(shorter, sep);
      assert Join(pieces, [sep])[1..] == Join(shorter, [sep]);
      assert [p[0]] + p[1..] == p;
      assert pieces == [p] + pieces[1..];
    }
  }

  /** `city.charAt(0).toUpperCase() + city.slice(1)`. */
  function Capitalize(s: string): (r: string)
    ensures |r| == |s| && (s != [] ==> r[1..] == s[1..])
    ensures s != [] && 'a' <= s[0] <= 'z' ==> IsUpper(r[0]) && Lower(r) == Lower(s)
    ensures s == [] || !('a' <= s[0] <= 'z') ==> r == s
  {
    if s == [] then [] else [UpperChar(s[0])] + s[1..]
  }
}
