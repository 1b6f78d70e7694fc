/** The regular expressions of `processAIResponse`, each written out as a matcher that
    follows the backtracking order of a JavaScript regular expression: greedy
    quantifiers, optional groups tried before they are skipped, alternatives tried left
    to right, and the leftmost starting position winning. The keyword patterns run on a
    lowercased text with only lowercase letters in them, so their `i` flag changes
    nothing there. */
module Patterns {

  import opened Options
  import opened JsText

  /** A non-empty run of `\w` characters: what `(\w+)` can capture. */
  predicate IsWord(w: string) {
    w != [] && forall k :: 0 <= k < |w| ==> IsWordChar(w[k])
  }

  /** A run of `\w` characters that cannot be extended to the right: what a greedy
      `(\w+)` at the end of a pattern captures. */
  ghost predicate IsWordRun(t: string, q: nat, w: string) {
    IsWord(w) && q + |w| <= |t| && t[q..q + |w|] == w
    && (q + |w| == |t| || !IsWordChar(t[q + |w|]))
  }

  /** The number of `\s` characters in the run that starts at `i` (greedy `\s*`). */
  function SpacesFrom(t: string, i: nat): (n: nat)
    requires i <= |t|
    ensures i + n <= |t|
    ensures i + n < |t| ==> !IsSpace(t[i + n])
    decreases |t| - i
  {
    if i < |t| && IsSpace(t[i]) then 1 + SpacesFrom(t, i + 1) else 0
  }

  /** Every character of the run is a `\s` character. */
  lemma {:induction false} SpacesFromAreSpaces(t: string, i: nat)
    requires i <= |t|
    ensures forall j :: i <= j < i + SpacesFrom(t, i) ==> IsSpace(t[j])
    decreases |t| - i
  {
    if i < |t| && IsSpace(t[i]) {
      SpacesFromAreSpaces(t, i + 1);
    }
  }

  /** Where the run of `\w` characters that starts at `i` ends. */
  function WordEnd(t: string, i: nat): (e: nat)
    requires i <= |t|
    ensures i <= e <= |t|
    ensures e < |t| ==> !IsWordChar(t[e])
    decreases |t| - i
  {
    if i < |t| && IsWordChar(t[i]) then WordEnd(t, i + 1) else i
  }

  /** Every character of the run is a `\w` character. */
  lemma {:induction false} WordEndAreWordChars(t: string, i: nat)
    requires i <= |t|
    ensures forall j :: i <= j < WordEnd(t, i) ==> IsWordChar(t[j])
    decreases |t| - i
  {
    if i < |t| && IsWordChar(t[i]) {
      WordEndAreWordChars(t, i + 1);
    }
  }

  /** A run of `\w` characters from `i` that stops at `e` ends at `e`. */
  lemma {:induction false} WordEndOfRun(t: string, i: nat, e: nat)
    requires i <= e <= |t| && forall j :: i <= j < e ==> IsWordChar(t[j])
    requires e == |t| || !IsWordChar(t[e])
    ensures WordEnd(t, i) == e
    decreases e - i
  {
    if i < e {
      WordEndOfRun(t, i + 1, e);
    }
  }

  /** `(\w+)` at `q`. */
  function WordAt(t: string, q: nat): (r: Option<string>)
    requires q <= |t|
    ensures r.Some? ==> IsWordRun(t, q, r.value)
    ensures r.None? <==> q == |t| || !IsWordChar(t[q])
  {
    if q < |t| && IsWordChar(t[q]) then
      WordEndAreWordChars(t, q);
      Some(t[q..WordEnd(t, q)])
    else None
  }

  /** `\s+(\w+)` anchored at `i`. Giving back spaces cannot help, since `\w` never
      matches a space, so only the greedy choice is tried. */
  function SpaceWord(t: string, i: nat): (r: Option<string>)
    requires i <= |t|
    ensures r.Some? ==> SpacesFrom(t, i) >= 1 && IsWordRun(t, i + SpacesFrom(t, i), r.value)
    ensures r.None? ==> SpacesFrom(t, i) == 0 || WordAt(t, i + SpacesFrom(t, i)).None?
  {
    var k := SpacesFrom(t, i);
    if k >= 1 then WordAt(t, i + k) else None
  }

  /** `\s+LIT` anchored at `i`: the position right after `LIT`, or 0 when it does not
      match there. `LIT` starts with a letter, so giving back spaces cannot help. */
  function SpacedLit(t: string, i: nat, lit: string): (j: nat)
    requires i <= |t|
    ensures j > 0 ==> i < j <= |t|
    ensures j > 0 <==> SpacesFrom(t, i) >= 1 && StartsAt(t, i + SpacesFrom(t, i), lit)
    ensures j > 0 ==> j == i + SpacesFrom(t, i) + |lit|
  {
    var k := SpacesFrom(t, i);
    if k >= 1 && StartsAt(t, i + k, lit) then i + k + |lit| else 0
  }

  /** The optional group `(?:\s+LIT)` matches at `i` and a `\s+(\w+)` matches after it. */
  predicate GroupThenWord(t: string, i: nat, lit: string)
    requires i <= |t|
  {
    SpacedLit(t, i, lit) > 0 && SpaceWord(t, SpacedLit(t, i, lit)).Some?
  }

  /** `(?:\s+LIT)?\s+(\w+)` anchored at `i`: the optional group is tried first, and when
      what follows it fails the group is skipped. `LIT` starts with a letter, so fewer
      spaces inside the group cannot help. */
  function OptionalThenWord(t: string, i: nat, lit: string): (r: Option<string>)
    requires i <= |t|
    ensures r.Some? ==> IsWord(r.value)
    ensures SpaceWord(t, i).Some? ==> r.Some?
    // the group decides what is captured, never whether the regex matches
    ensures lit != [] && IsWordChar(lit[0]) ==> (r.Some? <==> SpaceWord(t, i).Some?)
    // the group wins whenever a word follows it, even when `LIT` is itself a word
    ensures GroupThenWord(t, i, lit) ==> r == SpaceWord(t, SpacedLit(t, i, lit))
    // otherwise the word right after the spaces is captured, `LIT` included
    ensures !GroupThenWord(t, i, lit) ==> r == SpaceWord(t, i)
  {
    if GroupThenWord(t, i, lit) then SpaceWord(t, SpacedLit(t, i, lit)) else SpaceWord(t, i)
  }

  /** `\s+(?:in\s+)?(\w+)` anchored at `i`. */
  function SpacesOptionalInWord(t: string, i: nat): (r: Option<string>)
    requires i <= |t|
    ensures r.Some? ==> IsWord(r.value)
    ensures r.Some? <==> SpaceWord(t, i).Some?
    // `in` and the spaces after it are skipped when a word follows them
    ensures GroupThenWord(t, i, "in") ==> r == SpaceWord(t, SpacedLit(t, i, "in"))
    // otherwise the word right after the spaces is captured, `in` included
    ensures !GroupThenWord(t, i, "in") ==> r == SpaceWord(t, i)
  {
    // `\s+` then `in\s+` ends where `\s+in` does
    var afterIn := SpacedLit(t, i, "in");
    if SpacesFrom(t, i) == 0 then None
    else if afterIn > 0 && SpaceWord(t, afterIn).Some? then SpaceWord(t, afterIn)
    else WordAt(t, i + SpacesFrom(t, i))
  }

  /** `\s+(?:in\s+)?(\w+)` and `(?:\s+in)?\s+(\w+)` capture the same word everywhere. */
  lemma SpacesOptionalInIsOptionalIn(t: string, i: nat)
    requires i <= |t|
    ensures SpacesOptionalInWord(t, i) == OptionalThenWord(t, i, "in")
  {
  }

  /** The regular expressions the response interpreter uses to capture a city. */
  datatype Pattern =
    | BestTimeToVisitRe   // /best time to visit\s+(\w+)/i
    | WeatherInRe         // /weather(?:\s+in)?\s+(\w+)/i
    | ForecastRe          // /(?:weather\s+)?forecast(?:\s+for)?\s+(\w+)/i
    | PlacesRe            // /(?:places|attractions|sights)(?:\s+to\s+visit)?\s+(?:in\s+)?(\w+)/i
    | FoodRe              // /(?:food|cuisine|dishes)(?:\s+in)?\s+(\w+)/i
    | DestinationsRe      // /(?:destinations|tourist\s+spots)(?:\s+in)?\s+(\w+)/i
    | CityRe              // /(?:about|in|for|visit)\s+(\w+)/i

  /** The alternations that open the places, food, destinations and city patterns. */
  const PlacesWords: seq<string> := ["places", "attractions", "sights"]
  const FoodWords: seq<string> := ["food", "cuisine", "dishes"]
  const DestinationWords: seq<string> := ["destinations"]
  const CityWords: seq<string> := ["about", "in", "for", "visit"]

  /** The alternative `a` can begin a match at `p`. */
  predicate Opens(t: string, p: nat, a: string) {
    a != [] && StartsAt(t, p, a)
  }

  /** The length of the first of the alternatives that starts at `p`, or 0. None of the
      alternatives used here is a prefix of a later one, so taking the first that starts
      is what backtracking would settle on. */
  function Alternative(t: string, p: nat, alts: seq<string>): (n: nat)
    ensures n > 0 ==> p + n <= |t|
  {
    if alts == [] then 0
    else if Opens(t, p, alts[0]) then |alts[0]|
    else Alternative(t, p, alts[1..])
  }

  /** The alternation fails exactly when no alternative opens at `p`. */
  lemma {:induction false} AlternativeNone(t: string, p: nat, alts: seq<string>)
    ensures Alternative(t, p, alts) == 0 <==> forall k :: 0 <= k < |alts| ==> !Opens(t, p, alts[k])
  {
    if alts != [] && !Opens(t, p, alts[0]) {
      AlternativeNone(t, p, alts[1..]);
      assert forall k :: 1 <= k < |alts| ==> alts[k] == alts[1..][k - 1];
    }
  }

  /** A non-zero length is that of an alternative that opens at `p`, and of the first. */
  lemma {:induction false} AlternativeFirst(t: string, p: nat, alts: seq<string>)
    requires Alternative(t, p, alts) > 0
    ensures exists k :: 0 <= k < |alts| && Opens(t, p, alts[k]) && Alternative(t, p, alts) == |alts[k]|
                        && forall j :: 0 <= j < k ==> !Opens(t, p, alts[j])
  {
    if !Opens(t, p, alts[0]) {
      AlternativeFirst(t, p, alts[1..]);
      var k :| 0 <= k < |alts[1..]| && Opens(t, p, alts[1..][k]) && Alternative(t, p, alts[1..]) == |alts[1..][k]|
               && forall j :: 0 <= j < k ==> !Opens(t, p, alts[1..][j]);
      assert alts[k + 1] == alts[1..][k];
      forall j | 0 <= j < k + 1 ensures !Opens(t, p, alts[j]) {
        if j > 0 { assert alts[j] == alts[1..][j - 1]; }
      }
    }
  }

  /** The alternation takes the first alternative that opens at `p`. */
  lemma {:induction false} AlternativePicks(t: string, p: nat, alts: seq<string>, k: nat)
    requires k < |alts| && Opens(t, p, alts[k])
    requires forall j :: 0 <= j < k ==> !Opens(t, p, alts[j])
    ensures Alternative(t, p, alts) == |alts[k]|
    decreases k
  {
    if k > 0 {
      assert alts[k] == alts[1..][k - 1];
      forall j | 0 <= j < k - 1 ensures !Opens(t, p, alts[1..][j]) {
        assert alts[1..][j] == alts[j + 1];
      }
      AlternativePicks(t, p, alts[1..], k - 1);
    }
  }

  /** The end of `tourist\s+spots` at `p`, or 0. */
  function TouristSpots(t: string, p: nat): (e: nat)
    ensures e > 0 ==> p < e <= |t|
  {
    if StartsAt(t, p, "tourist") then SpacedLit(t, p + 7, "spots") else 0
  }

  /** `best time to visit\s+(\w+)` at `p`: the word after the phrase and its spaces. */
  function BestTimeToVisitAt(t: string, p: nat): (r: Option<string>)
    ensures r.Some? <==> StartsAt(t, p, "best time to visit") && SpaceWord(t, p + 18).Some?
    ensures r.Some? ==> IsWordRun(t, p + 18 + SpacesFrom(t, p + 18), r.value)
  {
    if StartsAt(t, p, "best time to visit") then SpaceWord(t, p + 18) else None
  }

  /** `weather(?:\s+in)?\s+(\w+)` at `p`. */
  function WeatherInAt(t: string, p: nat): (r: Option<string>)
    ensures r.Some? <==> StartsAt(t, p, "weather") && SpaceWord(t, p + 7).Some?
    // `in` is skipped when a word follows it, and captured otherwise
    ensures StartsAt(t, p, "weather") && GroupThenWord(t, p + 7, "in") ==> r == SpaceWord(t, SpacedLit(t, p + 7, "in"))
    ensures StartsAt(t, p, "weather") && !GroupThenWord(t, p + 7, "in") ==> r == SpaceWord(t, p + 7)
  {
    if StartsAt(t, p, "weather") then OptionalThenWord(t, p + 7, "in") else None
  }

  /** `(?:weather\s+)?forecast(?:\s+for)?\s+(\w+)` at `p`: the optional prefix first. */
  function ForecastAt(t: string, p: nat): (r: Option<string>)
    ensures r.Some? ==> StartsAt(t, p, "forecast") || StartsAt(t, p, "weather")
    ensures StartsAt(t, p, "forecast") && SpaceWord(t, p + 8).Some? ==> r.Some?
    // it matches through `weather\s+forecast` or through `forecast` alone, and only then
    ensures r.Some? <==> (StartsAt(t, p, "weather") && SpacedLit(t, p + 7, "forecast") > 0
                          && SpaceWord(t, SpacedLit(t, p + 7, "forecast")).Some?)
                         || (StartsAt(t, p, "forecast") && SpaceWord(t, p + 8).Some?)
  {
    var f := if StartsAt(t, p, "weather") then SpacedLit(t, p + 7, "forecast") else 0;
    var viaWeather := if f > 0 then OptionalThenWord(t, f, "for") else None;
    if viaWeather.Some? then viaWeather
    else if StartsAt(t, p, "forecast") then OptionalThenWord(t, p + 8, "for")
    else None
  }

  /** `(?:\s+to\s+visit)\s+(?:in\s+)?(\w+)` at `i`: the optional group of the places
      pattern taken, with what must follow it. */
  function ToVisitThenWord(t: string, i: nat): (r: Option<string>)
    requires i <= |t|
  {
    var afterTo := SpacedLit(t, i, "to");
    if afterTo == 0 then None
    else
      var afterVisit := SpacedLit(t, afterTo, "visit");
      if afterVisit == 0 then None else SpacesOptionalInWord(t, afterVisit)
  }

  /** The group starts with spaces and a word, `to`, so `\s+(\w+)` matches where it does. */
  lemma ToVisitNeedsSpaceWord(t: string, i: nat)
    requires i <= |t|
    ensures ToVisitThenWord(t, i).Some? ==> SpaceWord(t, i).Some?
  {
    if SpacedLit(t, i, "to") > 0 {
      assert t[i + SpacesFrom(t, i)] == "to"[0];
    }
  }

  /** `(?:\s+to\s+visit)?\s+(?:in\s+)?(\w+)` at `q`: the optional group first, skipped
      when what follows it fails. */
  function PlacesTail(t: string, q: nat): (r: Option<string>)
    requires q <= |t|
    ensures r.Some? <==> SpaceWord(t, q).Some?
  {
    var viaToVisit := ToVisitThenWord(t, q);
    ToVisitNeedsSpaceWord(t, q);
    if viaToVisit.Some? then viaToVisit else SpacesOptionalInWord(t, q)
  }

  /** `(?:places|attractions|sights)(?:\s+to\s+visit)?\s+(?:in\s+)?(\w+)` at `p`. */
  function PlacesAt(t: string, p: nat): (r: Option<string>)
    ensures var n := Alternative(t, p, PlacesWords);
            r.Some? <==> n > 0 && SpaceWord(t, p + n).Some?
  {
    var n := Alternative(t, p, PlacesWords);
    if n > 0 then PlacesTail(t, p + n) else None
  }

  /** `(?:food|cuisine|dishes)(?:\s+in)?\s+(\w+)` at `p`. */
  function FoodAt(t: string, p: nat): (r: Option<string>)
    ensures var n := Alternative(t, p, FoodWords);
            r.Some? <==> n > 0 && SpaceWord(t, p + n).Some?
    ensures var n := Alternative(t, p, FoodWords);
            n > 0 && GroupThenWord(t, p + n, "in") ==> r == SpaceWord(t, SpacedLit(t, p + n, "in"))
    ensures var n := Alternative(t, p, FoodWords);
            n > 0 && !GroupThenWord(t, p + n, "in") ==> r == SpaceWord(t, p + n)
  {
    var n := Alternative(t, p, FoodWords);
    if n == 0 then None else OptionalThenWord(t, p + n, "in")
  }

  /** `(?:destinations|tourist\s+spots)(?:\s+in)?\s+(\w+)` at `p`. */
  function DestinationsAt(t: string, p: nat): (r: Option<string>)
    ensures r.Some? ==> StartsAt(t, p, "destinations") || StartsAt(t, p, "tourist")
    ensures StartsAt(t, p, "destinations") ==> (r.Some? <==> SpaceWord(t, p + 12).Some?)
    // after `destinations`, `in` is skipped when a word follows it, and captured otherwise
    ensures StartsAt(t, p, "destinations") && GroupThenWord(t, p + 12, "in")
            ==> r == SpaceWord(t, SpacedLit(t, p + 12, "in"))
    ensures StartsAt(t, p, "destinations") && !GroupThenWord(t, p + 12, "in") ==> r == SpaceWord(t, p + 12)
    // otherwise `tourist\s+spots` must open it, followed by spaces and a word
    ensures !StartsAt(t, p, "destinations")
            ==> (r.Some? <==> TouristSpots(t, p) > 0 && SpaceWord(t, TouristSpots(t, p)).Some?)
  {
    var n := Alternative(t, p, DestinationWords);
    var e := if n > 0 then p + n else TouristSpots(t, p);
    AlternativeNone(t, p, DestinationWords);
    assert n > 0 ==> n == 12;
    if e == 0 then None else OptionalThenWord(t, e, "in")
  }

  /** `(?:about|in|for|visit)\s+(\w+)` at `p`: the first of the words that starts at `p`
      must be followed by spaces and a word; no other word is tried there. */
  function CityAt(t: string, p: nat): (r: Option<string>)
    ensures var n := Alternative(t, p, CityWords);
            r.Some? <==> n > 0 && SpaceWord(t, p + n).Some?
    // the word after the keyword and its spaces, up to its last `\w` character
    ensures var n := Alternative(t, p, CityWords);
            r.Some? ==> n > 0 && IsWordRun(t, p + n + SpacesFrom(t, p + n), r.value)
  {
    var n := Alternative(t, p, CityWords);
    if n == 0 then None else SpaceWord(t, p + n)
  }

  /** A city match starts with the first letter of one of the four words. */
  lemma CityStartsWithKeyLetter(t: string, p: nat)
    ensures CityAt(t, p).Some? ==> p < |t| && t[p] in "aifv"
  {
    if CityAt(t, p).Some? {
      var alts := CityWords;
      AlternativeNone(t, p, alts);
      if Opens(t, p, "about") {
        assert t[p] == t[p..p + 5][0];
      } else if Opens(t, p, "in") {
        assert t[p] == t[p..p + 2][0];
      } else if Opens(t, p, "for") {
        assert t[p] == t[p..p + 3][0];
      } else {
        assert !Opens(t, p, alts[0]) && !Opens(t, p, alts[1]) && !Opens(t, p, alts[2]);
        assert Opens(t, p, alts[3]);
        assert t[p] == t[p..p + 5][0];
      }
    }
  }

  /** The capture of a match that starts exactly at `p`, if the pattern matches there:
      always a non-empty run of `\w` characters. */
  function MatchAt(pat: Pattern, t: string, p: nat): (r: Option<string>)
    ensures r.Some? ==> IsWord(r.value)
  {
    match pat
    case BestTimeToVisitRe => BestTimeToVisitAt(t, p)
    case WeatherInRe => WeatherInAt(t, p)
    case ForecastRe => ForecastAt(t, p)
    case PlacesRe => PlacesAt(t, p)
    case FoodRe => FoodAt(t, p)
    case DestinationsRe => DestinationsAt(t, p)
    case CityRe => CityAt(t, p)
  }

  /** A match found by a search: where it starts and what group 1 captured. */
  datatype Found = Found(at: nat, capture: string)

  /** The search `exec` performs without the `g` flag: the first starting position `q`,
      from `p` up to `last`, at which `matchAt(q)` reports a match. */
  function Search(matchAt: nat -> Option<string>, p: nat, last: nat): (r: Option<Found>)
    ensures r.Some? ==> p <= r.value.at <= last && matchAt(r.value.at) == Some(r.value.capture)
    ensures r.Some? ==> forall q :: p <= q < r.value.at ==> matchAt(q).None?
    ensures r.None? ==> forall q :: p <= q <= last ==> matchAt(q).None?
    decreases last + 1 - p
  {
    if p > last then None
    else
      match matchAt(p)
      case Some(c) => Some(Found(p, c))
      case None => Search(matchAt, p + 1, last)
  }

  /** The pattern tried at each starting position of `t`. */
  function MatcherOf(pat: Pattern, t: string): (m: nat -> Option<string>)
    ensures forall q :: m(q) == MatchAt(pat, t, q)
  {
    (q: nat) => MatchAt(pat, t, q)
  }

  /** `text.match(re)` / `re.exec(text)`: group 1 of the leftmost match. */
  function Exec(pat: Pattern, t: string): (r: Option<string>)
    ensures r.Some? ==> IsWord(r.value)
    ensures r.None? <==> forall q :: 0 <= q <= |t| ==> MatchAt(pat, t, q).None?
  {
    match Search(MatcherOf(pat, t), 0, |t|)
    case Some(f) => Some(f.capture)
    case None => None
  }

  /** The leftmost match decides: when the pattern matches at `p` and nowhere before, the
      capture is the one at `p`, whatever later positions would capture. */
  lemma ExecLeftmost(pat: Pattern, t: string, p: nat)
    requires p <= |t| && MatchAt(pat, t, p).Some?
    requires forall q :: 0 <= q < p ==> MatchAt(pat, t, q).None?
    ensures Exec(pat, t) == MatchAt(pat, t, p)
  {
    var r := Search(MatcherOf(pat, t), 0, |t|);
    assert r.Some?;
    assert r.value.at == p;
  }

  /** `/{[\s\S]*?}/g` run by `exec` from `lastIndex == from`: the match runs from the
      first `{` at or after `from` to the first `}` after that `{`. When that `{` has no
      `}` after it, neither has any later `{`, and the search fails. */
  function NextCandidate(t: string, from: nat): (r: Option<(nat, nat)>)
    ensures r.Some? ==> from <= r.value.0 < r.value.1 <= |t|
    ensures r.Some? ==> t[r.value.0] == '{' && t[r.value.1 - 1] == '}'
    ensures r.Some? ==> forall j :: r.value.0 < j < r.value.1 - 1 ==> t[j] != '}'
    ensures r.Some? ==> forall j :: from <= j < r.value.0 ==> t[j] != '{'
    ensures r.None? <==> forall i, j :: from <= i < j < |t| && t[i] == '{' ==> t[j] != '}'
  {
    match CharFrom(t, '{', from)
    case None => None
    case Some(b) =>
      match CharFrom(t, '}', b + 1)
      case None => None
      case Some(c) => Some((b, c + 1))
  }

  /** One space, then the word `w` ending the run of word characters. */
  lemma OneSpaceThenWord(t: string, i: nat, w: string)
    requires i + 1 + |w| <= |t|
    requires t[i] == ' ' && t[i + 1..i + 1 + |w|] == w
    requires IsWord(w)
    requires i + 1 + |w| == |t| || !IsWordChar(t[i + 1 + |w|])
    ensures SpaceWord(t, i) == Some(w)
  {
    assert t[i + 1] == w[0] && w[0] in w;
    assert SpacesFrom(t, i) == 1;
    forall j | i + 1 <= j < i + 1 + |w| ensures IsWordChar(t[j]) {
      assert t[j] == w[j - i - 1];
    }
    WordEndOfRun(t, i + 1, i + 1 + |w|);
  }

  /** A single space before a word character is a run of one space. */
  lemma OneSpace(t: string, i: nat)
    requires i + 1 < |t| && t[i] == ' ' && IsWordChar(t[i + 1])
    ensures SpacesFrom(t, i) == 1
  {
    assert !IsSpace(t[i + 1]);
    assert SpacesFrom(t, i + 1) == 0;
  }

  /** One space and then `LIT`, which starts with a word character: `\s+LIT` ends at `j`.
      `h` is where `LIT` starts. */
  lemma SpacedLitAt(t: string, i: nat, h: nat, lit: string, j: nat)
    requires lit != [] && IsWordChar(lit[0]) && h == i + 1 && j == h + |lit| <= |t|
    requires t[i] == ' ' && t[h..j] == lit
    ensures SpacedLit(t, i, lit) == j
  {
    assert t[h] == lit[0];
    OneSpace(t, i);
    assert StartsAt(t, h, lit);
  }

  /** One space and then a word character that does not begin `LIT`: `\s+LIT` fails. */
  lemma SpacedLitAbsent(t: string, i: nat, h: nat, lit: string)
    requires h == i + 1 < |t| && t[i] == ' ' && IsWordChar(t[h]) && !StartsAt(t, h, lit)
    ensures SpacedLit(t, i, lit) == 0
  {
    OneSpace(t, i);
  }

  /** The optional group `(?:\s+LIT)` is taken when a word follows it. */
  lemma GroupTaken(t: string, i: nat, lit: string, j: nat, w: string)
    requires i <= |t| && SpacedLit(t, i, lit) == j > 0 && SpaceWord(t, j) == Some(w)
    ensures OptionalThenWord(t, i, lit) == Some(w)
  {
  }

  /** The optional group is skipped when it does not match or no word follows it. */
  lemma GroupSkipped(t: string, i: nat, lit: string, w: string)
    requires i <= |t| && SpaceWord(t, i) == Some(w) && !GroupThenWord(t, i, lit)
    ensures OptionalThenWord(t, i, lit) == Some(w)
  {
  }

  // ---------------------------------------------------------------- how each pattern composes
  // Each pattern at `p` is its opening words followed by the tail matcher above: these
  // lemmas name the capture once the opening and the tail are known. Positions are
  // passed explicitly, so that a fixed text needs no arithmetic to use them.

  lemma WeatherInThen(t: string, p: nat, q: nat, w: string)
    requires StartsAt(t, p, "weather") && q == p + 7 && OptionalThenWord(t, q, "in") == Some(w)
    ensures WeatherInAt(t, p) == Some(w)
  {
  }

  /** Without `weather` in front, `forecast` opens the match. */
  lemma ForecastThen(t: string, p: nat, q: nat, w: string)
    requires !StartsAt(t, p, "weather")
    requires StartsAt(t, p, "forecast") && q == p + 8 && OptionalThenWord(t, q, "for") == Some(w)
    ensures ForecastAt(t, p) == Some(w)
  {
  }

  /** With `weather\s+` in front, the optional prefix is taken when what follows matches. */
  lemma WeatherForecastThen(t: string, p: nat, f: nat, q: nat, w: string)
    requires StartsAt(t, p, "weather") && f == p + 7 && f <= |t| && SpacedLit(t, f, "forecast") == q > 0
    requires OptionalThenWord(t, q, "for") == Some(w)
    ensures ForecastAt(t, p) == Some(w)
  {
  }

  /** `\s+to\s+visit` ends at `v`, and the `in` tail captures there. */
  lemma ToVisitThen(t: string, i: nat, a: nat, v: nat, w: string)
    requires i <= |t| && SpacedLit(t, i, "to") == a > 0 && SpacedLit(t, a, "visit") == v > 0
    requires SpacesOptionalInWord(t, v) == Some(w)
    ensures ToVisitThenWord(t, i) == Some(w)
  {
  }

  /** `\s+to` without `\s+visit` after it: the optional group of the places pattern fails. */
  lemma ToWithoutVisit(t: string, i: nat, a: nat)
    requires i <= |t| && SpacedLit(t, i, "to") == a > 0 && SpacedLit(t, a, "visit") == 0
    ensures ToVisitThenWord(t, i) == None
  {
  }

  /** The places pattern takes its optional group whenever what follows the group matches. */
  lemma ToVisitTaken(t: string, q: nat, w: string)
    requires q <= |t| && ToVisitThenWord(t, q) == Some(w)
    ensures PlacesTail(t, q) == Some(w)
  {
  }

  /** Otherwise the places pattern skips the group. */
  lemma ToVisitSkipped(t: string, q: nat, w: string)
    requires q <= |t| && ToVisitThenWord(t, q).None? && SpacesOptionalInWord(t, q) == Some(w)
    ensures PlacesTail(t, q) == Some(w)
  {
  }

  /** Whichever of `places`, `attractions` and `sights` opens the places pattern, the
      tail decides the capture from the end `q` of that word. */
  lemma PlacesThen(t: string, p: nat, n: nat, q: nat)
    requires n > 0 && Alternative(t, p, PlacesWords) == n && q == p + n
    ensures q <= |t| && PlacesAt(t, p) == PlacesTail(t, q)
  {
  }

  lemma FoodThen(t: string, p: nat, n: nat, q: nat, w: string)
    requires n > 0 && Alternative(t, p, FoodWords) == n
    requires q == p + n && OptionalThenWord(t, q, "in") == Some(w)
    ensures FoodAt(t, p) == Some(w)
  {
  }

  /** `tourist\s+spots` ends at `e`. */
  lemma TouristSpotsThen(t: string, p: nat, f: nat, e: nat)
    requires StartsAt(t, p, "tourist") && f == p + 7 && SpacedLit(t, f, "spots") == e
    ensures TouristSpots(t, p) == e
  {
  }

  /** `tourist\s+spots` opens the destinations pattern when `destinations` does not. */
  lemma DestinationsThen(t: string, p: nat, q: nat, w: string)
    requires !Opens(t, p, "destinations") && TouristSpots(t, p) == q > 0
    requires OptionalThenWord(t, q, "in") == Some(w)
    ensures DestinationsAt(t, p) == Some(w)
  {
    assert Alternative(t, p, DestinationWords) == 0;
  }

  lemma CityThen(t: string, p: nat, n: nat, q: nat, w: string)
    requires n > 0 && Alternative(t, p, CityWords) == n
    requires q == p + n && SpaceWord(t, q) == Some(w)
    ensures CityAt(t, p) == Some(w)
  {
  }

  /** No city match starts at a letter that opens none of the four words. */
  lemma NoCityAt(t: string, q: nat)
    requires q < |t| && t[q] != 'a' && t[q] != 'i' && t[q] != 'f' && t[q] != 'v'
    ensures MatchAt(CityRe, t, q).None?
  {
    CityStartsWithKeyLetter(t, q);
  }

  // ---------------------------------------------------------------- sample captures
  // What each pattern captures on a sample query. An optional group is taken when a
  // word follows it and skipped otherwise; `(\w+)` then takes the word right after the
  // spaces, which may be `in` itself or an unrelated word such as `of` or `to`.

  lemma BestTimeToVisitExample()
    ensures BestTimeToVisitAt("best time to visit delhi", 0) == Some("delhi")
  {
    var t := "best time to visit delhi";
    assert StartsAt(t, 0, "best time to visit") by { assert t[0..18] == "best time to visit"; }
    OneSpaceThenWord(t, 18, "delhi");
  }

  lemma InDelhiAfterWeather()
    ensures OptionalThenWord("weather in delhi", 7, "in") == Some("delhi")
  {
    var t := "weather in delhi";
    assert t[7] == ' ' && t[8..10] == "in" && t[10] == ' ' && t[11..16] == "delhi";
    SpacedLitAt(t, 7, 8, "in", 10);
    OneSpaceThenWord(t, 10, "delhi");
    GroupTaken(t, 7, "in", 10, "delhi");
  }

  lemma WeatherInExample()
    ensures WeatherInAt("weather in delhi", 0) == Some("delhi")
  {
    var t := "weather in delhi";
    assert StartsAt(t, 0, "weather") by { assert t[0..7] == "weather"; }
    InDelhiAfterWeather();
    WeatherInThen(t, 0, 7, "delhi");
  }

  lemma DelhiAfterWeather()
    ensures OptionalThenWord("weather delhi", 7, "in") == Some("delhi")
  {
    var t := "weather delhi";
    assert t[7] == ' ' && t[8] == 'd' && t[8..13] == "delhi";
    assert !StartsAt(t, 8, "in");
    SpacedLitAbsent(t, 7, 8, "in");
    OneSpaceThenWord(t, 7, "delhi");
    GroupSkipped(t, 7, "in", "delhi");
  }

  lemma WeatherWithoutIn()
    ensures WeatherInAt("weather delhi", 0) == Some("delhi")
  {
    var t := "weather delhi";
    assert StartsAt(t, 0, "weather") by { assert t[0..7] == "weather"; }
    DelhiAfterWeather();
    WeatherInThen(t, 0, 7, "delhi");
  }

  lemma InAfterWeather()
    ensures OptionalThenWord("weather in", 7, "in") == Some("in")
  {
    var t := "weather in";
    assert t[7] == ' ' && t[8..10] == "in";
    assert SpacesFrom(t, 10) == 0;
    OneSpaceThenWord(t, 7, "in");
    GroupSkipped(t, 7, "in", "in");
  }

  lemma WeatherInCapturesIn()
    ensures WeatherInAt("weather in", 0) == Some("in")
  {
    var t := "weather in";
    assert StartsAt(t, 0, "weather") by { assert t[0..7] == "weather"; }
    InAfterWeather();
    WeatherInThen(t, 0, 7, "in");
  }

  lemma ForecastForDelhi()
    ensures OptionalThenWord("weather forecast for delhi", 16, "for") == Some("delhi")
  {
    var t := "weather forecast for delhi";
    assert t[16] == ' ' && t[17..20] == "for" && t[20] == ' ' && t[21..26] == "delhi";
    SpacedLitAt(t, 16, 17, "for", 20);
    OneSpaceThenWord(t, 20, "delhi");
    GroupTaken(t, 16, "for", 20, "delhi");
  }

  lemma ForecastExample()
    ensures ForecastAt("weather forecast for delhi", 0) == Some("delhi")
  {
    var t := "weather forecast for delhi";
    assert t[0..7] == "weather" && t[7] == ' ' && t[8..16] == "forecast";
    assert StartsAt(t, 0, "weather");
    SpacedLitAt(t, 7, 8, "forecast", 16);
    ForecastForDelhi();
    WeatherForecastThen(t, 0, 7, 16, "delhi");
  }

  lemma MumbaiAfterForecast()
    ensures OptionalThenWord("forecast mumbai", 8, "for") == Some("mumbai")
  {
    var t := "forecast mumbai";
    assert t[8] == ' ' && t[9] == 'm' && t[9..15] == "mumbai";
    assert !StartsAt(t, 9, "for");
    SpacedLitAbsent(t, 8, 9, "for");
    OneSpaceThenWord(t, 8, "mumbai");
    GroupSkipped(t, 8, "for", "mumbai");
  }

  lemma ForecastWithoutWeather()
    ensures ForecastAt("forecast mumbai", 0) == Some("mumbai")
  {
    var t := "forecast mumbai";
    assert !StartsAt(t, 0, "weather") by { assert t[0] == 'f'; }
    assert StartsAt(t, 0, "forecast") by { assert t[0..8] == "forecast"; }
    MumbaiAfterForecast();
    ForecastThen(t, 0, 8, "mumbai");
  }

  lemma InMumbai()
    ensures SpacesOptionalInWord("places to visit in mumbai", 15) == Some("mumbai")
  {
    var t := "places to visit in mumbai";
    assert t[15] == ' ' && t[16..18] == "in" && t[18] == ' ' && t[19..25] == "mumbai";
    SpacedLitAt(t, 15, 16, "in", 18);
    OneSpaceThenWord(t, 18, "mumbai");
  }

  lemma PlacesToVisitInMumbai()
    ensures ToVisitThenWord("places to visit in mumbai", 6) == Some("mumbai")
  {
    var t := "places to visit in mumbai";
    assert t[6] == ' ' && t[7..9] == "to" && t[9] == ' ' && t[10..15] == "visit";
    SpacedLitAt(t, 6, 7, "to", 9);
    SpacedLitAt(t, 9, 10, "visit", 15);
    InMumbai();
    ToVisitThen(t, 6, 9, 15, "mumbai");
  }

  lemma PlacesExample()
    ensures PlacesAt("places to visit in mumbai", 0) == Some("mumbai")
  {
    var t := "places to visit in mumbai";
    assert StartsAt(t, 0, "places") by { assert t[0..6] == "places"; }
    PlacesToVisitInMumbai();
    ToVisitTaken(t, 6, "mumbai");
    AlternativePicks(t, 0, PlacesWords, 0);
    PlacesThen(t, 0, 6, 6);
  }

  lemma ToSee()
    ensures ToVisitThenWord("places to see", 6) == None
  {
    var t := "places to see";
    assert t[6] == ' ' && t[7..9] == "to" && t[9] == ' ' && t[10] == 's';
    assert !StartsAt(t, 10, "visit");
    SpacedLitAt(t, 6, 7, "to", 9);
    SpacedLitAbsent(t, 9, 10, "visit");
    ToWithoutVisit(t, 6, 9);
  }

  lemma SeeCapturesTo()
    ensures SpacesOptionalInWord("places to see", 6) == Some("to")
  {
    var t := "places to see";
    assert t[6] == ' ' && t[7] == 't' && t[7..9] == "to" && t[9] == ' ';
    assert !StartsAt(t, 7, "in");
    SpacedLitAbsent(t, 6, 7, "in");
    OneSpaceThenWord(t, 6, "to");
  }

  lemma PlacesCapturesTo()
    ensures PlacesAt("places to see", 0) == Some("to")
  {
    var t := "places to see";
    assert StartsAt(t, 0, "places") by { assert t[0..6] == "places"; }
    ToSee();
    SeeCapturesTo();
    ToVisitSkipped(t, 6, "to");
    AlternativePicks(t, 0, PlacesWords, 0);
    PlacesThen(t, 0, 6, 6);
  }

  /** `sights` opens the places pattern just as `places` does. */
  lemma SightsExample()
    ensures PlacesAt("sights in delhi", 0) == Some("delhi")
  {
    var t := "sights in delhi";
    assert !Opens(t, 0, "places") && !Opens(t, 0, "attractions") by { assert t[0] == 's'; }
    assert Opens(t, 0, "sights") by { assert t[0..6] == "sights"; }
    AlternativePicks(t, 0, PlacesWords, 2);
    assert t[6] == ' ' && t[7] == 'i' && t[7..9] == "in" && t[9] == ' ' && t[10..15] == "delhi";
    assert !StartsAt(t, 7, "to");
    SpacedLitAbsent(t, 6, 7, "to");
    SpacedLitAt(t, 6, 7, "in", 9);
    OneSpaceThenWord(t, 9, "delhi");
    ToVisitSkipped(t, 6, "delhi");
    PlacesThen(t, 0, 6, 6);
  }

  /** `weather forecast` with no word after it is no match. */
  lemma ForecastWithoutCity()
    ensures ForecastAt("weather forecast", 0) == None
  {
    var t := "weather forecast";
    assert t[0..7] == "weather" && t[7] == ' ' && t[8..16] == "forecast";
    SpacedLitAt(t, 7, 8, "forecast", 16);
    assert SpacesFrom(t, 16) == 0;
    assert !StartsAt(t, 0, "forecast") by { assert t[0] == 'w'; }
  }

  lemma DelhiAfterFood()
    ensures OptionalThenWord("food in delhi", 4, "in") == Some("delhi")
  {
    var t := "food in delhi";
    assert t[4] == ' ' && t[5..7] == "in" && t[7] == ' ' && t[8..13] == "delhi";
    SpacedLitAt(t, 4, 5, "in", 7);
    OneSpaceThenWord(t, 7, "delhi");
    GroupTaken(t, 4, "in", 7, "delhi");
  }

  lemma FoodExample()
    ensures FoodAt("food in delhi", 0) == Some("delhi")
  {
    var t := "food in delhi";
    assert Opens(t, 0, "food") by { assert t[0..4] == "food"; }
    AlternativePicks(t, 0, FoodWords, 0);
    DelhiAfterFood();
    FoodThen(t, 0, 4, 4, "delhi");
  }

  lemma OfAfterCuisine()
    ensures OptionalThenWord("cuisine of delhi", 7, "in") == Some("of")
  {
    var t := "cuisine of delhi";
    assert t[7] == ' ' && t[8] == 'o' && t[8..10] == "of" && t[10] == ' ';
    assert !StartsAt(t, 8, "in");
    SpacedLitAbsent(t, 7, 8, "in");
    OneSpaceThenWord(t, 7, "of");
    GroupSkipped(t, 7, "in", "of");
  }

  lemma CuisineCapturesOf()
    ensures FoodAt("cuisine of delhi", 0) == Some("of")
  {
    var t := "cuisine of delhi";
    assert !Opens(t, 0, "food") by { assert t[0] == 'c'; }
    assert Opens(t, 0, "cuisine") by { assert t[0..7] == "cuisine"; }
    AlternativePicks(t, 0, FoodWords, 1);
    OfAfterCuisine();
    FoodThen(t, 0, 7, 7, "of");
  }

  lemma TouristSpotsExample()
    ensures TouristSpots("tourist spots in goa", 0) == 13
  {
    var t := "tourist spots in goa";
    assert t[0..7] == "tourist" && t[7] == ' ' && t[8..13] == "spots";
    assert StartsAt(t, 0, "tourist");
    SpacedLitAt(t, 7, 8, "spots", 13);
    TouristSpotsThen(t, 0, 7, 13);
  }

  lemma InGoa()
    ensures OptionalThenWord("tourist spots in goa", 13, "in") == Some("goa")
  {
    var t := "tourist spots in goa";
    assert t[13] == ' ' && t[14..16] == "in" && t[16] == ' ' && t[17..20] == "goa";
    SpacedLitAt(t, 13, 14, "in", 16);
    OneSpaceThenWord(t, 16, "goa");
    GroupTaken(t, 13, "in", 16, "goa");
  }

  lemma DestinationsExample()
    ensures DestinationsAt("tourist spots in goa", 0) == Some("goa")
  {
    var t := "tourist spots in goa";
    assert !Opens(t, 0, "destinations") by { assert t[0] == 't'; }
    TouristSpotsExample();
    InGoa();
    DestinationsThen(t, 0, 13, "goa");
  }

  lemma CityExample()
    ensures CityAt("about delhi", 0) == Some("delhi")
  {
    var t := "about delhi";
    assert Opens(t, 0, "about") by { assert t[0..5] == "about"; }
    AlternativePicks(t, 0, CityWords, 0);
    OneSpaceThenWord(t, 5, "delhi");
    CityThen(t, 0, 5, 5, "delhi");
  }

  lemma CityNeedsSpace()
    ensures CityAt("information", 0) == None
  {
    var t := "information";
    assert !Opens(t, 0, "about") by { assert t[0] == 'i'; }
    assert Opens(t, 0, "in") by { assert t[0..2] == "in"; }
    AlternativePicks(t, 0, CityWords, 1);
    assert SpacesFrom(t, 2) == 0;
  }

  lemma NoCityInTellMe()
    ensures forall q :: 0 <= q < 8 ==> MatchAt(CityRe, "tell me about delhi food", q).None?
  {
    var t := "tell me about delhi food";
    assert t[0] == 't' && t[1] == 'e' && t[2] == 'l' && t[3] == 'l';
    assert t[4] == ' ' && t[5] == 'm' && t[6] == 'e' && t[7] == ' ';
    NoCityAt(t, 0); NoCityAt(t, 1); NoCityAt(t, 2); NoCityAt(t, 3);
    NoCityAt(t, 4); NoCityAt(t, 5); NoCityAt(t, 6); NoCityAt(t, 7);
    forall q | 0 <= q < 8 ensures MatchAt(CityRe, t, q).None? {
      assert q == 0 || q == 1 || q == 2 || q == 3 || q == 4 || q == 5 || q == 6 || q == 7;
    }
  }

  lemma DelhiAfterAbout()
    ensures MatchAt(CityRe, "tell me about delhi food", 8) == Some("delhi")
  {
    var t := "tell me about delhi food";
    assert t[8..13] == "about" && t[13] == ' ' && t[14..19] == "delhi" && t[19] == ' ';
    assert Opens(t, 8, "about");
    AlternativePicks(t, 8, CityWords, 0);
    OneSpaceThenWord(t, 13, "delhi");
    CityThen(t, 8, 5, 13, "delhi");
  }

  lemma TellMeAboutDelhi()
    ensures Exec(CityRe, "tell me about delhi food") == Some("delhi")
  {
    var t := "tell me about delhi food";
    DelhiAfterAbout();
    NoCityInTellMe();
    ExecLeftmost(CityRe, t, 8);
  }
}
