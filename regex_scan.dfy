/**
 * The four global regular expressions of the query parser, written out as
 * left-to-right matchers with JavaScript's backtracking order, and the
 * `regex.exec` loop that a `/g` regex drives from its `lastIndex`.
 *
 *   CommaGrouped  /\$?(\d{1,3}),?(\d{3})/g
 *   KSuffix       /\$?(\d+)k/g
 *   Bare          /\$?(\d+)/g
 *   YearLike      /(19|20)\d{2}/g
 */
module RegexScan {
  import opened Text
  import opened Wrappers

  datatype Pattern = CommaGrouped | KSuffix | Bare | YearLike

  /** One successful `exec`: the matched span and its capture groups;
      `group2` is "" for patterns without a second group. */
  datatype Match = Match(start: nat, end: nat, group1: string, group2: string)

  /** How many digits follow position `i`. */
  function DigitRun(s: string, i: nat): (n: nat)
    requires i <= |s|
    ensures i + n <= |s|
    ensures forall k :: i <= k < i + n ==> IsDigit(s[k])
    ensures i + n == |s| || !IsDigit(s[i + n])
    decreases |s| - i
  {
    if i < |s| && IsDigit(s[i]) then 1 + DigitRun(s, i + 1) else 0
  }

  lemma {:induction false} DigitRunCovers(s: string, i: nat, m: nat)
    requires i + m <= |s|
    requires forall k :: i <= k < i + m ==> IsDigit(s[k])
    ensures DigitRun(s, i) >= m
    decreases m
  {
    if m > 0 {
      DigitRunCovers(s, i + 1, m - 1);
    }
  }

  function Min(a: int, b: int): int { if a <= b then a else b }

  /** The pattern after its optional `$`, tried at digit position `i`. For
      `\d{1,3}` followed by `\d{3}`, backtracking gives the first group as
      many digits as leave three for the second one: "2024" reads as
      "2"+"024", "30000" as "30"+"000", "1234567" as "123"+"456". */
  function BodyAt(pat: Pattern, s: string, i: nat): (r: Option<Match>)
    requires i <= |s|
    requires pat != YearLike
    ensures r.Some? ==> i < r.value.end <= |s|
    ensures r.Some? ==> AllDigits(r.value.group1) && AllDigits(r.value.group2)
    ensures r.Some? ==> if pat == CommaGrouped then |r.value.group2| == 3 else r.value.group2 == ""
  {
    var n := DigitRun(s, i);
    match pat
    case CommaGrouped =>
      if n >= 4 then
        var k := Min(3, n - 3);
        Some(Match(i, i + k + 3, s[i..i + k], s[i + k..i + k + 3]))
      else if 1 <= n && i + n < |s| && s[i + n] == ',' && DigitRun(s, i + n + 1) >= 3 then
        Some(Match(i, i + n + 4, s[i..i + n], s[i + n + 1..i + n + 4]))
      else None
    case KSuffix =>
      if 1 <= n && i + n < |s| && s[i + n] == 'k' then Some(Match(i, i + n + 1, s[i..i + n], ""))
      else None
    case Bare =>
      if 1 <= n then Some(Match(i, i + n, s[i..i + n], "")) else None
  }

  /** The regex tried at position `p` alone (the `\$?` is greedy: with a
      `$` at `p` the engine tries to keep it first). */
  function MatchAt(pat: Pattern, s: string, p: nat): (r: Option<Match>)
    requires p <= |s|
    ensures r.Some? ==> p < r.value.end <= |s|
    ensures r.Some? ==> AllDigits(r.value.group1) && AllDigits(r.value.group2)
    ensures r.Some? && pat == YearLike ==> r.value.end == p + 4 && AllDigits(s[p..p + 4])
    ensures r.Some? ==> if pat == CommaGrouped then |r.value.group2| == 3 else r.value.group2 == ""
  {
    if pat == YearLike then
      if p + 4 <= |s| && ((s[p] == '1' && s[p + 1] == '9') || (s[p] == '2' && s[p + 1] == '0'))
         && IsDigit(s[p + 2]) && IsDigit(s[p + 3])
      then Some(Match(p, p + 4, s[p..p + 2], ""))
      else None
    else if p < |s| && s[p] == '$' && BodyAt(pat, s, p + 1).Some? then
      var m := BodyAt(pat, s, p + 1).value;
      Some(m.(start := p))
    else
      BodyAt(pat, s, p)
  }

  /** `regex.exec(s)` with `lastIndex == from`: the leftmost match starting
      at or after `from`. */
  function NextMatch(pat: Pattern, s: string, from: nat): (r: Option<Match>)
    requires from <= |s|
    ensures r.Some? ==> from <= r.value.start < r.value.end <= |s|
    decreases |s| - from
  {
    if from == |s| then None
    else if MatchAt(pat, s, from).Some? then
      var m := MatchAt(pat, s, from).value;
      assert m.start == from by {
        if pat != YearLike && !(s[from] == '$' && BodyAt(pat, s, from + 1).Some?) {
          assert BodyAt(pat, s, from).value.start == from;
        }
      }
      MatchAt(pat, s, from)
    else NextMatch(pat, s, from + 1)
  }

  /** `exec` returns the match that the regex makes at its start. */
  lemma {:induction false} NextMatchIsMatchAt(pat: Pattern, s: string, from: nat)
    requires from <= |s|
    requires NextMatch(pat, s, from).Some?
    ensures MatchAt(pat, s, NextMatch(pat, s, from).value.start) == NextMatch(pat, s, from)
    decreases |s| - from
  {
    if MatchAt(pat, s, from).None? {
      NextMatchIsMatchAt(pat, s, from + 1);
    }
  }

  /** `exec` picks the leftmost position where the regex matches at all,
      and returns `null` when there is none. */
  lemma {:induction false} NextMatchLeftmost(pat: Pattern, s: string, from: nat)
    requires from <= |s|
    ensures NextMatch(pat, s, from).Some? ==>
      forall q :: from <= q < NextMatch(pat, s, from).value.start ==> MatchAt(pat, s, q).None?
    ensures NextMatch(pat, s, from).None? ==>
      forall q :: from <= q <= |s| ==> MatchAt(pat, s, q).None?
    decreases |s| - from
  {
    if from == |s| {
      assert MatchAt(pat, s, from).None?;
    } else if MatchAt(pat, s, from).None? {
      NextMatchLeftmost(pat, s, from + 1);
      assert NextMatch(pat, s, from) == NextMatch(pat, s, from + 1);
      forall q | from <= q < from + 1 ensures MatchAt(pat, s, q).None? { assert q == from; }
    } else {
      assert NextMatch(pat, s, from).value.start == from;
    }
  }

  /** Every match `while ((match = regex.exec(s)) !== null)` visits, once
      `lastIndex` is `from`. */
  function ScanFrom(pat: Pattern, s: string, from: nat): (r: seq<Match>)
    requires from <= |s|
    decreases |s| - from
  {
    match NextMatch(pat, s, from)
    case None => []
    case Some(m) => [m] + ScanFrom(pat, s, m.end)
  }

  /** The scan's `k`-th match lies at or after `from`, after the end of
      the one before it, and is the regex's match at its own start. */
  lemma {:induction false} ScanFromAt(pat: Pattern, s: string, from: nat, k: nat)
    requires from <= |s|
    requires k < |ScanFrom(pat, s, from)|
    ensures from <= ScanFrom(pat, s, from)[k].start < ScanFrom(pat, s, from)[k].end <= |s|
    ensures MatchAt(pat, s, ScanFrom(pat, s, from)[k].start) == Some(ScanFrom(pat, s, from)[k])
    ensures k > 0 ==> ScanFrom(pat, s, from)[k - 1].end <= ScanFrom(pat, s, from)[k].start
    decreases |s| - from
  {
    var m := NextMatch(pat, s, from).value;
    var rest := ScanFrom(pat, s, m.end);
    assert ScanFrom(pat, s, from) == [m] + rest;
    if k == 0 {
      NextMatchIsMatchAt(pat, s, from);
    } else {
      ScanFromAt(pat, s, m.end, k - 1);
    }
  }

  /** Every match of the scan is the regex's match at its own start, and
      the matches do not overlap. */
  lemma ScanFromSound(pat: Pattern, s: string, from: nat)
    requires from <= |s|
    ensures forall k :: 0 <= k < |ScanFrom(pat, s, from)| ==>
      from <= ScanFrom(pat, s, from)[k].start < ScanFrom(pat, s, from)[k].end <= |s| &&
      MatchAt(pat, s, ScanFrom(pat, s, from)[k].start) == Some(ScanFrom(pat, s, from)[k])
    ensures forall k :: 0 < k < |ScanFrom(pat, s, from)| ==>
      ScanFrom(pat, s, from)[k - 1].end <= ScanFrom(pat, s, from)[k].start
  {
    forall k | 0 <= k < |ScanFrom(pat, s, from)|
      ensures from <= ScanFrom(pat, s, from)[k].start < ScanFrom(pat, s, from)[k].end <= |s|
      ensures MatchAt(pat, s, ScanFrom(pat, s, from)[k].start) == Some(ScanFrom(pat, s, from)[k])
      ensures k > 0 ==> ScanFrom(pat, s, from)[k - 1].end <= ScanFrom(pat, s, from)[k].start
    {
      ScanFromAt(pat, s, from, k);
    }
  }

  lemma ScanStep(pat: Pattern, s: string, from: nat)
    requires from <= |s| && NextMatch(pat, s, from).Some?
    ensures ScanFrom(pat, s, from) == [NextMatch(pat, s, from).value] + ScanFrom(pat, s, NextMatch(pat, s, from).value.end)
  {
  }

  // ---------------------------------------------------------------------
  // The languages of the four regexes, for the soundness and completeness
  // of the matchers above.

  /** `w` is a word of `\d{1,3},?\d{3}` with `d` leading digits and `c`
      commas. */
  ghost predicate CommaWordShape(w: string, d: nat, c: nat) {
    1 <= d <= 3 && c <= 1 && |w| == d + c + 3
    && (forall k :: 0 <= k < d ==> IsDigit(w[k]))
    && (c == 1 ==> w[d] == ',')
    && (forall k :: d + c <= k < |w| ==> IsDigit(w[k]))
  }

  ghost predicate BodyWord(pat: Pattern, w: string) {
    match pat
    case CommaGrouped => exists d: nat, c: nat :: d <= 3 && c <= 1 && CommaWordShape(w, d, c)
    case KSuffix => |w| >= 2 && w[|w| - 1] == 'k' && forall k :: 0 <= k < |w| - 1 ==> IsDigit(w[k])
    case Bare => |w| >= 1 && AllDigits(w)
    case YearLike => |w| == 4 && ((w[0] == '1' && w[1] == '9') || (w[0] == '2' && w[1] == '0'))
                     && IsDigit(w[2]) && IsDigit(w[3])
  }

  /** `w` is a word of the whole regex (with its optional `$`). */
  ghost predicate RegexWord(pat: Pattern, w: string) {
    if pat == YearLike then BodyWord(pat, w)
    else BodyWord(pat, w) || (|w| >= 1 && w[0] == '$' && BodyWord(pat, w[1..]))
  }

  lemma BodyAtSound(pat: Pattern, s: string, i: nat)
    requires i <= |s| && pat != YearLike
    requires BodyAt(pat, s, i).Some?
    ensures BodyWord(pat, s[i..BodyAt(pat, s, i).value.end])
  {
    var n := DigitRun(s, i);
    var m := BodyAt(pat, s, i).value;
    var w := s[i..m.end];
    if pat == CommaGrouped {
      if n >= 4 {
        assert CommaWordShape(w, Min(3, n - 3), 0);
      } else {
        assert CommaWordShape(w, n, 1);
      }
    }
  }

  /** Soundness: every match the matcher reports at `p` is a word of the
      regex starting at `p`. */
  lemma MatchAtSound(pat: Pattern, s: string, p: nat)
    requires p <= |s|
    requires MatchAt(pat, s, p).Some?
    ensures RegexWord(pat, s[p..MatchAt(pat, s, p).value.end])
  {
    var e := MatchAt(pat, s, p).value.end;
    if pat != YearLike {
      if p < |s| && s[p] == '$' && BodyAt(pat, s, p + 1).Some? {
        BodyAtSound(pat, s, p + 1);
        assert s[p..e][1..] == s[p + 1..e];
      } else {
        BodyAtSound(pat, s, p);
      }
    }
  }

  lemma CommaBodyComplete(s: string, i: nat, e: nat)
    requires i <= e <= |s|
    requires BodyWord(CommaGrouped, s[i..e])
    ensures BodyAt(CommaGrouped, s, i).Some?
  {
    var w := s[i..e];
    var d: nat, c: nat :| d <= 3 && c <= 1 && CommaWordShape(w, d, c);
    if c == 0 {
      assert forall k :: i <= k < i + d + 3 ==> s[k] == w[k - i];
      DigitRunCovers(s, i, d + 3);
    } else {
      assert forall k :: i <= k < i + d + 4 ==> s[k] == w[k - i];
      DigitRunCovers(s, i, d);
      DigitRunCovers(s, i + d + 1, 3);
      assert !IsDigit(s[i + d]);
      assert DigitRun(s, i) == d;
    }
  }

  lemma KSuffixBodyComplete(s: string, i: nat, e: nat)
    requires i <= e <= |s|
    requires BodyWord(KSuffix, s[i..e])
    ensures BodyAt(KSuffix, s, i).Some?
  {
    var w := s[i..e];
    assert forall k :: i <= k < e ==> s[k] == w[k - i];
    DigitRunCovers(s, i, |w| - 1);
    assert !IsDigit(s[i + |w| - 1]);
    assert DigitRun(s, i) == |w| - 1;
  }

  lemma BodyAtComplete(pat: Pattern, s: string, i: nat, e: nat)
    requires i <= e <= |s| && pat != YearLike
    requires BodyWord(pat, s[i..e])
    ensures BodyAt(pat, s, i).Some?
  {
    match pat
    case CommaGrouped => CommaBodyComplete(s, i, e);
    case KSuffix => KSuffixBodyComplete(s, i, e);
    case Bare =>
      assert IsDigit(s[i..e][0]);
      DigitRunCovers(s, i, 1);
  }

  /** Completeness: if a word of the regex starts at `p`, the matcher
      reports a match at `p`. */
  lemma MatchAtComplete(pat: Pattern, s: string, p: nat, e: nat)
    requires p <= e <= |s|
    requires RegexWord(pat, s[p..e])
    ensures MatchAt(pat, s, p).Some?
  {
    if pat != YearLike {
      if BodyWord(pat, s[p..e]) {
        BodyAtComplete(pat, s, p, e);
      } else {
        assert s[p..e][1..] == s[p + 1..e];
        BodyAtComplete(pat, s, p + 1, e);
      }
    }
  }
}
