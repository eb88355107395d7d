/**
 * `extractPriceInfo` and `extractYearInfo` of
 * src/utils/naturalLanguageSearch.js: the regex scans that collect
 * candidate prices and years, and the rules that turn them into bounds.
 */
module Extraction {
  import opened Text
  import opened Wrappers
  import opened RegexScan

  // ---------------------------------------------------------------------
  // Prices

  /** `{ min, max }`; the source's `range` field is never set. */
  datatype PriceInfo = PriceInfo(min: Option<nat>, max: Option<nat>)

  /** The price one match stands for: both groups read together when
      there is a second group, otherwise the first group, times 1000
      whenever the query contains a `k` anywhere. */
  function PriceOf(m: Match, lowerQuery: string): nat
  {
    if m.group2 != "" then DigitsValue(m.group1 + m.group2)
    else if Includes(lowerQuery, "k") then DigitsValue(m.group1) * 1000
    else DigitsValue(m.group1)
  }

  /** The prices of `ms` that pass the `price > 1000` filter, in order. */
  function KeptPrices(ms: seq<Match>, lowerQuery: string): (r: seq<nat>)
    ensures forall p :: p in r ==> p > 1000
  {
    if ms == [] then []
    else
      var n := |ms| - 1;
      var price := PriceOf(ms[n], lowerQuery);
      KeptPrices(ms[..n], lowerQuery) + (if price > 1000 then [price] else [])
  }

  function PatternPrices(pat: Pattern, lowerQuery: string): (r: seq<nat>)
    ensures forall p :: p in r ==> p > 1000
  {
    KeptPrices(ScanFrom(pat, lowerQuery, 0), lowerQuery)
  }

  /** The `prices` array: the kept prices of the three regexes, in turn. */
  function CandidatePrices(lowerQuery: string): (r: seq<nat>)
    ensures forall p :: p in r ==> p > 1000
  {
    PatternPrices(CommaGrouped, lowerQuery) + PatternPrices(KSuffix, lowerQuery)
      + PatternPrices(Bare, lowerQuery)
  }

  function SeqMax(xs: seq<nat>): (m: nat)
    requires xs != []
    ensures m in xs && forall x :: x in xs ==> x <= m
  {
    if |xs| == 1 then xs[0]
    else
      var t := SeqMax(xs[1..]);
      assert forall x :: x in xs[1..] ==> x in xs;
      assert forall x :: x in xs ==> x == xs[0] || x in xs[1..];
      if xs[0] >= t then xs[0] else t
  }

  function SeqMin(xs: seq<nat>): (m: nat)
    requires xs != []
    ensures m in xs && forall x :: x in xs ==> m <= x
  {
    if |xs| == 1 then xs[0]
    else
      var t := SeqMin(xs[1..]);
      assert forall x :: x in xs[1..] ==> x in xs;
      assert forall x :: x in xs ==> x == xs[0] || x in xs[1..];
      if xs[0] <= t then xs[0] else t
  }

  predicate SaysUnder(lowerQuery: string) {
    Includes(lowerQuery, "under") || Includes(lowerQuery, "below") || Includes(lowerQuery, "max")
  }

  predicate SaysOver(lowerQuery: string) {
    Includes(lowerQuery, "over") || Includes(lowerQuery, "above") || Includes(lowerQuery, "min")
  }

  ghost predicate IsLargest(x: nat, xs: seq<nat>) { x in xs && forall y :: y in xs ==> y <= x }
  ghost predicate IsSmallest(x: nat, xs: seq<nat>) { x in xs && forall y :: y in xs ==> x <= y }

  /** The classification of the candidate prices into bounds: an upper
      bound after `under`/`below`/`max`, else a lower bound after
      `over`/`above`/`min` (both the largest candidate), else a range when
      two or more candidates (duplicates included) remain, else the lone
      candidate as an upper bound. */
  function ClassifyPrices(lowerQuery: string, prices: seq<nat>): (info: PriceInfo)
    ensures prices == [] <==> info == PriceInfo(None, None)
    ensures prices != [] && SaysUnder(lowerQuery) ==>
      info.min.None? && info.max.Some? && IsLargest(info.max.value, prices)
    ensures prices != [] && !SaysUnder(lowerQuery) && SaysOver(lowerQuery) ==>
      info.max.None? && info.min.Some? && IsLargest(info.min.value, prices)
    ensures |prices| >= 2 && !SaysUnder(lowerQuery) && !SaysOver(lowerQuery) ==>
      info.min.Some? && info.max.Some? && IsSmallest(info.min.value, prices)
      && IsLargest(info.max.value, prices) && info.min.value <= info.max.value
    ensures |prices| == 1 && !SaysUnder(lowerQuery) && !SaysOver(lowerQuery) ==>
      info == PriceInfo(None, Some(prices[0]))
    ensures info.min.Some? ==> info.min.value in prices
    ensures info.max.Some? ==> info.max.value in prices
  {
    if prices == [] then PriceInfo(None, None)
    else if SaysUnder(lowerQuery) then PriceInfo(None, Some(SeqMax(prices)))
    else if SaysOver(lowerQuery) then PriceInfo(Some(SeqMax(prices)), None)
    else if |prices| >= 2 then PriceInfo(Some(SeqMin(prices)), Some(SeqMax(prices)))
    else PriceInfo(None, Some(prices[0]))
  }

  /** One `while ((match = regex.exec(lowerQuery)) !== null)` loop of
      `extractPriceInfo`: the prices it pushes. */
  method CollectPrices(regex: Pattern, lowerQuery: string) returns (found: seq<nat>)
    requires regex != YearLike
    ensures found == PatternPrices(regex, lowerQuery)
  {
    found := [];
    ghost var visited: seq<Match> := [];
    var lastIndex := 0;
    var match_ := NextMatch(regex, lowerQuery, lastIndex);
    while match_.Some?
      invariant lastIndex <= |lowerQuery|
      invariant match_ == NextMatch(regex, lowerQuery, lastIndex)
      invariant visited + ScanFrom(regex, lowerQuery, lastIndex) == ScanFrom(regex, lowerQuery, 0)
      invariant found == KeptPrices(visited, lowerQuery)
      decreases |lowerQuery| - lastIndex
    {
      var m := match_.value;
      var price: nat;
      if m.group2 != "" {
        price := DigitsValue(m.group1 + m.group2);
      } else if Includes(lowerQuery, "k") {
        price := DigitsValue(m.group1) * 1000;
      } else {
        price := DigitsValue(m.group1);
      }
      if price > 1000 {
        found := found + [price];
      }
      ScanAdvance(regex, lowerQuery, visited, lastIndex);
      KeptPricesAppend(visited, m, lowerQuery);
      visited := visited + [m];
      lastIndex := m.end;
      match_ := NextMatch(regex, lowerQuery, lastIndex);
    }
    ScanDone(regex, lowerQuery, visited, lastIndex);
  }

  lemma KeptPricesAppend(ms: seq<Match>, m: Match, lowerQuery: string)
    ensures KeptPrices(ms + [m], lowerQuery) == KeptPrices(ms, lowerQuery)
      + (if PriceOf(m, lowerQuery) > 1000 then [PriceOf(m, lowerQuery)] else [])
  {
    assert (ms + [m])[..|ms|] == ms;
  }

  /** One turn of an `exec` loop: the visited matches grow by the match
      `exec` returned, and the scan resumes at its end. */
  lemma ScanAdvance(pat: Pattern, s: string, visited: seq<Match>, lastIndex: nat)
    requires lastIndex <= |s| && NextMatch(pat, s, lastIndex).Some?
    requires visited + ScanFrom(pat, s, lastIndex) == ScanFrom(pat, s, 0)
    ensures (visited + [NextMatch(pat, s, lastIndex).value])
      + ScanFrom(pat, s, NextMatch(pat, s, lastIndex).value.end) == ScanFrom(pat, s, 0)
  {
    var m := NextMatch(pat, s, lastIndex).value;
    ScanStep(pat, s, lastIndex);
    assert (visited + [m]) + ScanFrom(pat, s, m.end) == visited + ScanFrom(pat, s, lastIndex);
  }

  /** When `exec` returns `null`, the loop has visited the whole scan. */
  lemma ScanDone(pat: Pattern, s: string, visited: seq<Match>, lastIndex: nat)
    requires lastIndex <= |s| && NextMatch(pat, s, lastIndex).None?
    requires visited + ScanFrom(pat, s, lastIndex) == ScanFrom(pat, s, 0)
    ensures visited == ScanFrom(pat, s, 0)
  {
    assert ScanFrom(pat, s, lastIndex) == [];
  }

  /** `extractPriceInfo(query)`. */
  method ExtractPriceInfo(query: string) returns (info: PriceInfo)
    ensures info == ClassifyPrices(Lower(query), CandidatePrices(Lower(query)))
  {
    var lowerQuery := Lower(query);
    var prices: seq<nat> := [];
    var found := CollectPrices(CommaGrouped, lowerQuery);
    prices := prices + found;
    found := CollectPrices(KSuffix, lowerQuery);
    prices := prices + found;
    found := CollectPrices(Bare, lowerQuery);
    prices := prices + found;
    assert prices == CandidatePrices(lowerQuery);
    info := PriceInfo(None, None);
    if |prices| > 0 {
      if Includes(lowerQuery, "under") || Includes(lowerQuery, "below") || Includes(lowerQuery, "max") {
        info := info.(max := Some(SeqMax(prices)));
      } else if Includes(lowerQuery, "over") || Includes(lowerQuery, "above") || Includes(lowerQuery, "min") {
        info := info.(min := Some(SeqMax(prices)));
      } else if |prices| >= 2 {
        info := info.(min := Some(SeqMin(prices)), max := Some(SeqMax(prices)));
      } else {
        info := info.(max := Some(prices[0]));
      }
    }
  }

  /** The `k` rule: a match of the `k`-suffix or bare regex is scaled by
      1000 exactly when the query contains `k` anywhere (so also inside
      "truck"); a comma-grouped match never is. */
  lemma KMultiplier(lowerQuery: string, pat: Pattern, m: Match)
    requires m in ScanFrom(pat, lowerQuery, 0)
    ensures pat == CommaGrouped ==> PriceOf(m, lowerQuery) == DigitsValue(m.group1 + m.group2)
    ensures pat == KSuffix || pat == Bare ==>
      PriceOf(m, lowerQuery) == DigitsValue(m.group1) * (if Includes(lowerQuery, "k") then 1000 else 1)
  {
    var ms := ScanFrom(pat, lowerQuery, 0);
    ScanFromSound(pat, lowerQuery, 0);
    var k :| 0 <= k < |ms| && ms[k] == m;
    assert MatchAt(pat, lowerQuery, m.start) == Some(m);
  }

  /** A bare year is a price: the comma-grouped regex reads "2024" as
      "2" + "024", and 2024 passes the `price > 1000` filter. */
  lemma BareYearIsPrice()
    ensures PatternPrices(CommaGrouped, "2024") == [2024]
  {
    var s := "2024";
    var m := Match(0, 4, "2", "024");
    assert DigitRun(s, 4) == 0;
    assert DigitRun(s, 0) == 4;
    assert s[0..1] == "2" && s[1..4] == "024";
    assert BodyAt(CommaGrouped, s, 0) == Some(m);
    assert MatchAt(CommaGrouped, s, 0) == Some(m);
    assert ScanFrom(CommaGrouped, s, 4) == [];
    assert ScanFrom(CommaGrouped, s, 0) == [m];
    assert "2" + "024" == s;
    assert s[..3] == "202" && "202"[..2] == "20" && "20"[..1] == "2" && "2"[..0] == "";
    assert DigitsValue(s) == 2024;
    assert KeptPrices([m], s) == KeptPrices([], s) + [2024];
  }

  /** "$30k" is found twice, by the `k` regex and by the bare one. */
  lemma DollarKTwoCandidates()
    ensures CandidatePrices("$30k") == [30000, 30000]
  {
    var s := "$30k";
    DollarKScans();
    assert Includes(s, "k") by { assert OccursAt(s, "k", 3); }
    ThirtyValue();
    var m, m' := Match(0, 4, "30", ""), Match(0, 3, "30", "");
    assert PriceOf(m, s) == 30000 && PriceOf(m', s) == 30000;
    assert [m][..0] == [] && [m'][..0] == [];
    assert KeptPrices([m], s) == [30000] && KeptPrices([m'], s) == [30000];
  }

  lemma ThirtyValue()
    ensures DigitsValue("30") == 30
  {
    assert "30"[..1] == "3" && "3"[..0] == "";
  }

  /** So the two equal candidates make a range from 30000 to 30000. */
  lemma DollarKIsRange()
    ensures ClassifyPrices("$30k", CandidatePrices("$30k")) == PriceInfo(Some(30000), Some(30000))
  {
    DollarKTwoCandidates();
    DollarKHasNoBoundWord();
  }

  lemma DollarKHasNoBoundWord()
    ensures !SaysUnder("$30k") && !SaysOver("$30k")
  {
    var s := "$30k";
    assert 'u' !in s && 'b' !in s && 'm' !in s && 'o' !in s && 'a' !in s;
    MissingCharExcludes(s, "under", 0);
    MissingCharExcludes(s, "below", 0);
    MissingCharExcludes(s, "max", 0);
    MissingCharExcludes(s, "over", 0);
    MissingCharExcludes(s, "above", 0);
    MissingCharExcludes(s, "min", 0);
  }

  lemma DollarKScans()
    ensures ScanFrom(CommaGrouped, "$30k", 0) == []
    ensures ScanFrom(KSuffix, "$30k", 0) == [Match(0, 4, "30", "")]
    ensures ScanFrom(Bare, "$30k", 0) == [Match(0, 3, "30", "")]
  {
    var s := "$30k";
    assert DigitRun(s, 4) == 0 && DigitRun(s, 3) == 0 && DigitRun(s, 0) == 0;
    assert DigitRun(s, 2) == 1 && DigitRun(s, 1) == 2;
    assert s[1..3] == "30";
    forall p | 0 <= p <= 4 ensures MatchAt(CommaGrouped, s, p).None? {
    }
    assert NextMatch(CommaGrouped, s, 0).None?;
    assert MatchAt(KSuffix, s, 0) == Some(Match(0, 4, "30", ""));
    assert ScanFrom(KSuffix, s, 4) == [];
    assert MatchAt(Bare, s, 0) == Some(Match(0, 3, "30", ""));
    assert MatchAt(Bare, s, 3).None?;
    assert ScanFrom(Bare, s, 3) == [];
  }

  /** The `k` of "truck" scales a bare number: "truck 30" yields the one
      candidate 30000. */
  lemma KInsideWord()
    ensures CandidatePrices("truck 30") == [30000]
  {
    var s := "truck 30";
    TruckScans();
    TruckSaysK();
    ThirtyValue();
    var m := Match(6, 8, "30", "");
    assert PriceOf(m, s) == 30000;
    assert [m][..0] == [];
    assert KeptPrices([m], s) == [30000];
  }

  lemma TruckSaysK()
    ensures Includes("truck 30", "k")
  {
    assert OccursAt("truck 30", "k", 4);
  }

  /** With no bound keyword in "truck 30", its lone candidate caps the price. */
  lemma KInsideWordCapsPrice()
    ensures ClassifyPrices("truck 30", CandidatePrices("truck 30")) == PriceInfo(None, Some(30000))
  {
    KInsideWord();
    TruckHasNoBoundWord();
  }

  lemma TruckHasNoBoundWord()
    ensures !SaysUnder("truck 30") && !SaysOver("truck 30")
  {
    var s := "truck 30";
    assert 'n' !in s && 'b' !in s && 'm' !in s && 'o' !in s && 'a' !in s;
    MissingCharExcludes(s, "under", 1);
    MissingCharExcludes(s, "below", 0);
    MissingCharExcludes(s, "max", 0);
    MissingCharExcludes(s, "over", 0);
    MissingCharExcludes(s, "above", 0);
    MissingCharExcludes(s, "min", 0);
  }

  lemma TruckScans()
    ensures ScanFrom(CommaGrouped, "truck 30", 0) == []
    ensures ScanFrom(KSuffix, "truck 30", 0) == []
    ensures ScanFrom(Bare, "truck 30", 0) == [Match(6, 8, "30", "")]
  {
    var s := "truck 30";
    assert DigitRun(s, 8) == 0 && DigitRun(s, 7) == 1 && DigitRun(s, 6) == 2;
    assert forall p :: 0 <= p < 6 ==> !IsDigit(s[p]) && s[p] != '$';
    assert s[6..8] == "30";
    forall p | 0 <= p <= 8 ensures MatchAt(CommaGrouped, s, p).None? && MatchAt(KSuffix, s, p).None? {
    }
    assert NextMatch(CommaGrouped, s, 0).None?;
    assert NextMatch(KSuffix, s, 0).None?;
    forall p | 0 <= p < 6 ensures MatchAt(Bare, s, p).None? {
    }
    assert MatchAt(Bare, s, 6) == Some(Match(6, 8, "30", ""));
    assert NextMatch(Bare, s, 0) == Some(Match(6, 8, "30", ""));
    assert ScanFrom(Bare, s, 8) == [];
  }

  // ---------------------------------------------------------------------
  // Years

  datatype YearInfo = Exact(year: nat) | AtLeast(min: nat) | AtMost(max: nat)

  /** `parseInt(match[0])`: the value of the matched text. */
  function YearOf(s: string, m: Match): nat {
    if m.start <= m.end <= |s| then DigitsValue(s[m.start..m.end]) else 0
  }

  /** The matched years inside `[1990, currentYear + 1]`, in order. */
  function KeptYears(s: string, ms: seq<Match>, currentYear: int): (r: seq<nat>)
    ensures forall y :: y in r ==> 1990 <= y <= currentYear + 1
  {
    if ms == [] then []
    else
      var n := |ms| - 1;
      var year := YearOf(s, ms[n]);
      KeptYears(s, ms[..n], currentYear) + (if 1990 <= year <= currentYear + 1 then [year] else [])
  }

  function CandidateYears(query: string, currentYear: int): (r: seq<nat>)
    ensures forall y :: y in r ==> 1990 <= y <= currentYear + 1
  {
    KeptYears(query, ScanFrom(YearLike, query, 0), currentYear)
  }

  predicate SaysNewer(lowerQuery: string) {
    Includes(lowerQuery, "newer") || Includes(lowerQuery, "after")
  }

  predicate SaysOlder(lowerQuery: string) {
    Includes(lowerQuery, "older") || Includes(lowerQuery, "before")
  }

  /** The classification of the candidate years: a lower bound (the
      latest year) after `newer`/`after`, else an upper bound (the
      earliest) after `older`/`before`, else the first year exactly. */
  function ClassifyYears(lowerQuery: string, years: seq<nat>): (r: Option<YearInfo>)
    ensures years == [] <==> r.None?
    ensures years != [] && SaysNewer(lowerQuery) ==> r.Some? && r.value.AtLeast? && IsLargest(r.value.min, years)
    ensures years != [] && !SaysNewer(lowerQuery) && SaysOlder(lowerQuery) ==>
      r.Some? && r.value.AtMost? && IsSmallest(r.value.max, years)
    ensures years != [] && !SaysNewer(lowerQuery) && !SaysOlder(lowerQuery) ==> r == Some(Exact(years[0]))
  {
    if years == [] then None
    else if SaysNewer(lowerQuery) then Some(AtLeast(SeqMax(years)))
    else if SaysOlder(lowerQuery) then Some(AtMost(SeqMin(years)))
    else Some(Exact(years[0]))
  }

  /** The `while ((match = yearRegex.exec(query)) !== null)` loop of
      `extractYearInfo`: the years it pushes. */
  method CollectYears(query: string, currentYear: int) returns (years: seq<nat>)
    ensures years == CandidateYears(query, currentYear)
  {
    years := [];
    ghost var visited: seq<Match> := [];
    var lastIndex := 0;
    var match_ := NextMatch(YearLike, query, lastIndex);
    while match_.Some?
      invariant lastIndex <= |query|
      invariant match_ == NextMatch(YearLike, query, lastIndex)
      invariant visited + ScanFrom(YearLike, query, lastIndex) == ScanFrom(YearLike, query, 0)
      invariant years == KeptYears(query, visited, currentYear)
      decreases |query| - lastIndex
    {
      var m := match_.value;
      var year := DigitsValue(query[m.start..m.end]);
      if year >= 1990 && year <= currentYear + 1 {
        years := years + [year];
      }
      ScanAdvance(YearLike, query, visited, lastIndex);
      KeptYearsAppend(query, visited, m, currentYear);
      visited := visited + [m];
      lastIndex := m.end;
      match_ := NextMatch(YearLike, query, lastIndex);
    }
    ScanDone(YearLike, query, visited, lastIndex);
  }

  lemma KeptYearsAppend(s: string, ms: seq<Match>, m: Match, currentYear: int)
    ensures KeptYears(s, ms + [m], currentYear) == KeptYears(s, ms, currentYear)
      + (if 1990 <= YearOf(s, m) <= currentYear + 1 then [YearOf(s, m)] else [])
  {
    assert (ms + [m])[..|ms|] == ms;
  }

  /** `extractYearInfo(query)` with the clock's year as a parameter. */
  method ExtractYearInfo(query: string, currentYear: int) returns (info: Option<YearInfo>)
    ensures info == ClassifyYears(Lower(query), CandidateYears(query, currentYear))
  {
    var years := CollectYears(query, currentYear);
    if |years| > 0 {
      var lower := Lower(query);
      if Includes(lower, "newer") || Includes(lower, "after") {
        return Some(AtLeast(SeqMax(years)));
      } else if Includes(lower, "older") || Includes(lower, "before") {
        return Some(AtMost(SeqMin(years)));
      } else {
        return Some(Exact(years[0]));
      }
    }
    return None;
  }
}
