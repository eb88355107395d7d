/**
 * The search dropdown of src/components/SearchDropdown.jsx: autocomplete
 * over the make/model table, "did you mean" spelling suggestions, and the
 * recent-search history kept in local storage.
 */
module SearchDropdown {
  import opened Text
  import opened Wrappers
  import opened Lists
  import opened Levenshtein

  const CarMakes: seq<string> :=
    ["Toyota", "Honda", "Ford", "Tesla", "BMW", "Mercedes-Benz", "Chevrolet", "Audi", "Nissan", "Hyundai"]

  /** `carData.models`, in declaration order (only five makes have models). */
  const CarModels: seq<(string, seq<string>)> := [
    ("Toyota", ["Camry", "Corolla", "RAV4", "Highlander", "Prius"]),
    ("Honda", ["Civic", "Accord", "CR-V", "Pilot", "Fit"]),
    ("Ford", ["F-150", "Explorer", "Escape", "Mustang", "Focus"]),
    ("Tesla", ["Model 3", "Model Y", "Model S", "Model X"]),
    ("BMW", ["X3", "3 Series", "5 Series", "X5", "i3"])
  ]

  /** The texts of `defaultPopularSearches` (icons and categories are
      presentation). */
  const PopularSearches: seq<string> := [
    "Toyota Camry", "Honda Civic", "Tesla Model 3", "BMW X3",
    "Mercedes C-Class", "Ford F-150", "Luxury cars", "Electric cars"
  ]

  const HistoryKey: string := "whipsly-search-history"

  datatype Kind = Make | Model | Year | Spelling

  /** A suggestion row: its text and its `type` (the icon is presentation). */
  datatype Suggestion = Suggestion(text: string, kind: Kind)

  // ---------------------------------------------------------------------
  // Autocomplete

  /** The makes whose lower-cased name contains `term`, in order. */
  function MakeSuggestions(makes: seq<string>, term: string): (r: seq<Suggestion>)
    ensures forall k :: 0 <= k < |r| ==> r[k].kind == Make
    ensures |r| <= |makes|
  {
    if makes == [] then []
    else
      var n := |makes| - 1;
      MakeSuggestions(makes[..n], term)
        + (if Includes(Lower(makes[n]), term) then [Suggestion(makes[n], Make)] else [])
  }

  /** The "Make Model" rows of one make: every model when the make matches,
      otherwise the models that contain `term`. */
  function ModelsOf(make: string, models: seq<string>, term: string): (r: seq<Suggestion>)
    ensures forall k :: 0 <= k < |r| ==> r[k].kind == Model
  {
    if models == [] then []
    else
      var n := |models| - 1;
      ModelsOf(make, models[..n], term)
        + (if Includes(Lower(models[n]), term) || Includes(Lower(make), term)
           then [Suggestion(make + " " + models[n], Model)] else [])
  }

  function ModelSuggestions(table: seq<(string, seq<string>)>, term: string): (r: seq<Suggestion>)
    ensures forall k :: 0 <= k < |r| ==> r[k].kind == Model
  {
    if table == [] then []
    else
      var n := |table| - 1;
      ModelSuggestions(table[..n], term) + ModelsOf(table[n].0, table[n].1, term)
  }

  /** `/^\d{1,4}$/.test(term)`. */
  predicate YearLikeTerm(term: string) {
    1 <= |term| <= 4 && AllDigits(term)
  }

  /** The year row: `${parseInt(term)}` when the term is 1-4 digits whose
      value lies in 1990..2024. */
  function YearSuggestion(term: string): (r: seq<Suggestion>)
    ensures |r| <= 1
    ensures forall k :: 0 <= k < |r| ==> r[k].kind == Year
  {
    if YearLikeTerm(term) && 1990 <= DigitsValue(term) <= 2024
    then [Suggestion(NatToString(DigitsValue(term)), Year)]
    else []
  }

  /** Every row the effect pushes, before the cap. */
  function AllSuggestions(term: string): seq<Suggestion> {
    MakeSuggestions(CarMakes, term) + ModelSuggestions(CarModels, term) + YearSuggestion(term)
  }

  /** The autocomplete list for a search term (`None` is a missing term). */
  function Autocomplete(searchTerm: Option<string>): (r: seq<Suggestion>)
    ensures searchTerm.None? || |searchTerm.value| < 2 ==> r == []
    ensures |r| <= 6
  {
    if searchTerm.None? || |searchTerm.value| < 2 then []
    else Take(AllSuggestions(Lower(searchTerm.value)), 6)
  }

  /** The `carData.makes.forEach` loop. */
  method CollectMakeSuggestions(makes: seq<string>, term: string) returns (r: seq<Suggestion>)
    ensures r == MakeSuggestions(makes, term)
  {
    r := [];
    var i := 0;
    while i < |makes|
      invariant 0 <= i <= |makes|
      invariant r == MakeSuggestions(makes[..i], term)
    {
      if Includes(Lower(makes[i]), term) {
        r := r + [Suggestion(makes[i], Make)];
      }
      assert makes[..i + 1][..i] == makes[..i];
      i := i + 1;
    }
    assert makes[..i] == makes;
  }

  method CollectModelsOf(make: string, models: seq<string>, term: string) returns (r: seq<Suggestion>)
    ensures r == ModelsOf(make, models, term)
  {
    r := [];
    var j := 0;
    while j < |models|
      invariant 0 <= j <= |models|
      invariant r == ModelsOf(make, models[..j], term)
    {
      if Includes(Lower(models[j]), term) || Includes(Lower(make), term) {
        r := r + [Suggestion(make + " " + models[j], Model)];
      }
      assert models[..j + 1][..j] == models[..j];
      j := j + 1;
    }
    assert models[..j] == models;
  }

  /** The `Object.entries(carData.models).forEach` loop. */
  method CollectModelSuggestions(table: seq<(string, seq<string>)>, term: string) returns (r: seq<Suggestion>)
    ensures r == ModelSuggestions(table, term)
  {
    r := [];
    var i := 0;
    while i < |table|
      invariant 0 <= i <= |table|
      invariant r == ModelSuggestions(table[..i], term)
    {
      var rows := CollectModelsOf(table[i].0, table[i].1, term);
      r := r + rows;
      assert table[..i + 1][..i] == table[..i];
      i := i + 1;
    }
    assert table[..i] == table;
  }

  /** The body of the autocomplete effect once the term is long enough:
      makes, then models, then the year, capped at six rows. */
  method AutocompleteFor(term: string) returns (r: seq<Suggestion>)
    ensures r == Take(AllSuggestions(term), 6)
  {
    var makes := CollectMakeSuggestions(CarMakes, term);
    var models := CollectModelSuggestions(CarModels, term);
    var suggestions := makes + models;
    if YearLikeTerm(term) {
      var year := DigitsValue(term);
      if year >= 1990 && year <= 2024 {
        suggestions := suggestions + [Suggestion(NatToString(year), Year)];
      }
    }
    r := Take(suggestions, 6);
  }

  // ---------------------------------------------------------------------
  // Spelling suggestions

  /** `commonTerms`: the lower-cased makes, then thirteen fixed terms. */
  const CommonTerms: seq<string> :=
    ["toyota", "honda", "ford", "tesla", "bmw", "mercedes-benz", "chevrolet", "audi", "nissan", "hyundai",
     "camry", "civic", "accord", "corolla", "prius", "mustang", "f-150",
       "luxury", "electric", "hybrid", "sedan", "suv", "truck"]

  /** `s.charAt(0).toUpperCase() + s.slice(1)`. */
  function Capitalize(s: string): (r: string)
    ensures |r| == |s|
    ensures s != [] ==> r[0] == UpperChar(s[0]) && r[1..] == s[1..]
  {
    if s == [] then [] else [UpperChar(s[0])] + s[1..]
  }

  /** Whether a common term is offered for the typed term. */
  predicate Offered(term: string, commonTerm: string) {
    Distance(Lower(term), commonTerm) <= 2 && |term| > 2 && commonTerm != Lower(term)
  }

  /** Every common term offered, capitalised, in `commonTerms` order. */
  function SpellingHits(term: string, terms: seq<string>): (r: seq<Suggestion>)
    ensures forall k :: 0 <= k < |r| ==> r[k].kind == Spelling
    ensures |term| <= 2 ==> r == []
  {
    if terms == [] then []
    else
      var n := |terms| - 1;
      SpellingHits(term, terms[..n])
        + (if Offered(term, terms[n]) then [Suggestion(Capitalize(terms[n]), Spelling)] else [])
  }

  /** `generateSpellingSuggestions(term)`. */
  function SpellingSuggestions(term: string): (r: seq<Suggestion>)
    ensures |r| <= 3
  {
    Take(SpellingHits(term, CommonTerms), 3)
  }

  method GenerateSpellingSuggestions(term: string) returns (r: seq<Suggestion>)
    ensures r == SpellingSuggestions(term)
  {
    var hits := CollectSpellingHits(term, CommonTerms);
    r := Take(hits, 3);
  }

  /** The `commonTerms.forEach` loop. */
  method CollectSpellingHits(term: string, terms: seq<string>) returns (hits: seq<Suggestion>)
    ensures hits == SpellingHits(term, terms)
  {
    var lower := Lower(term);
    hits := [];
    var i := 0;
    while i < |terms|
      invariant 0 <= i <= |terms|
      invariant hits == SpellingHits(term, terms[..i])
    {
      var commonTerm := terms[i];
      var d := LevenshteinDistance(lower, commonTerm);
      if d <= 2 && |term| > 2 && commonTerm != lower {
        hits := hits + [Suggestion(Capitalize(commonTerm), Spelling)];
      }
      assert terms[..i + 1][..i] == terms[..i];
      i := i + 1;
    }
    assert terms[..i] == terms;
  }

  // ---------------------------------------------------------------------
  // Recent-search history

  /** `items.filter(item => item !== v)`. */
  function Without(xs: seq<string>, v: string): (r: seq<string>)
    ensures |r| <= |xs|
  {
    if xs == [] then []
    else
      var n := |xs| - 1;
      Without(xs[..n], v) + (if xs[n] != v then [xs[n]] else [])
  }

  /** `[suggestion, ...currentHistory].slice(0, 10)`: the list written to
      storage when a suggestion is clicked. */
  function NewHistory(recent: seq<string>, suggestion: string): (r: seq<string>)
    ensures 1 <= |r| <= 10
  {
    Take([suggestion] + Without(recent, suggestion), 10)
  }

  /** `f` places each entry of `a` at a position of `b` holding it, in
      increasing order. */
  ghost predicate Embeds(f: seq<nat>, a: seq<string>, b: seq<string>) {
    && |f| == |a|
    && (forall i :: 0 <= i < |f| ==> f[i] < |b| && a[i] == b[f[i]])
    && (forall i, j :: 0 <= i < j < |f| ==> f[i] < f[j])
  }

  /** `a` is `b` with some entries deleted, the rest in their order. */
  ghost predicate SubsequenceOf(a: seq<string>, b: seq<string>) {
    exists f :: Embeds(f, a, b)
  }

  // ---------------------------------------------------------------------
  // Properties

  /** The lower-cased makes head the common terms. */
  lemma CommonTermsStartWithMakes()
    ensures forall k :: 0 <= k < |CarMakes| ==> CommonTerms[k] == Lower(CarMakes[k])
  {
  }

  /** A make is suggested exactly when its lower-cased name contains the
      term. */
  lemma {:induction false} MakeSuggestionsMembership(makes: seq<string>, term: string, m: string)
    ensures Suggestion(m, Make) in MakeSuggestions(makes, term) <==> m in makes && Includes(Lower(m), term)
  {
    if makes != [] {
      var n := |makes| - 1;
      MakeSuggestionsMembership(makes[..n], term, m);
      assert makes == makes[..n] + [makes[n]];
    }
  }

  lemma {:induction false} ModelsOfMembership(make: string, models: seq<string>, term: string, t: string)
    ensures Suggestion(t, Model) in ModelsOf(make, models, term) <==>
      exists j :: 0 <= j < |models| && t == make + " " + models[j]
        && (Includes(Lower(models[j]), term) || Includes(Lower(make), term))
  {
    if models != [] {
      var n := |models| - 1;
      ModelsOfMembership(make, models[..n], term, t);
      assert forall j :: 0 <= j < n ==> models[..n][j] == models[j];
    }
  }

  /** Row `j` of make `i` of the table gives the text `t` and matches. */
  predicate ModelRow(table: seq<(string, seq<string>)>, term: string, t: string, i: int, j: int) {
    && 0 <= i < |table| && 0 <= j < |table[i].1| && t == table[i].0 + " " + table[i].1[j]
    && (Includes(Lower(table[i].1[j]), term) || Includes(Lower(table[i].0), term))
  }

  /** A "Make Model" row is suggested exactly when the model or its make
      contains the term. */
  lemma {:induction false} ModelSuggestionsMembership(table: seq<(string, seq<string>)>, term: string, t: string)
    ensures Suggestion(t, Model) in ModelSuggestions(table, term) <==>
      exists i, j :: ModelRow(table, term, t, i, j)
  {
    if table != [] {
      var n := |table| - 1;
      var init := table[..n];
      var make, models := table[n].0, table[n].1;
      ModelSuggestionsMembership(init, term, t);
      ModelsOfMembership(make, models, term, t);
      var x := Suggestion(t, Model);
      assert ModelSuggestions(table, term) == ModelSuggestions(init, term) + ModelsOf(make, models, term);
      if x in ModelSuggestions(table, term) {
        if x in ModelSuggestions(init, term) {
          var i, j :| ModelRow(init, term, t, i, j);
          assert table[i] == init[i];
          assert ModelRow(table, term, t, i, j);
        } else {
          var j :| 0 <= j < |models| && t == make + " " + models[j]
            && (Includes(Lower(models[j]), term) || Includes(Lower(make), term));
          assert ModelRow(table, term, t, n, j);
        }
      }
      if exists i, j :: ModelRow(table, term, t, i, j) {
        var i, j :| ModelRow(table, term, t, i, j);
        if i < n {
          assert table[i] == init[i];
          assert ModelRow(init, term, t, i, j);
        } else {
          assert 0 <= j < |models| && t == make + " " + models[j];
        }
      }
    }
  }

  function KindRank(k: Kind): nat {
    match k
    case Make => 0
    case Model => 1
    case Year => 2
    case Spelling => 3
  }

  /** The autocomplete list shows makes first, then "Make Model" rows, then
      the year, and is the first six of those rows. */
  lemma AutocompleteOrder(searchTerm: Option<string>)
    ensures var r := Autocomplete(searchTerm);
      forall i, j :: 0 <= i < j < |r| ==> KindRank(r[i].kind) <= KindRank(r[j].kind)
    ensures searchTerm.Some? && |searchTerm.value| >= 2 ==>
      var all := AllSuggestions(Lower(searchTerm.value));
      Autocomplete(searchTerm) == all[..|Autocomplete(searchTerm)|]
      && |Autocomplete(searchTerm)| == if |all| < 6 then |all| else 6
  {
    if searchTerm.Some? && |searchTerm.value| >= 2 {
      var term := Lower(searchTerm.value);
      var mk := MakeSuggestions(CarMakes, term);
      var md := ModelSuggestions(CarModels, term);
      var yr := YearSuggestion(term);
      var all := mk + md + yr;
      assert forall i :: 0 <= i < |all| ==>
        KindRank(all[i].kind) == if i < |mk| then 0 else if i < |mk| + |md| then 1 else 2;
    }
  }

  /** The year row repeats the typed term: a term of at most four digits
      worth 1990 or more has four digits and no leading zero. */
  lemma YearSuggestionEchoesTerm(term: string)
    ensures YearSuggestion(term) != [] <==> YearLikeTerm(term) && 1990 <= DigitsValue(term) <= 2024
    ensures YearSuggestion(term) != [] ==> YearSuggestion(term) == [Suggestion(term, Year)]
  {
    if YearLikeTerm(term) && 1990 <= DigitsValue(term) <= 2024 {
      DigitsValueBelow(term);
      assert Pow10(3) == 1000;
      DigitsValueRoundTrip(term);
    }
  }

  /** A spelling suggestion is a capitalised common term within edit
      distance 2 of the typed term, not the term itself, and only for terms
      longer than two characters. */
  lemma {:induction false} SpellingHitsMembership(term: string, terms: seq<string>, x: string)
    ensures Suggestion(x, Spelling) in SpellingHits(term, terms) <==>
      exists k :: 0 <= k < |terms| && x == Capitalize(terms[k]) && Offered(term, terms[k])
  {
    if terms != [] {
      var n := |terms| - 1;
      SpellingHitsMembership(term, terms[..n], x);
      assert forall k :: 0 <= k < n ==> terms[..n][k] == terms[k];
    }
  }

  lemma {:induction false} WithoutMembership(xs: seq<string>, v: string, x: string)
    ensures x in Without(xs, v) <==> x in xs && x != v
  {
    if xs != [] {
      var n := |xs| - 1;
      WithoutMembership(xs[..n], v, x);
      assert xs == xs[..n] + [xs[n]];
    }
  }

  lemma {:induction false} WithoutKeepsOrder(xs: seq<string>, v: string) returns (f: seq<nat>)
    ensures Embeds(f, Without(xs, v), xs)
  {
    if xs == [] {
      f := [];
    } else {
      var n := |xs| - 1;
      var g := WithoutKeepsOrder(xs[..n], v);
      if xs[n] != v {
        f := g + [n];
      } else {
        f := g;
      }
    }
  }

  /** The clicked suggestion heads the new history exactly once; the other
      entries come from the old history, keep their relative order, and
      none is lost while the old history holds fewer than ten entries. */
  lemma HistoryUpdate(recent: seq<string>, suggestion: string)
    ensures var r := NewHistory(recent, suggestion);
      && r[0] == suggestion
      && suggestion !in r[1..]
      && (forall x :: x in r[1..] ==> x in recent)
      && SubsequenceOf(r[1..], recent)
      && (|recent| < 10 ==> forall x :: x in recent && x != suggestion ==> x in r)
  {
    var w := Without(recent, suggestion);
    var r := NewHistory(recent, suggestion);
    var tail := Take(w, 9);
    assert r == [suggestion] + tail;
    assert r[1..] == tail;
    forall x | x in tail ensures x in recent && x != suggestion {
      WithoutMembership(recent, suggestion, x);
    }
    var f := WithoutKeepsOrder(recent, suggestion);
    assert Embeds(f[..|tail|], tail, recent);
    if |recent| < 10 {
      forall x | x in recent && x != suggestion ensures x in r {
        WithoutMembership(recent, suggestion, x);
      }
    }
  }

  // ---------------------------------------------------------------------
  // The component's state

  class Dropdown {
    var popularSearches: seq<string>
    var recentSearches: seq<string>
    var autocompleteSuggestions: seq<Suggestion>
    var spellingSuggestions: seq<Suggestion>
    /** `localStorage`, holding the history list under `HistoryKey`. */
    var storage: map<string, seq<string>>

    /** Mounting: the first five stored entries become the recent searches. */
    constructor (storage: map<string, seq<string>>)
      ensures this.storage == storage
      ensures recentSearches == if HistoryKey in storage then Take(storage[HistoryKey], 5) else []
      ensures popularSearches == PopularSearches
      ensures autocompleteSuggestions == [] && spellingSuggestions == []
    {
      this.storage := storage;
      recentSearches := if HistoryKey in storage then Take(storage[HistoryKey], 5) else [];
      popularSearches := PopularSearches;
      autocompleteSuggestions := [];
      spellingSuggestions := [];
    }

    /** The effect that runs when the search term changes. */
    method OnSearchTerm(searchTerm: Option<string>)
      modifies this
      ensures autocompleteSuggestions == Autocomplete(searchTerm)
      ensures spellingSuggestions ==
        if searchTerm.None? || |searchTerm.value| < 2 then [] else SpellingSuggestions(Lower(searchTerm.value))
      ensures popularSearches == old(popularSearches) && recentSearches == old(recentSearches)
      ensures storage == old(storage)
    {
      if searchTerm.None? || |searchTerm.value| < 2 {
        autocompleteSuggestions := [];
        spellingSuggestions := [];
        return;
      }
      var term := Lower(searchTerm.value);
      autocompleteSuggestions := AutocompleteFor(term);
      spellingSuggestions := GenerateSpellingSuggestions(term);
    }

    /** `handleSuggestionClick(suggestion)`: the history is rewritten and
        its first five entries shown (the selection callback is the
        parent's). */
    method HandleSuggestionClick(suggestion: string)
      modifies this
      ensures storage == old(storage)[HistoryKey := NewHistory(old(recentSearches), suggestion)]
      ensures recentSearches == Take(NewHistory(old(recentSearches), suggestion), 5)
      ensures popularSearches == old(popularSearches)
      ensures autocompleteSuggestions == old(autocompleteSuggestions)
      ensures spellingSuggestions == old(spellingSuggestions)
    {
      var currentHistory := Without(recentSearches, suggestion);
      var newHistory := Take([suggestion] + currentHistory, 10);
      storage := storage[HistoryKey := newHistory];
      recentSearches := Take(newHistory, 5);
    }
  }
}
