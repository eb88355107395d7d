/**
 * The vehicle-listing state of src/hooks/useVehicleData.js: the filter
 * pipeline with its sentinel values, the integer-keyed sorts, the filter
 * record's merge and reset, and the suggested searches.
 *
 * The mock inventory, its make list and its popular searches live in a
 * data file this model does not include; they are parameters here.
 */
module VehicleData {
  import opened Text
  import opened Wrappers
  import opened Lists
  import Keywords

  datatype Vehicle = Vehicle(
    id: int, make: string, model: string, trim: string, year: nat,
    price: int, mileage: int, fuelType: string, transmission: string, marketPrice: int)

  datatype Filters = Filters(
    make: string, priceMin: int, priceMax: int, mileageMax: int,
    year: string, fuelType: string, transmission: string)

  /** The initial and the cleared filter record. */
  const DefaultFilters := Filters("", 0, 100000, 999999, "", "", "")

  // ---------------------------------------------------------------------
  // The filter pipeline

  /** The steps of `applyFilters`, in the order it applies them. */
  datatype Step = QueryStep | MakeStep | PriceMinStep | PriceMaxStep | MileageStep
                | YearStep | FuelStep | TransmissionStep

  const Steps: seq<Step> :=
    [QueryStep, MakeStep, PriceMinStep, PriceMaxStep, MileageStep, YearStep, FuelStep, TransmissionStep]

  /** The query test: the lower-cased (untrimmed) query occurs in the make,
      the model, the trim or "year make model". */
  predicate MatchesQuery(v: Vehicle, query: string) {
    var q := Lower(query);
    Includes(Lower(v.make), q) || Includes(Lower(v.model), q) || Includes(Lower(v.trim), q)
    || Includes(Lower(NatToString(v.year) + " " + v.make + " " + v.model), q)
  }

  /** Whether a step is switched on; its sentinel value switches it off. */
  predicate Active(step: Step, query: string, f: Filters) {
    match step
    case QueryStep => Trim(query) != ""
    case MakeStep => f.make != ""
    case PriceMinStep => f.priceMin > 0
    case PriceMaxStep => f.priceMax < 100000
    case MileageStep => f.mileageMax < 999999
    case YearStep => f.year != ""
    case FuelStep => f.fuelType != ""
    case TransmissionStep => f.transmission != ""
  }

  /** The test of one step. */
  predicate Test(v: Vehicle, step: Step, query: string, f: Filters) {
    match step
    case QueryStep => MatchesQuery(v, query)
    case MakeStep => Lower(v.make) == Lower(f.make)
    case PriceMinStep => v.price >= f.priceMin
    case PriceMaxStep => v.price <= f.priceMax
    case MileageStep => v.mileage <= f.mileageMax
    case YearStep => NatToString(v.year) == f.year
    case FuelStep => v.fuelType == f.fuelType
    case TransmissionStep => v.transmission == f.transmission
  }

  predicate Passes(v: Vehicle, step: Step, query: string, f: Filters) {
    Active(step, query, f) ==> Test(v, step, query, f)
  }

  /** `Array.prototype.filter`: the entries `keep` accepts, in order. */
  function KeepWhere<T>(xs: seq<T>, keep: T -> bool): (r: seq<T>)
    ensures |r| <= |xs|
  {
    if xs == [] then []
    else
      var n := |xs| - 1;
      KeepWhere(xs[..n], keep) + (if keep(xs[n]) then [xs[n]] else [])
  }

  /** `filtered.filter(...)` for one step. */
  function KeepPassing(vs: seq<Vehicle>, step: Step, query: string, f: Filters): seq<Vehicle> {
    KeepWhere(vs, v => Passes(v, step, query, f))
  }

  /** A vehicle passes the first `k` steps. */
  predicate PassesFirst(v: Vehicle, k: nat, query: string, f: Filters)
    requires k <= |Steps|
  {
    forall i :: 0 <= i < k ==> Passes(v, Steps[i], query, f)
  }

  /** A vehicle passes every active filter. */
  predicate Admitted(v: Vehicle, query: string, f: Filters) {
    PassesFirst(v, |Steps|, query, f)
  }

  /** The vehicles that pass the first `k` steps, in input order. */
  function Selected(vs: seq<Vehicle>, k: nat, query: string, f: Filters): (r: seq<Vehicle>)
    requires k <= |Steps|
  {
    if vs == [] then []
    else
      var n := |vs| - 1;
      Selected(vs[..n], k, query, f) + (if PassesFirst(vs[n], k, query, f) then [vs[n]] else [])
  }

  lemma {:induction false} SelectedStep(vs: seq<Vehicle>, k: nat, query: string, f: Filters)
    requires k < |Steps|
    ensures KeepPassing(Selected(vs, k, query, f), Steps[k], query, f) == Selected(vs, k + 1, query, f)
  {
    if vs != [] {
      var n := |vs| - 1;
      SelectedStep(vs[..n], k, query, f);
      var prev := Selected(vs[..n], k, query, f);
      var last := if PassesFirst(vs[n], k, query, f) then [vs[n]] else [];
      KeepWhereAppend(prev, last, v => Passes(v, Steps[k], query, f));
    }
  }

  lemma {:induction false} KeepWhereAppend<T>(xs: seq<T>, ys: seq<T>, keep: T -> bool)
    ensures KeepWhere(xs + ys, keep) == KeepWhere(xs, keep) + KeepWhere(ys, keep)
    decreases |ys|
  {
    if ys == [] {
      assert xs + ys == xs;
    } else {
      var n := |ys| - 1;
      KeepWhereAppend(xs, ys[..n], keep);
      var zs := xs + ys;
      var tail := if keep(ys[n]) then [ys[n]] else [];
      assert zs[..|zs| - 1] == xs + ys[..n];
      assert zs[|zs| - 1] == ys[n];
      assert KeepWhere(zs, keep) == KeepWhere(xs + ys[..n], keep) + tail;
      assert KeepWhere(ys, keep) == KeepWhere(ys[..n], keep) + tail;
      assert KeepWhere(xs, keep) + KeepWhere(ys[..n], keep) + tail
        == KeepWhere(xs, keep) + (KeepWhere(ys[..n], keep) + tail);
    }
  }

  lemma SelectedNone(vs: seq<Vehicle>, query: string, f: Filters)
    ensures Selected(vs, 0, query, f) == vs
  {
    if vs != [] {
      SelectedNone(vs[..|vs| - 1], query, f);
    }
  }

  /** The vehicles kept by `applyFilters` are exactly the input vehicles
      that pass every active filter. */
  lemma {:induction false} SelectedMembership(vs: seq<Vehicle>, query: string, f: Filters, v: Vehicle)
    ensures v in Selected(vs, |Steps|, query, f) <==> v in vs && Admitted(v, query, f)
  {
    if vs != [] {
      var n := |vs| - 1;
      SelectedMembership(vs[..n], query, f, v);
      assert vs == vs[..n] + [vs[n]];
    }
  }

  lemma {:induction false} SelectedAll(vs: seq<Vehicle>, query: string, f: Filters)
    requires forall v :: v in vs ==> Admitted(v, query, f)
    ensures Selected(vs, |Steps|, query, f) == vs
  {
    if vs != [] {
      var n := |vs| - 1;
      assert forall v :: v in vs[..n] ==> v in vs;
      SelectedAll(vs[..n], query, f);
      assert vs[n] in vs;
    }
  }

  /** With the default filters and a blank query every filter is switched
      off, so every vehicle is kept, in order. */
  lemma DefaultsKeepEverything(vs: seq<Vehicle>, query: string)
    requires Trim(query) == ""
    ensures Selected(vs, |Steps|, query, DefaultFilters) == vs
  {
    forall v | v in vs ensures Admitted(v, query, DefaultFilters) {
      forall i | 0 <= i < |Steps| ensures Passes(v, Steps[i], query, DefaultFilters) {
        assert !Active(Steps[i], query, DefaultFilters);
      }
    }
    SelectedAll(vs, query, DefaultFilters);
  }

  /** A non-blank query keeps a vehicle only when it occurs in the make,
      model, trim or "year make model", case-insensitively. */
  lemma QueryFilterRule(v: Vehicle, query: string, f: Filters)
    requires Trim(query) != ""
    ensures Admitted(v, query, f) ==> MatchesQuery(v, query)
  {
    if Admitted(v, query, f) {
      assert Passes(v, Steps[0], query, f);
    }
  }

  /** Every active bound holds for every vehicle kept. */
  lemma AdmittedBounds(v: Vehicle, query: string, f: Filters)
    requires Admitted(v, query, f)
    ensures f.make != "" ==> Lower(v.make) == Lower(f.make)
    ensures f.priceMin > 0 ==> v.price >= f.priceMin
    ensures f.priceMax < 100000 ==> v.price <= f.priceMax
    ensures f.mileageMax < 999999 ==> v.mileage <= f.mileageMax
    ensures f.year != "" ==> NatToString(v.year) == f.year
    ensures f.fuelType != "" ==> v.fuelType == f.fuelType
    ensures f.transmission != "" ==> v.transmission == f.transmission
  {
    assert Passes(v, Steps[1], query, f) && Passes(v, Steps[2], query, f);
    assert Passes(v, Steps[3], query, f) && Passes(v, Steps[4], query, f);
    assert Passes(v, Steps[5], query, f) && Passes(v, Steps[6], query, f);
    assert Passes(v, Steps[7], query, f);
  }

  /** The filtering half of `applyFilters`: one `filter` per active step. */
  method FilterVehicles(vehicles: seq<Vehicle>, query: string, f: Filters) returns (filtered: seq<Vehicle>)
    ensures filtered == Selected(vehicles, |Steps|, query, f)
  {
    filtered := vehicles;
    SelectedNone(vehicles, query, f);
    // Each `if` of the source has the same shape: filter when active.
    filtered := ApplyStep(filtered, vehicles, 0, query, f);
    filtered := ApplyStep(filtered, vehicles, 1, query, f);
    filtered := ApplyStep(filtered, vehicles, 2, query, f);
    filtered := ApplyStep(filtered, vehicles, 3, query, f);
    filtered := ApplyStep(filtered, vehicles, 4, query, f);
    filtered := ApplyStep(filtered, vehicles, 5, query, f);
    filtered := ApplyStep(filtered, vehicles, 6, query, f);
    filtered := ApplyStep(filtered, vehicles, 7, query, f);
  }

  /** `if (<step active>) filtered = filtered.filter(<step test>)`. */
  method ApplyStep(filtered: seq<Vehicle>, vehicles: seq<Vehicle>, k: nat, query: string, f: Filters)
    returns (next: seq<Vehicle>)
    requires k < |Steps|
    requires filtered == Selected(vehicles, k, query, f)
    ensures next == Selected(vehicles, k + 1, query, f)
  {
    SelectedStep(vehicles, k, query, f);
    if Active(Steps[k], query, f) {
      next := KeepPassing(filtered, Steps[k], query, f);
    } else {
      next := filtered;
      KeepInactive(filtered, Steps[k], query, f);
    }
  }

  lemma {:induction false} KeepInactive(vs: seq<Vehicle>, step: Step, query: string, f: Filters)
    requires !Active(step, query, f)
    ensures KeepPassing(vs, step, query, f) == vs
  {
    if vs != [] {
      KeepInactive(vs[..|vs| - 1], step, query, f);
    }
  }

  // ---------------------------------------------------------------------
  // Sorting

  /** The sort methods with an integer key. */
  predicate Keyed(m: string) {
    m == "price-asc" || m == "price-desc" || m == "mileage-asc" || m == "mileage-desc"
    || m == "year-desc" || m == "year-asc"
  }

  /** The ascending key a keyed method sorts by (a descending sort sorts by
      the negated key). */
  function Rank(v: Vehicle, m: string): int {
    match m
    case "price-asc" => v.price
    case "price-desc" => -v.price
    case "mileage-asc" => v.mileage
    case "mileage-desc" => -v.mileage
    case "year-desc" => -(v.year as int)
    case "year-asc" => v.year
    case _ => 0
  }

  /** The comparator of `sortVehicles` is positive: `x` belongs after `y`.
      For "best-deals" the savings percentages are compared exactly, by
      cross-multiplication, then the prices. */
  predicate OutOfOrder(x: Vehicle, y: Vehicle, m: string) {
    if m == "best-deals" then
      if x.price * y.marketPrice != y.price * x.marketPrice
      then x.price * y.marketPrice > y.price * x.marketPrice
      else x.price > y.price
    else Rank(x, m) > Rank(y, m)
  }

  ghost predicate SortedBy(vs: seq<Vehicle>, m: string) {
    forall i, j :: 0 <= i < j < |vs| ==> Rank(vs[i], m) <= Rank(vs[j], m)
  }

  /** `sortVehicles(vehicleList, sortMethod)`: sorts a copy, so the input
      list is left as it is. */
  method SortVehicles(vehicleList: seq<Vehicle>, sortMethod: string) returns (sorted: seq<Vehicle>)
    ensures multiset(sorted) == multiset(vehicleList)
    ensures Keyed(sortMethod) ==> SortedBy(sorted, sortMethod)
    ensures !Keyed(sortMethod) && sortMethod != "best-deals" ==> sorted == vehicleList
  {
    if !Keyed(sortMethod) && sortMethod != "best-deals" {
      return vehicleList;
    }
    var a := new Vehicle[|vehicleList|](i requires 0 <= i < |vehicleList| => vehicleList[i]);
    assert a[..] == vehicleList;
    InsertionSort(a, sortMethod);
    sorted := a[..];
  }

  /** `Array.prototype.sort` with the comparator of `sortMethod`, as a
      stable insertion sort. */
  method InsertionSort(a: array<Vehicle>, m: string)
    modifies a
    ensures multiset(a[..]) == multiset(old(a[..]))
    ensures Keyed(m) ==> SortedBy(a[..], m)
  {
    if a.Length == 0 {
      return;
    }
    var i := 1;
    while i < a.Length
      invariant 1 <= i <= a.Length
      invariant multiset(a[..]) == multiset(old(a[..]))
      invariant Keyed(m) ==> SortedBy(a[..i], m)
    {
      InsertOne(a, i, m);
      i := i + 1;
    }
    assert a[..i] == a[..];
  }

  /** Moves `a[i]` left past every entry it belongs before. */
  method InsertOne(a: array<Vehicle>, i: nat, m: string)
    requires 1 <= i < a.Length
    requires Keyed(m) ==> SortedBy(a[..i], m)
    modifies a
    ensures multiset(a[..]) == multiset(old(a[..]))
    ensures Keyed(m) ==> SortedBy(a[..i + 1], m)
  {
    var j := i;
    if Keyed(m) {
      InsertingStart(a[..], i, m);
    }
    while j > 0 && OutOfOrder(a[j - 1], a[j], m)
      invariant 0 <= j <= i
      invariant multiset(a[..]) == multiset(old(a[..]))
      invariant Keyed(m) ==> Inserting(a[..], i, j, m)
    {
      ghost var s := a[..];
      a[j - 1], a[j] := a[j], a[j - 1];
      assert a[..] == s[j - 1 := s[j]][j := s[j - 1]];
      if Keyed(m) {
        InsertingStep(s, i, j, m);
      }
      j := j - 1;
    }
    if Keyed(m) {
      InsertingDone(a[..], i, j, m);
    }
  }

  /** Mid-insertion: the first `i + 1` entries are in order except the
      one at `j`, which ranks below everything after it. */
  ghost predicate Inserting(s: seq<Vehicle>, i: nat, j: nat, m: string)
    requires j <= i < |s|
  {
    && (forall p, q :: 0 <= p < q <= i && p != j && q != j ==> Rank(s[p], m) <= Rank(s[q], m))
    && (forall q :: j < q <= i ==> Rank(s[j], m) < Rank(s[q], m))
  }

  lemma InsertingStart(s: seq<Vehicle>, i: nat, m: string)
    requires i < |s| && SortedBy(s[..i], m)
    ensures Inserting(s, i, i, m)
  {
    forall p, q | 0 <= p < q <= i && p != i && q != i ensures Rank(s[p], m) <= Rank(s[q], m) {
      assert s[p] == s[..i][p] && s[q] == s[..i][q];
    }
  }

  lemma InsertingStep(s: seq<Vehicle>, i: nat, j: nat, m: string)
    requires 0 < j <= i < |s| && Keyed(m)
    requires Inserting(s, i, j, m) && OutOfOrder(s[j - 1], s[j], m)
    ensures Inserting(s[j - 1 := s[j]][j := s[j - 1]], i, j - 1, m)
  {
  }

  lemma InsertingDone(s: seq<Vehicle>, i: nat, j: nat, m: string)
    requires j <= i < |s| && Keyed(m) && Inserting(s, i, j, m)
    requires j == 0 || !OutOfOrder(s[j - 1], s[j], m)
    ensures SortedBy(s[..i + 1], m)
  {
  }

  // ---------------------------------------------------------------------
  // Filter record updates

  /** The keys a caller of `updateFilters` supplies. */
  datatype FilterPatch = FilterPatch(
    make: Option<string>, priceMin: Option<int>, priceMax: Option<int>, mileageMax: Option<int>,
    year: Option<string>, fuelType: Option<string>, transmission: Option<string>)

  /** `{ ...prev, ...newFilters }`. */
  function Merge(prev: Filters, patch: FilterPatch): (r: Filters)
    ensures patch.make.None? ==> r.make == prev.make
    ensures patch.make.Some? ==> r.make == patch.make.value
    ensures patch.priceMin.None? ==> r.priceMin == prev.priceMin
    ensures patch.priceMin.Some? ==> r.priceMin == patch.priceMin.value
    ensures patch.priceMax.None? ==> r.priceMax == prev.priceMax
    ensures patch.priceMax.Some? ==> r.priceMax == patch.priceMax.value
    ensures patch.mileageMax.None? ==> r.mileageMax == prev.mileageMax
    ensures patch.mileageMax.Some? ==> r.mileageMax == patch.mileageMax.value
    ensures patch.year.None? ==> r.year == prev.year
    ensures patch.year.Some? ==> r.year == patch.year.value
    ensures patch.fuelType.None? ==> r.fuelType == prev.fuelType
    ensures patch.fuelType.Some? ==> r.fuelType == patch.fuelType.value
    ensures patch.transmission.None? ==> r.transmission == prev.transmission
    ensures patch.transmission.Some? ==> r.transmission == patch.transmission.value
  {
    Filters(
      patch.make.GetOr(prev.make), patch.priceMin.GetOr(prev.priceMin), patch.priceMax.GetOr(prev.priceMax),
      patch.mileageMax.GetOr(prev.mileageMax), patch.year.GetOr(prev.year),
      patch.fuelType.GetOr(prev.fuelType), patch.transmission.GetOr(prev.transmission))
  }

  /** Merging the same keys twice changes nothing more. */
  lemma MergeIdempotent(prev: Filters, patch: FilterPatch)
    ensures Merge(Merge(prev, patch), patch) == Merge(prev, patch)
  {
  }

  // ---------------------------------------------------------------------
  // Suggested searches

  /** `${vehicle.make} ${vehicle.model}` of the vehicles whose make or model
      contains the query. */
  function MatchingNames(vs: seq<Vehicle>, lowerQuery: string): seq<string> {
    if vs == [] then []
    else
      var n := |vs| - 1;
      var v := vs[n];
      MatchingNames(vs[..n], lowerQuery)
        + (if Includes(Lower(v.make), lowerQuery) || Includes(Lower(v.model), lowerQuery)
           then [v.make + " " + v.model] else [])
  }

  function MatchingMakes(makes: seq<string>, lowerQuery: string): (r: seq<string>)
    ensures |r| <= |makes|
  {
    if makes == [] then []
    else
      var n := |makes| - 1;
      MatchingMakes(makes[..n], lowerQuery)
        + (if Includes(Lower(makes[n]), lowerQuery) then [makes[n]] else [])
  }

  /** `getSuggestedSearches(query)` over the inventory `vehicles`, the
      make list and the popular searches (`None` is a missing query). */
  function SuggestedSearches(query: Option<string>, vehicles: seq<Vehicle>, makes: seq<string>,
                             popular: seq<string>): (r: seq<string>)
    ensures |r| <= 8
  {
    if query.None? || |query.value| < 2 then Take(popular, 8)
    else
      var lowerQuery := Lower(query.value);
      Take(MatchingMakes(makes, lowerQuery) + Take(Keywords.Dedupe(MatchingNames(vehicles, lowerQuery)), 5), 8)
  }

  /** The vehicle test of `getSuggestedSearches`: the make or the model
      contains the lower-cased query. */
  predicate NameMatches(v: Vehicle, lowerQuery: string) {
    Includes(Lower(v.make), lowerQuery) || Includes(Lower(v.model), lowerQuery)
  }

  lemma {:induction false} MatchingNamesMembership(vs: seq<Vehicle>, lowerQuery: string, s: string)
    ensures s in MatchingNames(vs, lowerQuery) <==>
      exists v :: v in vs && NameMatches(v, lowerQuery) && s == v.make + " " + v.model
  {
    if vs != [] {
      var n := |vs| - 1;
      MatchingNamesMembership(vs[..n], lowerQuery, s);
      assert vs == vs[..n] + [vs[n]];
      if exists v :: v in vs && NameMatches(v, lowerQuery) && s == v.make + " " + v.model {
        var v :| v in vs && NameMatches(v, lowerQuery) && s == v.make + " " + v.model;
        if v != vs[n] {
          assert v in vs[..n];
        }
      }
    }
  }

  lemma {:induction false} MatchingMakesMembership(makes: seq<string>, lowerQuery: string, m: string)
    ensures m in MatchingMakes(makes, lowerQuery) <==> m in makes && Includes(Lower(m), lowerQuery)
  {
    if makes != [] {
      var n := |makes| - 1;
      MatchingMakesMembership(makes[..n], lowerQuery, m);
      assert makes == makes[..n] + [makes[n]];
    }
  }

  /** A short or missing query gets the first eight popular searches. */
  lemma ShortQuerySuggestsPopular(query: Option<string>, vehicles: seq<Vehicle>, makes: seq<string>,
                                  popular: seq<string>)
    requires query.None? || |query.value| < 2
    ensures var r := SuggestedSearches(query, vehicles, makes, popular);
      |r| == if |popular| < 8 then |popular| else 8
    ensures forall i :: 0 <= i < |SuggestedSearches(query, vehicles, makes, popular)| ==>
      SuggestedSearches(query, vehicles, makes, popular)[i] == popular[i]
  {
  }

  /** Otherwise the matching makes come first, in list order, and after
      them at most five distinct "make model" names of matching vehicles. */
  lemma SuggestionsMakesFirst(query: string, vehicles: seq<Vehicle>, makes: seq<string>, popular: seq<string>)
    requires |query| >= 2
    ensures var r := SuggestedSearches(Some(query), vehicles, makes, popular);
      var mm := MatchingMakes(makes, Lower(query));
      && (forall i :: 0 <= i < |r| && i < |mm| ==> r[i] == mm[i])
      && (|r| < 8 ==> |mm| <= |r|)
      && |r| <= |mm| + 5
      && (forall i, j :: |mm| <= i < j < |r| ==> r[i] != r[j])
  {
    var lq := Lower(query);
    var mm := MatchingMakes(makes, lq);
    var names := Keywords.Dedupe(MatchingNames(vehicles, lq));
    Keywords.DedupeIsDistinct(MatchingNames(vehicles, lq));
    var five := Take(names, 5);
    var r := SuggestedSearches(Some(query), vehicles, makes, popular);
    assert r == Take(mm + five, 8);
    forall i, j | |mm| <= i < j < |r| ensures r[i] != r[j] {
      assert r[i] == five[i - |mm|] == names[i - |mm|];
      assert r[j] == five[j - |mm|] == names[j - |mm|];
    }
  }

  /** Conversely nothing is dropped but by the two caps: the first five
      distinct matching names follow the matching makes, and the list is
      cut only at eight. */
  lemma SuggestionsListNames(query: string, vehicles: seq<Vehicle>, makes: seq<string>, popular: seq<string>)
    requires |query| >= 2
    ensures var r := SuggestedSearches(Some(query), vehicles, makes, popular);
      var mm := MatchingMakes(makes, Lower(query));
      var names := Keywords.Dedupe(MatchingNames(vehicles, Lower(query)));
      var shown := |mm| + (if |names| < 5 then |names| else 5);
      && |r| == (if shown < 8 then shown else 8)
      && (forall i :: 0 <= i < |names| && i < 5 && |mm| + i < 8 ==> r[|mm| + i] == names[i])
  {
    var lq := Lower(query);
    var mm := MatchingMakes(makes, lq);
    var names := Keywords.Dedupe(MatchingNames(vehicles, lq));
    var five := Take(names, 5);
    var r := SuggestedSearches(Some(query), vehicles, makes, popular);
    assert r == Take(mm + five, 8);
    forall i | 0 <= i < |names| && i < 5 && |mm| + i < 8 ensures r[|mm| + i] == names[i] {
      assert r[|mm| + i] == (mm + five)[|mm| + i] == five[i];
    }
  }

  /** So when few enough makes and names match, every matching vehicle's
      "make model" name is suggested. */
  lemma MatchingVehicleSuggested(query: string, vehicles: seq<Vehicle>, makes: seq<string>,
                                 popular: seq<string>, v: Vehicle)
    requires |query| >= 2 && v in vehicles && NameMatches(v, Lower(query))
    requires var names := Keywords.Dedupe(MatchingNames(vehicles, Lower(query)));
      |names| <= 5 && |MatchingMakes(makes, Lower(query))| + |names| <= 8
    ensures v.make + " " + v.model in SuggestedSearches(Some(query), vehicles, makes, popular)
  {
    var lq := Lower(query);
    var s := v.make + " " + v.model;
    var mm := MatchingMakes(makes, lq);
    var names := Keywords.Dedupe(MatchingNames(vehicles, lq));
    MatchingNamesMembership(vehicles, lq, s);
    assert s in names;
    var i :| 0 <= i < |names| && names[i] == s;
    SuggestionsListNames(query, vehicles, makes, popular);
    assert SuggestedSearches(Some(query), vehicles, makes, popular)[|mm| + i] == s;
  }

  /** Every suggestion for a longer query is a matching make or the
      "make model" name of a matching vehicle. */
  lemma SuggestionsMatchQuery(query: string, vehicles: seq<Vehicle>, makes: seq<string>,
                              popular: seq<string>, s: string)
    requires |query| >= 2 && s in SuggestedSearches(Some(query), vehicles, makes, popular)
    ensures (s in makes && Includes(Lower(s), Lower(query)))
      || exists v :: v in vehicles && NameMatches(v, Lower(query)) && s == v.make + " " + v.model
  {
    var lq := Lower(query);
    var mm := MatchingMakes(makes, lq);
    var five := Take(Keywords.Dedupe(MatchingNames(vehicles, lq)), 5);
    MatchingMakesMembership(makes, lq, s);
    MatchingNamesMembership(vehicles, lq, s);
    assert s in mm + five;
    if s !in mm {
      assert s in five;
    }
  }

  // ---------------------------------------------------------------------
  // The hook's state

  class VehicleStore {
    var vehicles: seq<Vehicle>
    var filteredVehicles: seq<Vehicle>
    var searchQuery: string
    var filters: Filters
    var sortBy: string

    constructor (vehicles: seq<Vehicle>)
      ensures this.vehicles == vehicles && filteredVehicles == []
      ensures searchQuery == "" && filters == DefaultFilters && sortBy == "price-asc"
    {
      this.vehicles := vehicles;
      filteredVehicles := [];
      searchQuery := "";
      filters := DefaultFilters;
      sortBy := "price-asc";
    }

    /** `applyFilters()`: the filtered list, sorted by `sortBy`. */
    method ApplyFilters()
      modifies this
      ensures multiset(filteredVehicles) == multiset(Selected(vehicles, |Steps|, searchQuery, filters))
      ensures Keyed(sortBy) ==> SortedBy(filteredVehicles, sortBy)
      ensures !Keyed(sortBy) && sortBy != "best-deals" ==>
        filteredVehicles == Selected(vehicles, |Steps|, searchQuery, filters)
      ensures vehicles == old(vehicles) && searchQuery == old(searchQuery)
      ensures filters == old(filters) && sortBy == old(sortBy)
    {
      var filtered := FilterVehicles(vehicles, searchQuery, filters);
      filtered := SortVehicles(filtered, sortBy);
      filteredVehicles := filtered;
    }

    /** `searchVehicles(query)`. */
    method SearchVehicles(query: string)
      modifies this
      ensures searchQuery == query
      ensures vehicles == old(vehicles) && filteredVehicles == old(filteredVehicles)
      ensures filters == old(filters) && sortBy == old(sortBy)
    {
      searchQuery := query;
    }

    /** `updateFilters(newFilters)`. */
    method UpdateFilters(patch: FilterPatch)
      modifies this
      ensures filters == Merge(old(filters), patch)
      ensures vehicles == old(vehicles) && filteredVehicles == old(filteredVehicles)
      ensures searchQuery == old(searchQuery) && sortBy == old(sortBy)
    {
      filters := Merge(filters, patch);
    }

    /** `clearFilters()`. */
    method ClearFilters()
      modifies this
      ensures filters == DefaultFilters && searchQuery == "" && sortBy == "price-asc"
      ensures vehicles == old(vehicles) && filteredVehicles == old(filteredVehicles)
    {
      filters := DefaultFilters;
      searchQuery := "";
      sortBy := "price-asc";
    }
  }
}
