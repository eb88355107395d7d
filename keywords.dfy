/**
 * The keyword tables of the query parser and its keyword matcher
 * (`KEYWORDS` and `findKeywordMatches` in src/utils/naturalLanguageSearch.js).
 *
 * A table is a list of (key, synonyms) entries in declaration order, the
 * order `Object.entries` yields for these string-keyed object literals.
 */
module Keywords {
  import opened Text

  type Table = seq<(string, seq<string>)>

  const VehicleTypes: Table := [
    ("sedan", ["sedan", "car"]),
    ("suv", ["suv", "crossover", "cuv", "sport utility"]),
    ("truck", ["truck", "pickup", "f-150", "silverado", "ram"]),
    ("hatchback", ["hatchback", "hatch"]),
    ("coupe", ["coupe", "sports car", "sport"]),
    ("wagon", ["wagon", "estate"]),
    ("convertible", ["convertible", "cabriolet", "roadster"])
  ]

  const BudgetTerms: seq<string> := ["budget", "cheap", "affordable", "low cost", "inexpensive"]
  const LuxuryTerms: seq<string> := ["luxury", "premium", "high-end", "expensive", "upscale"]

  const FuelTypes: Table := [
    ("gas", ["gas", "gasoline", "petrol", "regular"]),
    ("electric", ["electric", "ev", "battery", "tesla", "plug-in"]),
    ("hybrid", ["hybrid", "prius", "eco", "fuel efficient"]),
    ("diesel", ["diesel", "tdi"])
  ]

  const Qualities: Table := [
    ("reliable", ["reliable", "dependable", "trustworthy", "proven", "solid"]),
    ("sporty", ["sporty", "fast", "performance", "quick", "powerful"]),
    ("efficient", ["efficient", "eco", "economy", "fuel-efficient", "mpg"]),
    ("family", ["family", "family-friendly", "kids", "spacious", "roomy"]),
    ("compact", ["compact", "small", "city", "parking"]),
    ("new", ["new", "latest", "newest", "recent", "2024", "2023"]),
    ("used", ["used", "pre-owned", "second-hand", "older"])
  ]

  const Brands: Table := [
    ("toyota", ["toyota", "lexus"]),
    ("honda", ["honda", "acura"]),
    ("ford", ["ford", "lincoln"]),
    ("gm", ["chevrolet", "chevy", "cadillac", "gmc", "buick"]),
    ("nissan", ["nissan", "infiniti"]),
    ("hyundai", ["hyundai", "genesis", "kia"]),
    ("bmw", ["bmw", "mini"]),
    ("mercedes", ["mercedes", "mercedes-benz", "benz"]),
    ("audi", ["audi"]),
    ("volkswagen", ["volkswagen", "vw"]),
    ("mazda", ["mazda"]),
    ("subaru", ["subaru"]),
    ("tesla", ["tesla"]),
    ("volvo", ["volvo"]),
    ("jaguar", ["jaguar"]),
    ("porsche", ["porsche"])
  ]

  /** The make name the parser reports for a brand group (`brandMap`). */
  function BrandMake(key: string): (make: string)
    ensures key == "gm" ==> make == "Chevrolet"
    ensures key == "mercedes" ==> make == "Mercedes-Benz"
  {
    match key
    case "toyota" => "Toyota"
    case "honda" => "Honda"
    case "ford" => "Ford"
    case "gm" => "Chevrolet"
    case "nissan" => "Nissan"
    case "hyundai" => "Hyundai"
    case "bmw" => "BMW"
    case "mercedes" => "Mercedes-Benz"
    case "audi" => "Audi"
    case "volkswagen" => "Volkswagen"
    case "mazda" => "Mazda"
    case "subaru" => "Subaru"
    case "tesla" => "Tesla"
    case "volvo" => "Volvo"
    case "jaguar" => "Jaguar"
    case "porsche" => "Porsche"
    case _ => key   // `brandMap[key] || key`
  }

  predicate DistinctKeys(table: Table) {
    forall i, j :: 0 <= i < j < |table| ==> table[i].0 != table[j].0
  }

  /** Some synonym of the list occurs in the query. */
  predicate AnyIncluded(query: string, synonyms: seq<string>) {
    exists i :: 0 <= i < |synonyms| && Includes(query, Lower(synonyms[i]))
  }

  /** The keys the inner `forEach` pushes for one entry: one copy of `key`
      per synonym that occurs in the query. */
  function Pushes(query: string, key: string, synonyms: seq<string>): (r: seq<string>)
    ensures forall x :: x in r ==> x == key
    ensures r != [] <==> AnyIncluded(query, synonyms)
  {
    if synonyms == [] then []
    else
      var last := synonyms[|synonyms| - 1];
      var init := Pushes(query, key, synonyms[..|synonyms| - 1]);
      assert forall i :: 0 <= i < |synonyms| - 1 ==> synonyms[..|synonyms| - 1][i] == synonyms[i];
      init + (if Includes(query, Lower(last)) then [key] else [])
  }

  /** The `matches` array before de-duplication: every push, in order. */
  function RawMatches(query: string, table: Table): (r: seq<string>)
    ensures forall x :: x in r ==> exists i :: 0 <= i < |table| && table[i].0 == x
  {
    if table == [] then []
    else
      var n := |table| - 1;
      var init := RawMatches(query, table[..n]);
      assert forall i :: 0 <= i < n ==> table[..n][i] == table[i];
      init + Pushes(query, table[n].0, table[n].1)
  }

  /** `[...new Set(xs)]`: the distinct elements in order of first occurrence. */
  function Dedupe(xs: seq<string>): (r: seq<string>)
    ensures forall x :: x in r <==> x in xs
  {
    if xs == [] then []
    else
      var d := Dedupe(xs[..|xs| - 1]);
      assert xs == xs[..|xs| - 1] + [xs[|xs| - 1]];
      if xs[|xs| - 1] in d then d else d + [xs[|xs| - 1]]
  }

  /** Reference definition: the keys, in declaration order, that have at
      least one synonym occurring in the query. */
  function KeyMatches(query: string, table: Table): seq<string> {
    if table == [] then []
    else
      var n := |table| - 1;
      KeyMatches(query, table[..n]) + (if AnyIncluded(query, table[n].1) then [table[n].0] else [])
  }

  /** `findKeywordMatches(query, category)` for a key-to-synonyms table. */
  method FindKeywordMatches(query: string, table: Table) returns (matches: seq<string>)
    ensures matches == Dedupe(RawMatches(Lower(query), table))
  {
    var lowerQuery := Lower(query);
    var pushed: seq<string> := [];
    var i := 0;
    while i < |table|
      invariant 0 <= i <= |table|
      invariant pushed == RawMatches(lowerQuery, table[..i])
    {
      var block := PushMatches(lowerQuery, table[i].0, table[i].1);
      pushed := pushed + block;
      assert table[..i + 1][..i] == table[..i];
      i := i + 1;
    }
    assert table[..i] == table;
    matches := DistinctInOrder(pushed);
  }

  /** The inner `forEach` of `findKeywordMatches`: push the key once per
      synonym found in the query. */
  method PushMatches(lowerQuery: string, key: string, synonyms: seq<string>) returns (pushed: seq<string>)
    ensures pushed == Pushes(lowerQuery, key, synonyms)
  {
    pushed := [];
    var j := 0;
    while j < |synonyms|
      invariant 0 <= j <= |synonyms|
      invariant pushed == Pushes(lowerQuery, key, synonyms[..j])
    {
      if Includes(lowerQuery, Lower(synonyms[j])) {
        pushed := pushed + [key];
      }
      assert synonyms[..j + 1][..j] == synonyms[..j];
      j := j + 1;
    }
    assert synonyms[..j] == synonyms;
  }

  /** `[...new Set(xs)]`. */
  method DistinctInOrder(xs: seq<string>) returns (r: seq<string>)
    ensures r == Dedupe(xs)
  {
    r := [];
    var k := 0;
    while k < |xs|
      invariant 0 <= k <= |xs|
      invariant r == Dedupe(xs[..k])
    {
      assert xs[..k + 1][..k] == xs[..k];
      if xs[k] !in r {
        r := r + [xs[k]];
      }
      k := k + 1;
    }
    assert xs[..k] == xs;
  }

  /** `[...new Set(xs)]` holds no entry twice. */
  lemma {:induction false} DedupeIsDistinct(xs: seq<string>)
    ensures forall i, j :: 0 <= i < j < |Dedupe(xs)| ==> Dedupe(xs)[i] != Dedupe(xs)[j]
  {
    if xs != [] {
      DedupeIsDistinct(xs[..|xs| - 1]);
    }
  }

  lemma {:induction false} DedupeAppendBlock(xs: seq<string>, block: seq<string>, key: string)
    requires forall x :: x in block ==> x == key
    ensures Dedupe(xs + block) == Dedupe(xs) + (if block != [] && key !in xs then [key] else [])
    decreases |block|
  {
    if block == [] {
      assert xs + block == xs;
    } else {
      var n := |block| - 1;
      assert forall x :: x in block[..n] ==> x in block;
      DedupeAppendBlock(xs, block[..n], key);
      assert (xs + block)[..|xs + block| - 1] == xs + block[..n];
      assert block[n] in block;
      assert (xs + block)[|xs + block| - 1] == key;
    }
  }

  /** With distinct keys, de-duplicating the pushes gives the reference list. */
  lemma {:induction false} FindMatchesIsKeyMatches(query: string, table: Table)
    requires DistinctKeys(table)
    ensures Dedupe(RawMatches(query, table)) == KeyMatches(query, table)
    decreases |table|
  {
    if table != [] {
      var n := |table| - 1;
      assert DistinctKeys(table[..n]) by {
        assert forall i :: 0 <= i < n ==> table[..n][i] == table[i];
      }
      FindMatchesIsKeyMatches(query, table[..n]);
      LastKeyIsNew(query, table);
      var init := RawMatches(query, table[..n]);
      var p := Pushes(query, table[n].0, table[n].1);
      DedupeAppendBlock(init, p, table[n].0);
    }
  }

  /** The last entry's key was not pushed by any earlier entry. */
  lemma LastKeyIsNew(query: string, table: Table)
    requires table != [] && DistinctKeys(table)
    ensures table[|table| - 1].0 !in RawMatches(query, table[..|table| - 1])
  {
    var n := |table| - 1;
    assert forall i :: 0 <= i < n ==> table[..n][i].0 != table[n].0;
  }

  /** A key is matched exactly when one of its synonyms occurs in the query. */
  lemma {:induction false} KeyMatchesMembership(query: string, table: Table, x: string)
    ensures x in KeyMatches(query, table) <==>
      exists i :: 0 <= i < |table| && table[i].0 == x && AnyIncluded(query, table[i].1)
    decreases |table|
  {
    if table != [] {
      var n := |table| - 1;
      KeyMatchesMembership(query, table[..n], x);
      assert forall i :: 0 <= i < n ==> table[..n][i] == table[i];
    }
  }

  /** The first matched key is the key of the first entry, in declaration
      order, that has a synonym in the query: single-select picks are
      first-match-wins. */
  lemma {:induction false} FirstKeyMatch(query: string, table: Table)
    requires KeyMatches(query, table) != []
    ensures exists i :: (0 <= i < |table| && KeyMatches(query, table)[0] == table[i].0
                         && AnyIncluded(query, table[i].1)
                         && forall j :: 0 <= j < i ==> !AnyIncluded(query, table[j].1))
    decreases |table|
  {
    var n := |table| - 1;
    assert forall i :: 0 <= i < n ==> table[..n][i] == table[i];
    if KeyMatches(query, table[..n]) != [] {
      FirstKeyMatch(query, table[..n]);
    } else {
      forall j | 0 <= j < n ensures !AnyIncluded(query, table[j].1) {
        KeyMatchesMembership(query, table[..n], table[j].0);
      }
    }
  }

  /** No key is matched when no synonym of the table occurs. */
  lemma {:induction false} KeyMatchesEmpty(query: string, table: Table)
    ensures KeyMatches(query, table) == [] <==>
      forall i :: 0 <= i < |table| ==> !AnyIncluded(query, table[i].1)
  {
    if KeyMatches(query, table) != [] {
      KeyMatchesMembership(query, table, KeyMatches(query, table)[0]);
    } else {
      forall i | 0 <= i < |table| ensures !AnyIncluded(query, table[i].1) {
        KeyMatchesMembership(query, table, table[i].0);
      }
    }
  }

  lemma TablesHaveDistinctKeys()
    ensures DistinctKeys(VehicleTypes) && DistinctKeys(FuelTypes)
    ensures DistinctKeys(Qualities) && DistinctKeys(Brands)
  {
    RankedKeysAreDistinct(VehicleTypes, KeyRank);
    RankedKeysAreDistinct(FuelTypes, KeyRank);
    RankedKeysAreDistinct(Qualities, KeyRank);
    RankedKeysAreDistinct(Brands, KeyRank);
  }

  /** Keys that a function maps to their own positions are distinct. */
  lemma RankedKeysAreDistinct(table: Table, rank: string -> int)
    requires forall i :: 0 <= i < |table| ==> rank(table[i].0) == i
    ensures DistinctKeys(table)
  {
  }

  /** The position of a key within its table. */
  function KeyRank(key: string): int {
    match key
    case "sedan" => 0 case "suv" => 1 case "truck" => 2 case "hatchback" => 3
    case "coupe" => 4 case "wagon" => 5 case "convertible" => 6
    case "gas" => 0 case "electric" => 1 case "hybrid" => 2 case "diesel" => 3
    case "reliable" => 0 case "sporty" => 1 case "efficient" => 2 case "family" => 3
    case "compact" => 4 case "new" => 5 case "used" => 6
    case "toyota" => 0 case "honda" => 1 case "ford" => 2 case "gm" => 3
    case "nissan" => 4 case "hyundai" => 5 case "bmw" => 6 case "mercedes" => 7
    case "audi" => 8 case "volkswagen" => 9 case "mazda" => 10 case "subaru" => 11
    case "tesla" => 12 case "volvo" => 13 case "jaguar" => 14 case "porsche" => 15
    case _ => -1
  }
}
