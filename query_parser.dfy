/**
 * `parseNaturalLanguageQuery`, `determineSearchIntent` and
 * `generateSearchSuggestions` of src/utils/naturalLanguageSearch.js.
 *
 * The parser threads an accumulator (the parameters found so far, the
 * running confidence and the explanation list) through a fixed series of
 * stages.  `Parse` is that series as a function; the method
 * `ParseNaturalLanguageQuery` runs it by mutating locals, as the source
 * does, and is proved equal to it.
 *
 * Lines 255-256 of the source pass plain string arrays to
 * `findKeywordMatches`, which throws for them.  `ParseAsWritten` keeps that
 * behaviour; `Parse` reads the two lines as intended ("some budget / luxury
 * term occurs in the query") and is the version the rest of the model uses.
 */
module QueryParser {
  import opened Text
  import opened Wrappers
  import opened Keywords
  import opened Extraction

  // ---------------------------------------------------------------------
  // Data

  /** `parsedParams`: a key of the object is present exactly when the
      corresponding field is `Some`. */
  datatype Params = Params(
    make: Option<string>,
    model: Option<string>,
    bodyStyle: Option<string>,
    fuelType: Option<string>,
    priceMin: Option<nat>,
    priceMax: Option<nat>,
    year: Option<string>,
    yearMin: Option<nat>,
    yearMax: Option<nat>)

  /** `{}` */
  const NoParams := Params(None, None, None, None, None, None, None, None, None)

  /** One explanation line pushed to `suggestions`; the text itself (with
      its locale number formatting) is kept abstract. */
  datatype Explanation =
    | PriceRange(low: Option<nat>, high: Option<nat>)
    | YearIs(year: nat)
    | YearOrNewer(year: nat)
    | YearOrOlder(year: nat)
    | VehicleTypeIs(key: string)
    | FuelTypeIs(key: string)
    | BrandIs(make: string)
    | FamilySuv
    | EfficientHybrid
    | ReliableToyota
    | BudgetFriendly
    | LuxuryFloor
    | ModelIs(model: string)

  datatype Intent = Compare | Recommendation | Deals | FilteredSearch | GeneralSearch

  /** The parser's result; `intent` is `None` when the object has no
      `intent` key (the early return). */
  datatype ParsedQuery = ParsedQuery(
    originalQuery: string,
    parsedParams: Params,
    confidence: nat,
    suggestions: seq<Explanation>,
    intent: Option<Intent>)

  /** `TypeError` thrown by the JavaScript engine. */
  datatype Error = TypeError(message: string)

  /** The state the stages thread: `parsedParams`, `confidence` and
      `suggestions`. */
  datatype Acc = Acc(params: Params, score: nat, notes: seq<Explanation>)

  const Start := Acc(NoParams, 0, [])

  /** Something was found exactly when something was scored and exactly
      when something was explained. */
  predicate Consistent(acc: Acc) {
    (acc.params == NoParams <==> acc.score == 0) && (acc.params == NoParams <==> acc.notes == [])
  }

  // ---------------------------------------------------------------------
  // Stages

  /** The explanation line `e` when its rule fired, nothing otherwise. */
  function Note(present: bool, e: Explanation): seq<Explanation> {
    if present then [e] else []
  }

  /** Lines 171-177: the price bounds found, worth 30. */
  function PriceStage(acc: Acc, info: PriceInfo): (r: Acc)
    ensures info == PriceInfo(None, None) ==> r == acc
    ensures info != PriceInfo(None, None) ==>
      r.params == acc.params.(priceMin := if info.min.Some? then info.min else acc.params.priceMin,
                              priceMax := if info.max.Some? then info.max else acc.params.priceMax)
      && r.score == acc.score + 30 && r.notes == acc.notes + [PriceRange(info.min, info.max)]
    ensures Consistent(acc) ==> Consistent(r)
  {
    if info.min.Some? || info.max.Some? then
      var p := acc.params.(priceMin := if info.min.Some? then info.min else acc.params.priceMin);
      var q := p.(priceMax := if info.max.Some? then info.max else p.priceMax);
      Acc(q, acc.score + 30, acc.notes + [PriceRange(info.min, info.max)])
    else acc
  }

  /** Lines 180-195: an exact year (as a string) worth 20, or a lower or
      upper year bound worth 15. */
  function YearStage(acc: Acc, info: Option<YearInfo>): (r: Acc)
    ensures info.None? ==> r == acc
    ensures info.Some? && info.value.Exact? ==>
      r.params == acc.params.(year := Some(NatToString(info.value.year))) && r.score == acc.score + 20
      && r.notes == acc.notes + [YearIs(info.value.year)]
    ensures info.Some? && info.value.AtLeast? ==>
      r.params == acc.params.(yearMin := Some(info.value.min)) && r.score == acc.score + 15
      && r.notes == acc.notes + [YearOrNewer(info.value.min)]
    ensures info.Some? && info.value.AtMost? ==>
      r.params == acc.params.(yearMax := Some(info.value.max)) && r.score == acc.score + 15
      && r.notes == acc.notes + [YearOrOlder(info.value.max)]
    ensures Consistent(acc) ==> Consistent(r)
  {
    match info
    case None => acc
    case Some(Exact(y)) => Acc(acc.params.(year := Some(NatToString(y))), acc.score + 20, acc.notes + [YearIs(y)])
    case Some(AtLeast(y)) => Acc(acc.params.(yearMin := Some(y)), acc.score + 15, acc.notes + [YearOrNewer(y)])
    case Some(AtMost(y)) => Acc(acc.params.(yearMax := Some(y)), acc.score + 15, acc.notes + [YearOrOlder(y)])
  }

  /** Lines 198-203: the first matched vehicle type, worth 25. */
  function BodyStage(acc: Acc, types: seq<string>): (r: Acc)
    ensures types == [] ==> r == acc
    ensures types != [] ==>
      r.params == acc.params.(bodyStyle := Some(types[0])) && r.score == acc.score + 25
      && r.notes == acc.notes + [VehicleTypeIs(types[0])]
    ensures Consistent(acc) ==> Consistent(r)
  {
    if types != [] then
      Acc(acc.params.(bodyStyle := Some(types[0])), acc.score + 25, acc.notes + [VehicleTypeIs(types[0])])
    else acc
  }

  /** Lines 206-211: the first matched fuel type, worth 20. */
  function FuelStage(acc: Acc, fuels: seq<string>): (r: Acc)
    ensures fuels == [] ==> r == acc
    ensures fuels != [] ==>
      r.params == acc.params.(fuelType := Some(fuels[0])) && r.score == acc.score + 20
      && r.notes == acc.notes + [FuelTypeIs(fuels[0])]
    ensures Consistent(acc) ==> Consistent(r)
  {
    if fuels != [] then
      Acc(acc.params.(fuelType := Some(fuels[0])), acc.score + 20, acc.notes + [FuelTypeIs(fuels[0])])
    else acc
  }

  /** Lines 214-226: the make of the first matched brand group, worth 35. */
  function BrandStage(acc: Acc, brands: seq<string>): (r: Acc)
    ensures brands == [] ==> r == acc
    ensures brands != [] ==>
      r.params == acc.params.(make := Some(BrandMake(brands[0]))) && r.score == acc.score + 35
      && r.notes == acc.notes + [BrandIs(BrandMake(brands[0]))]
    ensures Consistent(acc) ==> Consistent(r)
  {
    if brands != [] then
      var make := BrandMake(brands[0]);
      Acc(acc.params.(make := Some(make)), acc.score + 35, acc.notes + [BrandIs(make)])
    else acc
  }

  /** Lines 229-252: `family` proposes an SUV (15), `efficient` a hybrid
      (15), `reliable` Toyota (10).  A proposal fills its field only when
      it is still empty, but its weight counts either way. */
  function QualityStage(acc: Acc, qualities: seq<string>): (r: Acc)
    ensures r.params.bodyStyle == (if acc.params.bodyStyle.None? && "family" in qualities
                                   then Some("suv") else acc.params.bodyStyle)
    ensures r.params.fuelType == (if acc.params.fuelType.None? && "efficient" in qualities
                                  then Some("hybrid") else acc.params.fuelType)
    ensures r.params.make == (if acc.params.make.None? && "reliable" in qualities
                              then Some("Toyota") else acc.params.make)
    ensures r.params.(bodyStyle := acc.params.bodyStyle, fuelType := acc.params.fuelType,
                      make := acc.params.make) == acc.params
    ensures r.score == acc.score + (if "family" in qualities then 15 else 0)
      + (if "efficient" in qualities then 15 else 0) + (if "reliable" in qualities then 10 else 0)
    ensures r.notes == acc.notes
      + (Note(acc.params.bodyStyle.None? && "family" in qualities, FamilySuv)
         + Note(acc.params.fuelType.None? && "efficient" in qualities, EfficientHybrid)
         + Note(acc.params.make.None? && "reliable" in qualities, ReliableToyota))
    ensures Consistent(acc) ==> Consistent(r)
  {
    var a1 :=
      if "family" in qualities then
        if acc.params.bodyStyle.None? then
          Acc(acc.params.(bodyStyle := Some("suv")), acc.score + 15, acc.notes + [FamilySuv])
        else acc.(score := acc.score + 15)
      else acc;
    var a2 :=
      if "efficient" in qualities then
        if a1.params.fuelType.None? then
          Acc(a1.params.(fuelType := Some("hybrid")), a1.score + 15, a1.notes + [EfficientHybrid])
        else a1.(score := a1.score + 15)
      else a1;
    if "reliable" in qualities then
      if a2.params.make.None? then
        Acc(a2.params.(make := Some("Toyota")), a2.score + 10, a2.notes + [ReliableToyota])
      else a2.(score := a2.score + 10)
    else a2
  }

  /** Lines 258-268: a budget term caps the price at 25000 and a luxury
      term floors it at 40000 (10 each), only where no bound is set. */
  function BudgetStage(acc: Acc, budget: bool, luxury: bool): (r: Acc)
    ensures r.params.priceMax == (if budget && acc.params.priceMax.None? then Some(25000) else acc.params.priceMax)
    ensures r.params.priceMin == (if luxury && acc.params.priceMin.None? then Some(40000) else acc.params.priceMin)
    ensures r.params.(priceMin := acc.params.priceMin, priceMax := acc.params.priceMax) == acc.params
    ensures r.score == acc.score + (if budget && acc.params.priceMax.None? then 10 else 0)
      + (if luxury && acc.params.priceMin.None? then 10 else 0)
    ensures r.notes == acc.notes
      + (Note(budget && acc.params.priceMax.None?, BudgetFriendly)
         + Note(luxury && acc.params.priceMin.None?, LuxuryFloor))
    ensures Consistent(acc) ==> Consistent(r)
  {
    var a1 :=
      if budget && acc.params.priceMax.None? then
        Acc(acc.params.(priceMax := Some(25000)), acc.score + 10, acc.notes + [BudgetFriendly])
      else acc;
    if luxury && a1.params.priceMin.None? then
      Acc(a1.params.(priceMin := Some(40000)), a1.score + 10, a1.notes + [LuxuryFloor])
    else a1
  }

  /** `commonModels`, lines 271-275. */
  const CommonModels: seq<string> := [
    "camry", "accord", "civic", "corolla", "prius", "rav4", "cr-v",
    "f-150", "silverado", "tahoe", "suburban", "model 3", "model y",
    "x3", "x5", "3 series", "5 series", "c-class", "e-class"
  ]

  /** One iteration of the `commonModels.forEach` at lines 277-283. */
  function ModelStep(acc: Acc, lowerQuery: string, model: string): Acc {
    if Includes(lowerQuery, model) then
      Acc(acc.params.(model := Some(model)), acc.score + 40, acc.notes + [ModelIs(model)])
    else acc
  }

  /** The `forEach` over `models`, in list order. */
  function ModelStage(acc: Acc, lowerQuery: string, models: seq<string>): Acc
  {
    if models == [] then acc
    else ModelStep(ModelStage(acc, lowerQuery, models[..|models| - 1]), lowerQuery, models[|models| - 1])
  }

  /** Reference definition: the listed models that occur in the query, in
      list order. */
  function ModelHits(lowerQuery: string, models: seq<string>): (hits: seq<string>)
  {
    if models == [] then []
    else
      var n := |models| - 1;
      ModelHits(lowerQuery, models[..n]) + (if Includes(lowerQuery, models[n]) then [models[n]] else [])
  }

  function ModelNotes(hits: seq<string>): (notes: seq<Explanation>)
    ensures |notes| == |hits| && forall i :: 0 <= i < |hits| ==> notes[i] == ModelIs(hits[i])
  {
    seq(|hits|, i requires 0 <= i < |hits| => ModelIs(hits[i]))
  }

  /** A model is a hit exactly when it is listed and occurs in the query. */
  lemma {:induction false} ModelHitsMembers(lowerQuery: string, models: seq<string>, m: string)
    ensures m in ModelHits(lowerQuery, models) <==> m in models && Includes(lowerQuery, m)
    decreases |models|
  {
    if models != [] {
      var n := |models| - 1;
      assert models == models[..n] + [models[n]];
      ModelHitsMembers(lowerQuery, models[..n], m);
    }
  }

  /** The model scan keeps the LAST listed model that occurs, scores 40 per
      occurring model, explains each one, and touches nothing else. */
  lemma {:induction false} ModelStageEffect(acc: Acc, lowerQuery: string, models: seq<string>)
    ensures ModelStage(acc, lowerQuery, models).params ==
      (if ModelHits(lowerQuery, models) == [] then acc.params
       else acc.params.(model := Some(ModelHits(lowerQuery, models)[|ModelHits(lowerQuery, models)| - 1])))
    ensures ModelStage(acc, lowerQuery, models).score == acc.score + 40 * |ModelHits(lowerQuery, models)|
    ensures ModelStage(acc, lowerQuery, models).notes == acc.notes + ModelNotes(ModelHits(lowerQuery, models))
    decreases |models|
  {
    if models != [] {
      var n := |models| - 1;
      ModelStageEffect(acc, lowerQuery, models[..n]);
      var hits := ModelHits(lowerQuery, models[..n]);
      if Includes(lowerQuery, models[n]) {
        assert ModelNotes(hits + [models[n]]) == ModelNotes(hits) + [ModelIs(models[n])];
      }
    }
  }

  lemma ModelStageKeeps(acc: Acc, lowerQuery: string, models: seq<string>)
    ensures Consistent(acc) ==> Consistent(ModelStage(acc, lowerQuery, models))
  {
    ModelStageEffect(acc, lowerQuery, models);
  }

  // ---------------------------------------------------------------------
  // The parser

  /** What the scans and the keyword matcher found in a query: the inputs
      of the stages. */
  datatype Findings = Findings(
    prices: PriceInfo,
    years: Option<YearInfo>,
    types: seq<string>,
    fuels: seq<string>,
    brands: seq<string>,
    qualities: seq<string>,
    budget: bool,
    luxury: bool)

  /** `query.toLowerCase().trim()`, the text the keyword stages search. */
  function Normalized(query: string): string {
    Trim(Lower(query))
  }

  /** The findings of lines 171-256, with the budget and luxury lists read
      as intended: some term of the list occurs in the query. */
  function FindingsOf(query: string, currentYear: int): Findings {
    var lq := Normalized(query);
    Findings(
      ClassifyPrices(Lower(query), CandidatePrices(Lower(query))),
      ClassifyYears(Lower(query), CandidateYears(query, currentYear)),
      KeyMatches(lq, VehicleTypes),
      KeyMatches(lq, FuelTypes),
      KeyMatches(lq, Brands),
      KeyMatches(lq, Qualities),
      AnyIncluded(lq, BudgetTerms),
      AnyIncluded(lq, LuxuryTerms))
  }

  /** The stages of lines 171-268, in source order. */
  function KeywordStages(f: Findings): Acc {
    var a1 := PriceStage(Start, f.prices);
    var a2 := YearStage(a1, f.years);
    var a3 := BodyStage(a2, f.types);
    var a4 := FuelStage(a3, f.fuels);
    var a5 := BrandStage(a4, f.brands);
    var a6 := QualityStage(a5, f.qualities);
    BudgetStage(a6, f.budget, f.luxury)
  }

  /** All stages after the early return, in source order. */
  function Stages(f: Findings, lq: string): Acc {
    ModelStage(KeywordStages(f), lq, CommonModels)
  }

  function Clamp(score: nat): (c: nat)
    ensures c <= 100 && (c == score || (c == 100 && score > 100))
  {
    if score < 100 then score else 100
  }

  /** The object returned at lines 156-163 for a too-short query. */
  function EarlyResult(query: string): ParsedQuery {
    ParsedQuery(query, NoParams, 0, [], None)
  }

  function Finish(query: string, acc: Acc): ParsedQuery {
    ParsedQuery(query, acc.params, Clamp(acc.score), acc.notes,
                Some(DetermineSearchIntent(Normalized(query), acc.params)))
  }

  /** `parseNaturalLanguageQuery(query)` with lines 255-256 read as
      intended, and the current year as a parameter. */
  function Parse(query: string, currentYear: int): (r: ParsedQuery)
    ensures r.originalQuery == query
    ensures |Trim(query)| < 3 <==> r.intent.None?
    ensures |Trim(query)| < 3 ==> r.parsedParams == NoParams && r.confidence == 0 && r.suggestions == []
    ensures r.confidence <= 100
  {
    if |Trim(query)| < 3 then EarlyResult(query)
    else Finish(query, Stages(FindingsOf(query, currentYear), Normalized(query)))
  }

  /** `findKeywordMatches(query, array)` as written: `Object.entries` of a
      non-empty array yields (index, string) pairs, and the string has no
      `forEach`, so the first entry throws. */
  function FindKeywordMatchesOnArray(query: string, terms: seq<string>): (r: Result<seq<string>, Error>)
    ensures r.Failure? <==> terms != []
    ensures r.Success? ==> r.value == []
  {
    if terms == [] then Success([]) else Failure(TypeError("synonyms.forEach is not a function"))
  }

  /** `parseNaturalLanguageQuery(query)` exactly as written, with the
      exception as a `Failure`. */
  function ParseAsWritten(query: string, currentYear: int): Result<ParsedQuery, Error> {
    if |Trim(query)| < 3 then Success(EarlyResult(query))
    else
      var lq := Normalized(query);
      match FindKeywordMatchesOnArray(lq, BudgetTerms)
      case Failure(e) => Failure(e)
      case Success(budgetTerms) =>
        match FindKeywordMatchesOnArray(lq, LuxuryTerms)
        case Failure(e) => Failure(e)
        case Success(luxuryTerms) =>
          var f := FindingsOf(query, currentYear).(budget := budgetTerms != [], luxury := luxuryTerms != []);
          Success(Finish(query, Stages(f, lq)))
  }

  /** `query.toLowerCase().trim()` is already lower case, so the keyword
      matcher's own `toLowerCase` leaves it unchanged. */
  lemma NormalizedIsLower(query: string)
    ensures Lower(Normalized(query)) == Normalized(query)
  {
    var l := Lower(query);
    var t := TrimStart(l);
    var u := TrimEnd(t);
    assert t == l[|l| - |t|..];
    assert u == t[..|u|];
    forall i | 0 <= i < |u| ensures LowerChar(u[i]) == u[i] {
      assert u[i] == l[|l| - |t| + i];
    }
  }

  /** The single-entry table a budget or luxury term list stands for once
      it is read as intended. */
  function TermTable(key: string, terms: seq<string>): Table {
    [(key, terms)]
  }

  /** A one-entry term table matches exactly when a term occurs. */
  lemma TermTableMatches(lq: string, key: string, terms: seq<string>)
    ensures KeyMatches(lq, TermTable(key, terms)) != [] <==> AnyIncluded(lq, terms)
  {
    KeyMatchesEmpty(lq, TermTable(key, terms));
  }

  /** `findKeywordMatches(lowerQuery, table)` on the normalized query, for
      a table with distinct keys: the reference key list. */
  method MatchKeys(lowerQuery: string, table: Table) returns (keys: seq<string>)
    requires Lower(lowerQuery) == lowerQuery && DistinctKeys(table)
    ensures keys == KeyMatches(lowerQuery, table)
  {
    keys := FindKeywordMatches(lowerQuery, table);
    FindMatchesIsKeyMatches(lowerQuery, table);
  }

  /** Lines 165-256: the scans and keyword matches, in source order. */
  method Gather(query: string, currentYear: int) returns (f: Findings)
    ensures f == FindingsOf(query, currentYear)
  {
    var lowerQuery := Trim(Lower(query));
    NormalizedIsLower(query);
    TablesHaveDistinctKeys();
    var priceInfo := ExtractPriceInfo(query);
    var yearInfo := ExtractYearInfo(query, currentYear);
    var vehicleTypes := MatchKeys(lowerQuery, VehicleTypes);
    var fuelTypes := MatchKeys(lowerQuery, FuelTypes);
    var brands := MatchKeys(lowerQuery, Brands);
    var qualities := MatchKeys(lowerQuery, Qualities);
    var budgetTerms := MatchKeys(lowerQuery, TermTable("budget", BudgetTerms));
    var luxuryTerms := MatchKeys(lowerQuery, TermTable("luxury", LuxuryTerms));
    TermTableMatches(lowerQuery, "budget", BudgetTerms);
    TermTableMatches(lowerQuery, "luxury", LuxuryTerms);
    f := Findings(priceInfo, yearInfo, vehicleTypes, fuelTypes, brands, qualities,
                  |budgetTerms| > 0, |luxuryTerms| > 0);
  }

  /** Lines 172-195: the price and year blocks, updating the parameters,
      the confidence and the explanations in place. */
  method ApplyPriceAndYear(prices: PriceInfo, years: Option<YearInfo>) returns (acc: Acc)
    ensures acc == YearStage(PriceStage(Start, prices), years)
  {
    var parsedParams := NoParams;
    var confidence: nat := 0;
    var suggestions: seq<Explanation> := [];
    if prices.min.Some? || prices.max.Some? {
      if prices.min.Some? { parsedParams := parsedParams.(priceMin := prices.min); }
      if prices.max.Some? { parsedParams := parsedParams.(priceMax := prices.max); }
      confidence := confidence + 30;
      suggestions := suggestions + [PriceRange(prices.min, prices.max)];
    }
    if years.Some? {
      match years.value
      case Exact(y) =>
        parsedParams := parsedParams.(year := Some(NatToString(y)));
        confidence := confidence + 20;
        suggestions := suggestions + [YearIs(y)];
      case AtLeast(y) =>
        parsedParams := parsedParams.(yearMin := Some(y));
        confidence := confidence + 15;
        suggestions := suggestions + [YearOrNewer(y)];
      case AtMost(y) =>
        parsedParams := parsedParams.(yearMax := Some(y));
        confidence := confidence + 15;
        suggestions := suggestions + [YearOrOlder(y)];
    }
    acc := Acc(parsedParams, confidence, suggestions);
  }

  /** Lines 198-226: the body style, fuel type and make picks. */
  method ApplyPicks(acc0: Acc, types: seq<string>, fuels: seq<string>, brands: seq<string>) returns (acc: Acc)
    ensures acc == BrandStage(FuelStage(BodyStage(acc0, types), fuels), brands)
  {
    var parsedParams, confidence, suggestions := acc0.params, acc0.score, acc0.notes;
    if |types| > 0 {
      parsedParams := parsedParams.(bodyStyle := Some(types[0]));
      confidence := confidence + 25;
      suggestions := suggestions + [VehicleTypeIs(types[0])];
    }
    if |fuels| > 0 {
      parsedParams := parsedParams.(fuelType := Some(fuels[0]));
      confidence := confidence + 20;
      suggestions := suggestions + [FuelTypeIs(fuels[0])];
    }
    if |brands| > 0 {
      parsedParams := parsedParams.(make := Some(BrandMake(brands[0])));
      confidence := confidence + 35;
      suggestions := suggestions + [BrandIs(BrandMake(brands[0]))];
    }
    acc := Acc(parsedParams, confidence, suggestions);
  }

  /** Lines 229-252: the quality defaults. */
  method ApplyQualities(acc0: Acc, qualities: seq<string>) returns (acc: Acc)
    ensures acc == QualityStage(acc0, qualities)
  {
    var parsedParams, confidence, suggestions := acc0.params, acc0.score, acc0.notes;
    if "family" in qualities {
      if parsedParams.bodyStyle.None? {
        parsedParams := parsedParams.(bodyStyle := Some("suv"));
        suggestions := suggestions + [FamilySuv];
      }
      confidence := confidence + 15;
    }
    if "efficient" in qualities {
      if parsedParams.fuelType.None? {
        parsedParams := parsedParams.(fuelType := Some("hybrid"));
        suggestions := suggestions + [EfficientHybrid];
      }
      confidence := confidence + 15;
    }
    if "reliable" in qualities {
      if parsedParams.make.None? {
        parsedParams := parsedParams.(make := Some("Toyota"));
        suggestions := suggestions + [ReliableToyota];
      }
      confidence := confidence + 10;
    }
    acc := Acc(parsedParams, confidence, suggestions);
  }

  /** Lines 255-268: the budget cap and the luxury floor. */
  method ApplyBudget(acc0: Acc, budget: bool, luxury: bool) returns (acc: Acc)
    ensures acc == BudgetStage(acc0, budget, luxury)
  {
    var parsedParams, confidence, suggestions := acc0.params, acc0.score, acc0.notes;
    if budget && parsedParams.priceMax.None? {
      parsedParams := parsedParams.(priceMax := Some(25000));
      confidence := confidence + 10;
      suggestions := suggestions + [BudgetFriendly];
    }
    if luxury && parsedParams.priceMin.None? {
      parsedParams := parsedParams.(priceMin := Some(40000));
      confidence := confidence + 10;
      suggestions := suggestions + [LuxuryFloor];
    }
    acc := Acc(parsedParams, confidence, suggestions);
  }

  /** Lines 277-283: the `commonModels.forEach` loop. */
  method ApplyModels(acc0: Acc, lowerQuery: string) returns (acc: Acc)
    ensures acc == ModelStage(acc0, lowerQuery, CommonModels)
  {
    var parsedParams, confidence, suggestions := acc0.params, acc0.score, acc0.notes;
    var i := 0;
    while i < |CommonModels|
      invariant 0 <= i <= |CommonModels|
      invariant Acc(parsedParams, confidence, suggestions) == ModelStage(acc0, lowerQuery, CommonModels[..i])
    {
      var model := CommonModels[i];
      if Includes(lowerQuery, model) {
        parsedParams := parsedParams.(model := Some(model));
        confidence := confidence + 40;
        suggestions := suggestions + [ModelIs(model)];
      }
      assert CommonModels[..i + 1][..i] == CommonModels[..i];
      i := i + 1;
    }
    assert CommonModels[..i] == CommonModels;
    acc := Acc(parsedParams, confidence, suggestions);
  }

  /** `parseNaturalLanguageQuery`: after the early return, the blocks of
      the source in order, then the clamped confidence and the intent. */
  method ParseNaturalLanguageQuery(query: string, currentYear: int) returns (result: ParsedQuery)
    ensures result == Parse(query, currentYear)
  {
    if |Trim(query)| < 3 {
      return ParsedQuery(query, NoParams, 0, [], None);
    }
    var lowerQuery := Trim(Lower(query));
    var f := Gather(query, currentYear);
    var acc := ApplyPriceAndYear(f.prices, f.years);
    acc := ApplyPicks(acc, f.types, f.fuels, f.brands);
    acc := ApplyQualities(acc, f.qualities);
    acc := ApplyBudget(acc, f.budget, f.luxury);
    assert acc == KeywordStages(f);
    acc := ApplyModels(acc, lowerQuery);
    var intent := DetermineSearchIntent(lowerQuery, acc.params);
    result := ParsedQuery(query, acc.params, if acc.score < 100 then acc.score else 100,
                          acc.notes, Some(intent));
  }

  // ---------------------------------------------------------------------
  // Intent

  predicate SaysCompare(query: string) {
    Includes(query, "compare") || Includes(query, "vs")
  }

  predicate SaysBest(query: string) {
    Includes(query, "best") || Includes(query, "top") || Includes(query, "recommend")
  }

  predicate SaysDeal(query: string) {
    Includes(query, "deal") || Includes(query, "sale") || Includes(query, "discount")
  }

  /** `determineSearchIntent`: the first rule that applies wins. */
  function DetermineSearchIntent(query: string, params: Params): (intent: Intent)
    ensures intent == Compare <==> SaysCompare(query)
    ensures intent == Recommendation <==> !SaysCompare(query) && SaysBest(query)
    ensures intent == Deals <==> !SaysCompare(query) && !SaysBest(query) && SaysDeal(query)
    ensures intent == FilteredSearch <==>
      !SaysCompare(query) && !SaysBest(query) && !SaysDeal(query) && params != NoParams
    ensures intent == GeneralSearch <==>
      !SaysCompare(query) && !SaysBest(query) && !SaysDeal(query) && params == NoParams
  {
    if SaysCompare(query) then Compare
    else if SaysBest(query) then Recommendation
    else if SaysDeal(query) then Deals
    else if params != NoParams then FilteredSearch
    else GeneralSearch
  }

  // ---------------------------------------------------------------------
  // Properties of the parser

  function Weight(present: bool, w: nat): nat {
    if present then w else 0
  }

  function YearWeight(years: Option<YearInfo>): nat {
    match years
    case None => 0
    case Some(Exact(_)) => 20
    case Some(_) => 15
  }

  /** Reference definition of the unclamped confidence: the weight of
      every stage that fires, read off the findings alone. */
  function Score(f: Findings, hits: seq<string>): nat {
    Weight(f.prices != PriceInfo(None, None), 30)
    + YearWeight(f.years)
    + Weight(f.types != [], 25) + Weight(f.fuels != [], 20) + Weight(f.brands != [], 35)
    + Weight("family" in f.qualities, 15) + Weight("efficient" in f.qualities, 15)
    + Weight("reliable" in f.qualities, 10)
    + Weight(f.budget && f.prices.max.None?, 10)
    + Weight(f.luxury && f.prices.min.None?, 10)
    + 40 * |hits|
  }

  /** Reference definition of the parameters, field by field and without
      the stage order: a matched body style, fuel type or brand is the
      first matched key, and a quality default fills only a field that no
      keyword filled; the price bounds come from the price rule, with the
      budget cap and the luxury floor only where that rule set no bound;
      the model is the last listed model present. */
  function Expected(f: Findings, hits: seq<string>): Params {
    Params(
      make := if f.brands != [] then Some(BrandMake(f.brands[0]))
              else if "reliable" in f.qualities then Some("Toyota") else None,
      model := if hits != [] then Some(hits[|hits| - 1]) else None,
      bodyStyle := if f.types != [] then Some(f.types[0])
                   else if "family" in f.qualities then Some("suv") else None,
      fuelType := if f.fuels != [] then Some(f.fuels[0])
                  else if "efficient" in f.qualities then Some("hybrid") else None,
      priceMin := if f.prices.min.Some? then f.prices.min
                  else if f.luxury then Some(40000) else None,
      priceMax := if f.prices.max.Some? then f.prices.max
                  else if f.budget then Some(25000) else None,
      year := if f.years.Some? && f.years.value.Exact? then Some(NatToString(f.years.value.year)) else None,
      yearMin := if f.years.Some? && f.years.value.AtLeast? then Some(f.years.value.min) else None,
      yearMax := if f.years.Some? && f.years.value.AtMost? then Some(f.years.value.max) else None)
  }

  function YearNotes(years: Option<YearInfo>): seq<Explanation> {
    match years
    case None => []
    case Some(Exact(y)) => [YearIs(y)]
    case Some(AtLeast(y)) => [YearOrNewer(y)]
    case Some(AtMost(y)) => [YearOrOlder(y)]
  }

  /** Reference definition of the explanations of the keyword stages,
      read off the findings alone: one line per rule that fired, in rule
      order, where a quality default is explained only when no keyword
      filled its field and a budget cap or luxury floor only when the price
      rule set no bound on that side. */
  function KeywordNotes(f: Findings): seq<Explanation> {
    Note(f.prices != PriceInfo(None, None), PriceRange(f.prices.min, f.prices.max))
    + YearNotes(f.years)
    + (Note(f.types != [], VehicleTypeIs(if f.types != [] then f.types[0] else ""))
       + Note(f.fuels != [], FuelTypeIs(if f.fuels != [] then f.fuels[0] else ""))
       + Note(f.brands != [], BrandIs(if f.brands != [] then BrandMake(f.brands[0]) else "")))
    + (Note(f.types == [] && "family" in f.qualities, FamilySuv)
       + Note(f.fuels == [] && "efficient" in f.qualities, EfficientHybrid)
       + Note(f.brands == [] && "reliable" in f.qualities, ReliableToyota))
    + (Note(f.budget && f.prices.max.None?, BudgetFriendly)
       + Note(f.luxury && f.prices.min.None?, LuxuryFloor))
  }

  /** Reference definition of all explanations: the keyword lines, then
      one line per listed model present. */
  function ExpectedNotes(f: Findings, hits: seq<string>): seq<Explanation> {
    KeywordNotes(f) + ModelNotes(hits)
  }

  /** The price and year stages, from the start. */
  lemma PriceYearEffect(f: Findings)
    ensures var a := YearStage(PriceStage(Start, f.prices), f.years);
      && a.params == NoParams.(
           priceMin := f.prices.min, priceMax := f.prices.max,
           year := if f.years.Some? && f.years.value.Exact? then Some(NatToString(f.years.value.year)) else None,
           yearMin := if f.years.Some? && f.years.value.AtLeast? then Some(f.years.value.min) else None,
           yearMax := if f.years.Some? && f.years.value.AtMost? then Some(f.years.value.max) else None)
      && a.score == Weight(f.prices != PriceInfo(None, None), 30)
                    + YearWeight(f.years)
      && a.notes == Note(f.prices != PriceInfo(None, None), PriceRange(f.prices.min, f.prices.max))
                    + YearNotes(f.years)
      && Consistent(a)
  {
    assert Consistent(Start);
  }

  /** The three single-select picks. */
  lemma PicksEffect(acc: Acc, f: Findings)
    ensures var a := BrandStage(FuelStage(BodyStage(acc, f.types), f.fuels), f.brands);
      && a.params == acc.params.(
           bodyStyle := if f.types != [] then Some(f.types[0]) else acc.params.bodyStyle,
           fuelType := if f.fuels != [] then Some(f.fuels[0]) else acc.params.fuelType,
           make := if f.brands != [] then Some(BrandMake(f.brands[0])) else acc.params.make)
      && a.score == acc.score + Weight(f.types != [], 25) + Weight(f.fuels != [], 20)
                    + Weight(f.brands != [], 35)
      && a.notes == acc.notes
           + (Note(f.types != [], VehicleTypeIs(if f.types != [] then f.types[0] else ""))
              + Note(f.fuels != [], FuelTypeIs(if f.fuels != [] then f.fuels[0] else ""))
              + Note(f.brands != [], BrandIs(if f.brands != [] then BrandMake(f.brands[0]) else "")))
      && (Consistent(acc) ==> Consistent(a))
  {
  }

  /** The quality defaults and the budget/luxury bounds. */
  lemma DefaultsEffect(acc: Acc, f: Findings)
    ensures var a := BudgetStage(QualityStage(acc, f.qualities), f.budget, f.luxury);
      && a.params == acc.params.(
           bodyStyle := if acc.params.bodyStyle.None? && "family" in f.qualities then Some("suv") else acc.params.bodyStyle,
           fuelType := if acc.params.fuelType.None? && "efficient" in f.qualities then Some("hybrid") else acc.params.fuelType,
           make := if acc.params.make.None? && "reliable" in f.qualities then Some("Toyota") else acc.params.make,
           priceMax := if f.budget && acc.params.priceMax.None? then Some(25000) else acc.params.priceMax,
           priceMin := if f.luxury && acc.params.priceMin.None? then Some(40000) else acc.params.priceMin)
      && a.score == acc.score + Weight("family" in f.qualities, 15) + Weight("efficient" in f.qualities, 15)
                    + Weight("reliable" in f.qualities, 10) + Weight(f.budget && acc.params.priceMax.None?, 10)
                    + Weight(f.luxury && acc.params.priceMin.None?, 10)
      && (Consistent(acc) ==> Consistent(a))
  {
  }

  /** What the quality defaults and the budget/luxury bounds explain. */
  lemma DefaultsNotes(acc: Acc, f: Findings)
    ensures BudgetStage(QualityStage(acc, f.qualities), f.budget, f.luxury).notes == acc.notes
      + (Note(acc.params.bodyStyle.None? && "family" in f.qualities, FamilySuv)
         + Note(acc.params.fuelType.None? && "efficient" in f.qualities, EfficientHybrid)
         + Note(acc.params.make.None? && "reliable" in f.qualities, ReliableToyota))
      + (Note(f.budget && acc.params.priceMax.None?, BudgetFriendly)
         + Note(f.luxury && acc.params.priceMin.None?, LuxuryFloor))
  {
    var a6 := QualityStage(acc, f.qualities);
    assert a6.params.priceMax == acc.params.priceMax && a6.params.priceMin == acc.params.priceMin;
  }

  /** The stages before the model scan compute the reference parameters
      (no model yet). */
  lemma KeywordStagesParams(f: Findings)
    ensures KeywordStages(f).params == Expected(f, [])
  {
    KeywordStagesPicks(f);
    KeywordStagesPrices(f);
    KeywordStagesYears(f);
  }

  lemma KeywordStagesPicks(f: Findings)
    ensures var p := KeywordStages(f).params; var e := Expected(f, []);
      p.make == e.make && p.bodyStyle == e.bodyStyle && p.fuelType == e.fuelType
  {
    var a2 := YearStage(PriceStage(Start, f.prices), f.years);
    var a5 := BrandStage(FuelStage(BodyStage(a2, f.types), f.fuels), f.brands);
    PriceYearEffect(f);
    PicksEffect(a2, f);
    DefaultsEffect(a5, f);
  }

  lemma KeywordStagesPrices(f: Findings)
    ensures var p := KeywordStages(f).params; var e := Expected(f, []);
      p.priceMin == e.priceMin && p.priceMax == e.priceMax
  {
    var a2 := YearStage(PriceStage(Start, f.prices), f.years);
    var a5 := BrandStage(FuelStage(BodyStage(a2, f.types), f.fuels), f.brands);
    PriceYearEffect(f);
    PicksEffect(a2, f);
    DefaultsEffect(a5, f);
  }

  lemma KeywordStagesYears(f: Findings)
    ensures var p := KeywordStages(f).params; var e := Expected(f, []);
      p.year == e.year && p.yearMin == e.yearMin && p.yearMax == e.yearMax && p.model == e.model
  {
    var a2 := YearStage(PriceStage(Start, f.prices), f.years);
    var a5 := BrandStage(FuelStage(BodyStage(a2, f.types), f.fuels), f.brands);
    PriceYearEffect(f);
    PicksEffect(a2, f);
    DefaultsEffect(a5, f);
  }

  /** The stages before the model scan score everything but the models,
      and keep the accumulator consistent. */
  lemma KeywordStagesScore(f: Findings)
    ensures KeywordStages(f).score == Score(f, [])
    ensures Consistent(KeywordStages(f))
  {
    var a2 := YearStage(PriceStage(Start, f.prices), f.years);
    PriceYearEffect(f);
    var a5 := BrandStage(FuelStage(BodyStage(a2, f.types), f.fuels), f.brands);
    PicksEffect(a2, f);
    DefaultsEffect(a5, f);
    var a7 := BudgetStage(QualityStage(a5, f.qualities), f.budget, f.luxury);
    assert KeywordStages(f) == a7;
    assert a5.params.priceMax == f.prices.max && a5.params.priceMin == f.prices.min;
    var picks := Weight(f.types != [], 25) + Weight(f.fuels != [], 20) + Weight(f.brands != [], 35);
    var defaults := Weight("family" in f.qualities, 15) + Weight("efficient" in f.qualities, 15)
      + Weight("reliable" in f.qualities, 10) + Weight(f.budget && f.prices.max.None?, 10)
      + Weight(f.luxury && f.prices.min.None?, 10);
    assert a5.score == a2.score + picks;
    assert a7.score == a5.score + defaults;
  }

  /** The stages before the model scan explain exactly the reference
      keyword lines. */
  lemma KeywordStagesNotes(f: Findings)
    ensures KeywordStages(f).notes == KeywordNotes(f)
  {
    var a2 := YearStage(PriceStage(Start, f.prices), f.years);
    PriceYearEffect(f);
    var a5 := BrandStage(FuelStage(BodyStage(a2, f.types), f.fuels), f.brands);
    PicksEffect(a2, f);
    DefaultsNotes(a5, f);
    assert a5.params.bodyStyle.None? <==> f.types == [];
    assert a5.params.fuelType.None? <==> f.fuels == [];
    assert a5.params.make.None? <==> f.brands == [];
    assert a5.params.priceMax == f.prices.max && a5.params.priceMin == f.prices.min;
  }

  /** The stages compute the reference parameters and score, and keep the
      accumulator consistent. */
  lemma StagesEffect(f: Findings, lq: string)
    ensures Stages(f, lq).params == Expected(f, ModelHits(lq, CommonModels))
    ensures Stages(f, lq).score == Score(f, ModelHits(lq, CommonModels))
    ensures Stages(f, lq).notes == ExpectedNotes(f, ModelHits(lq, CommonModels))
    ensures Consistent(Stages(f, lq))
  {
    KeywordStagesParams(f);
    KeywordStagesScore(f);
    KeywordStagesNotes(f);
    ModelStageEffect(KeywordStages(f), lq, CommonModels);
    ModelStageKeeps(KeywordStages(f), lq, CommonModels);
  }

  /** Past the early return, the parameters are the reference parameters
      of the query's findings and the confidence is their score clamped
      to 100; the budget and luxury findings are "some term occurs". */
  lemma ParseFields(query: string, currentYear: int)
    requires |Trim(query)| >= 3
    ensures Parse(query, currentYear).parsedParams == Expected(FindingsOf(query, currentYear), ModelHits(Normalized(query), CommonModels))
    ensures Parse(query, currentYear).confidence == Clamp(Score(FindingsOf(query, currentYear), ModelHits(Normalized(query), CommonModels)))
    ensures Parse(query, currentYear).suggestions == ExpectedNotes(FindingsOf(query, currentYear), ModelHits(Normalized(query), CommonModels))
    ensures FindingsOf(query, currentYear).budget <==> AnyIncluded(Normalized(query), BudgetTerms)
    ensures FindingsOf(query, currentYear).luxury <==> AnyIncluded(Normalized(query), LuxuryTerms)
  {
    StagesEffect(FindingsOf(query, currentYear), Normalized(query));
  }

  /** Nothing was parsed exactly when the confidence is 0, and exactly when
      there is no explanation; so a general search has confidence 0. */
  lemma NothingFoundIffZeroConfidence(query: string, currentYear: int)
    ensures Parse(query, currentYear).parsedParams == NoParams <==> Parse(query, currentYear).confidence == 0
    ensures Parse(query, currentYear).parsedParams == NoParams <==> Parse(query, currentYear).suggestions == []
    ensures Parse(query, currentYear).intent == Some(GeneralSearch) ==> Parse(query, currentYear).confidence == 0
  {
    if |Trim(query)| >= 3 {
      StagesEffect(FindingsOf(query, currentYear), Normalized(query));
    }
  }

  /** The year fields follow the year rule over the candidate years: the
      first as a string, or the latest as a lower bound, or the earliest as
      an upper bound, and at most one of the three is set. */
  lemma YearFields(f: Findings, hits: seq<string>, lowerQuery: string, years: seq<nat>)
    requires f.years == ClassifyYears(lowerQuery, years)
    ensures var p := Expected(f, hits);
      && (p.year.Some? || p.yearMin.Some? || p.yearMax.Some? <==> years != [])
      && (p.year.Some? ==> years != [] && p.year == Some(NatToString(years[0])) && p.yearMin.None? && p.yearMax.None?)
      && (p.yearMin.Some? ==> p.yearMin.value in years && (forall y :: y in years ==> y <= p.yearMin.value) && p.yearMax.None?)
      && (p.yearMax.Some? ==> p.yearMax.value in years && forall y :: y in years ==> p.yearMax.value <= y)
  {
  }

  /** As written, the parser throws exactly for the queries that get past
      the early return; where it does not throw it agrees with `Parse`. */
  lemma ParseAsWrittenThrows(query: string, currentYear: int)
    ensures ParseAsWritten(query, currentYear).Failure? <==> |Trim(query)| >= 3
    ensures ParseAsWritten(query, currentYear).Success? ==>
      ParseAsWritten(query, currentYear).value == Parse(query, currentYear)
  {
  }

  // ---------------------------------------------------------------------
  // Search suggestions

  /** Lines 314-322. */
  const CannedQueries: seq<string> := [
    "Reliable family SUV under $30k",
    "Fuel efficient hybrid cars",
    "Luxury sedans over $40k",
    "Electric vehicles 2023 or newer",
    "Budget-friendly trucks under $25k",
    "Small cars for city driving",
    "Best deals on Toyota vehicles"
  ]

  /** Lines 344-348. */
  function Templates(partial: string): seq<string> {
    [partial + " with low mileage", partial + " 2022 or newer", partial + " under $40k"]
  }

  /** Lines 329-342: the completions of the trigger words present. */
  function TriggerCompletions(partial: string): seq<string> {
    var lower := Lower(partial);
    (if Includes(lower, "reliable") then ["reliable family SUV under $30k", "reliable Honda or Toyota sedan"] else [])
    + (if Includes(lower, "family") then ["family SUV with good safety ratings", "family-friendly 7-seater vehicles"] else [])
    + (if Includes(lower, "budget") then ["budget cars under $20k", "budget SUVs with low mileage"] else [])
  }

  /** The completion table as data: each completion with the word that
      triggers it, in the order they are offered. */
  const CompletionTable: seq<(string, string)> := [
    ("reliable", "reliable family SUV under $30k"),
    ("reliable", "reliable Honda or Toyota sedan"),
    ("family", "family SUV with good safety ratings"),
    ("family", "family-friendly 7-seater vehicles"),
    ("budget", "budget cars under $20k"),
    ("budget", "budget SUVs with low mileage")
  ]

  /** Reference definition: the completions of `table` whose trigger word
      occurs in `lower`, in table order. */
  function CompletionsFor(lower: string, table: seq<(string, string)>): seq<string> {
    if table == [] then []
    else (if Includes(lower, table[0].0) then [table[0].1] else []) + CompletionsFor(lower, table[1..])
  }

  /** A completion is offered exactly when some table entry with that text
      has its trigger word in the input, and the offered ones keep table
      order. */
  lemma {:induction false} CompletionsForMembers(lower: string, table: seq<(string, string)>, c: string)
    ensures c in CompletionsFor(lower, table) <==>
      exists k :: 0 <= k < |table| && table[k].1 == c && Includes(lower, table[k].0)
    decreases |table|
  {
    if table != [] {
      CompletionsForMembers(lower, table[1..], c);
      if c in CompletionsFor(lower, table[1..]) {
        var k :| 0 <= k < |table[1..]| && table[1..][k].1 == c && Includes(lower, table[1..][k].0);
        assert table[k + 1] == table[1..][k];
      }
      if exists k :: 0 <= k < |table| && table[k].1 == c && Includes(lower, table[k].0) {
        var k :| 0 <= k < |table| && table[k].1 == c && Includes(lower, table[k].0);
        if k > 0 {
          assert table[1..][k - 1] == table[k];
        }
      }
    }
  }

  lemma CompletionsForCons(lower: string, e: (string, string), rest: seq<(string, string)>)
    ensures CompletionsFor(lower, [e] + rest) ==
      (if Includes(lower, e.0) then [e.1] else []) + CompletionsFor(lower, rest)
  {
    assert ([e] + rest)[1..] == rest;
  }

  /** The three `if` blocks of lines 329-342 offer exactly the table's
      completions. */
  lemma TriggerCompletionsFollowTable(partial: string)
    ensures TriggerCompletions(partial) == CompletionsFor(Lower(partial), CompletionTable)
  {
    var lower := Lower(partial);
    var t := CompletionTable;
    CompletionsForCons(lower, t[5], []);
    assert [t[5]] + [] == t[5..];
    CompletionsForCons(lower, t[4], t[5..]);
    assert [t[4]] + t[5..] == t[4..];
    CompletionsForCons(lower, t[3], t[4..]);
    assert [t[3]] + t[4..] == t[3..];
    CompletionsForCons(lower, t[2], t[3..]);
    assert [t[2]] + t[3..] == t[2..];
    CompletionsForCons(lower, t[1], t[2..]);
    assert [t[1]] + t[2..] == t[1..];
    CompletionsForCons(lower, t[0], t[1..]);
    assert [t[0]] + t[1..] == t;
  }

  predicate HasTrigger(partial: string) {
    var lower := Lower(partial);
    Includes(lower, "reliable") || Includes(lower, "family") || Includes(lower, "budget")
  }

  /** Lines 313-349 on top of the corrected parser (whose result the
      generator does not use). */
  function GenerateSearchSuggestions(partial: string): (r: seq<string>)
    ensures |partial| < 2 ==> r == CannedQueries
    ensures |partial| >= 2 && !HasTrigger(partial) ==> r == Templates(partial)
    ensures |partial| >= 2 && HasTrigger(partial) ==>
      r == CompletionsFor(Lower(partial), CompletionTable) && |r| % 2 == 0 && 2 <= |r| <= 6
    ensures r != []
  {
    if |partial| < 2 then CannedQueries
    else
      var s := TriggerCompletions(partial);
      TriggerCompletionsFollowTable(partial);
      if |s| > 0 then s else Templates(partial)
  }

  /** `generateSearchSuggestions` as written: the parser call at line 325
      throws for every input whose trimmed length is at least 3. */
  function GenerateSearchSuggestionsAsWritten(partial: string, currentYear: int): Result<seq<string>, Error> {
    if |partial| < 2 then Success(CannedQueries)
    else
      match ParseAsWritten(partial, currentYear)
      case Failure(e) => Failure(e)
      case Success(_) =>
        var s := TriggerCompletions(partial);
        Success(if |s| > 0 then s else Templates(partial))
  }

  /** A non-space character at positions `i` and `j` of `s` survives
      trimming, and so does everything between them. */
  lemma TrimKeeps(s: string, i: nat, j: nat)
    requires i <= j < |s| && !IsSpace(s[i]) && !IsSpace(s[j])
    ensures |Trim(s)| >= j - i + 1
  {
    var t := TrimStart(s);
    var a := |s| - |t|;
    assert i >= a;
    assert t[j - a] == s[j];
    var u := TrimEnd(t);
    assert j - a < |u|;
  }

  /** A word of at least three non-space characters found in the
      lower-cased input makes the trimmed input at least three long. */
  lemma WordDefeatsEarlyReturn(s: string, w: string)
    requires |w| >= 3 && !IsSpace(w[0]) && !IsSpace(w[|w| - 1])
    requires Includes(Lower(s), w)
    ensures |Trim(s)| >= 3
  {
    var i :| 0 <= i <= |Lower(s)| - |w| && OccursAt(Lower(s), w, i);
    var j := i + |w| - 1;
    assert LowerChar(s[i]) == w[0] && LowerChar(s[j]) == w[|w| - 1];
    assert !IsSpace(s[i]) && !IsSpace(s[j]);
    TrimKeeps(s, i, j);
  }

  /** As written the generator fails exactly on trimmed length 3 or more. */
  lemma SuggestionsAsWrittenThrows(partial: string, currentYear: int)
    ensures GenerateSearchSuggestionsAsWritten(partial, currentYear).Failure? <==> |Trim(partial)| >= 3
  {
    ParseAsWrittenThrows(partial, currentYear);
  }

  /** Hence, as written, the trigger-word completions are never produced:
      the generator only ever returns the canned list or the three
      templates. */
  lemma SuggestionsAsWrittenNeverComplete(partial: string, currentYear: int)
    ensures GenerateSearchSuggestionsAsWritten(partial, currentYear).Success? ==>
      GenerateSearchSuggestionsAsWritten(partial, currentYear).value == CannedQueries
      || GenerateSearchSuggestionsAsWritten(partial, currentYear).value == Templates(partial)
  {
    SuggestionsAsWrittenThrows(partial, currentYear);
    if |Trim(partial)| < 3 {
      ShortInputHasNoTrigger(partial);
    }
  }

  /** An input that the early return catches holds no trigger word. */
  lemma ShortInputHasNoTrigger(partial: string)
    requires |Trim(partial)| < 3
    ensures !HasTrigger(partial) && TriggerCompletions(partial) == []
  {
    if HasTrigger(partial) {
      TriggerDefeatsEarlyReturn(partial);
      assert false;
    }
    NoTriggerNoCompletions(partial);
  }

  /** Each trigger word is three letters or more, without spaces at its ends. */
  lemma TriggerDefeatsEarlyReturn(partial: string)
    requires HasTrigger(partial)
    ensures |Trim(partial)| >= 3
  {
    var lower := Lower(partial);
    if Includes(lower, "reliable") {
      WordDefeatsEarlyReturn(partial, "reliable");
    } else if Includes(lower, "family") {
      WordDefeatsEarlyReturn(partial, "family");
    } else {
      WordDefeatsEarlyReturn(partial, "budget");
    }
  }

  lemma NoTriggerNoCompletions(partial: string)
    requires !HasTrigger(partial)
    ensures TriggerCompletions(partial) == []
  {
  }

  /** Wherever the corrected generator completes a trigger word (as for
      "budget"), the generator as written throws instead. */
  lemma CorrectedSuggestionsComplete(partial: string, currentYear: int)
    requires |partial| >= 2 && HasTrigger(partial)
    ensures GenerateSearchSuggestions(partial) == TriggerCompletions(partial)
    ensures GenerateSearchSuggestionsAsWritten(partial, currentYear).Failure?
  {
    TriggerDefeatsEarlyReturn(partial);
    SuggestionsAsWrittenThrows(partial, currentYear);
  }
}
