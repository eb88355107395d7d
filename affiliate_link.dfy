/**
 * The partner routing of src/hooks/useAffiliateLink.js: choosing a partner
 * from the vehicle-type and regional preference lists, classifying a
 * vehicle, assembling the tracking link, and the bounded click log.
 *
 * The tables of src/data/affiliates.js are constants here. The location
 * lookup, the analytics call and the `URL`/`URLSearchParams` library are
 * not modelled: the location is a field, the library calls are function
 * parameters.
 */
module AffiliateLink {
  import opened Text
  import opened Wrappers

  datatype Partner = Partner(name: string, baseUrl: string, trackingParam: string, priority: nat,
                             regions: seq<string>)

  const AffiliatePartners: map<string, Partner> := map[
    "cargurus" := Partner("CarGurus", "https://www.cargurus.com", "src=whipsly", 1, ["US", "CA"]),
    "cars" := Partner("Cars.com", "https://www.cars.com", "aff=whipsly&utm_source=whipsly", 2, ["US"]),
    "autotrader" := Partner("AutoTrader", "https://www.autotrader.com", "ref=whipsly", 3, ["US"]),
    "carmax" := Partner("CarMax", "https://www.carmax.com", "utm_source=whipsly&utm_medium=referral", 4, ["US"])
  ]

  const RegionalPreferences: map<string, seq<string>> := map[
    "CA" := ["cargurus", "cars", "autotrader"],
    "TX" := ["autotrader", "cars", "cargurus"],
    "FL" := ["cars", "cargurus", "autotrader"],
    "NY" := ["cars", "autotrader", "cargurus"],
    "DEFAULT" := ["cargurus", "cars", "autotrader", "carmax"]
  ]

  const VehicleTypeAffiliates: map<string, seq<string>> := map[
    "luxury" := ["autotrader", "cars", "cargurus"],
    "economy" := ["cargurus", "cars", "carmax"],
    "suv" := ["cars", "autotrader", "cargurus"],
    "truck" := ["autotrader", "cars", "cargurus"],
    "electric" := ["cars", "cargurus", "autotrader"]
  ]

  const DefaultAffiliate := "cargurus"

  /** The cached or fetched user location; `zip` is null when unknown. */
  datatype Location = Location(state: string, country: string, city: string, zip: Option<string>)

  /** The vehicle fields the hook reads; a missing field is `None`. */
  datatype VehicleInfo = VehicleInfo(make: Option<string>, model: Option<string>, year: Option<string>)

  /** JavaScript truthiness of an optional string. */
  predicate Truthy(s: Option<string>) {
    s.Some? && s.value != ""
  }

  // ---------------------------------------------------------------------
  // Partner choice

  /** `REGIONAL_PREFERENCES[state] || REGIONAL_PREFERENCES.DEFAULT`: a
      listed state's list (an array is truthy even when empty), otherwise
      the DEFAULT list. */
  function RegionalFor(state: string, regional: map<string, seq<string>>): (r: seq<string>)
    requires "DEFAULT" in regional
    ensures state in regional ==> r == regional[state]
    ensures state !in regional ==> r == regional["DEFAULT"]
  {
    if state in regional then regional[state] else regional["DEFAULT"]
  }

  /** Reference definition: the first entry of `prefs`, in its own order,
      that `regional` also lists. */
  function FirstShared(prefs: seq<string>, regional: seq<string>): Option<string> {
    if prefs == [] then None
    else if prefs[0] in regional then Some(prefs[0])
    else FirstShared(prefs[1..], regional)
  }

  lemma {:induction false} FirstSharedIsFirst(prefs: seq<string>, regional: seq<string>)
    ensures FirstShared(prefs, regional).Some? ==>
      exists i :: 0 <= i < |prefs| && prefs[i] == FirstShared(prefs, regional).value
        && prefs[i] in regional && forall k :: 0 <= k < i ==> prefs[k] !in regional
    ensures FirstShared(prefs, regional).None? <==> forall a :: a in prefs ==> a !in regional
  {
    if prefs != [] && prefs[0] !in regional {
      FirstSharedIsFirst(prefs[1..], regional);
      if FirstShared(prefs, regional).Some? {
        var i :| 0 <= i < |prefs[1..]| && prefs[1..][i] == FirstShared(prefs, regional).value
          && prefs[1..][i] in regional && forall k :: 0 <= k < i ==> prefs[1..][k] !in regional;
        assert prefs[i + 1] == prefs[1..][i];
        forall k | 0 <= k < i + 1 ensures prefs[k] !in regional {
          if k > 0 {
            assert prefs[k] == prefs[1..][k - 1];
          }
        }
      }
      forall a | a in prefs && a != prefs[0] ensures a in prefs[1..] {
        var j :| 0 <= j < |prefs| && prefs[j] == a;
        assert prefs[1..][j - 1] == a;
      }
    }
  }

  /** The type preference list consulted for a vehicle type, if any:
      `vehicleType && VEHICLE_TYPE_AFFILIATES[vehicleType.toLowerCase()]`. */
  function TypePreferences(vehicleType: Option<string>, types: map<string, seq<string>>): Option<seq<string>> {
    if Truthy(vehicleType) && Lower(vehicleType.value) in types then Some(types[Lower(vehicleType.value)])
    else None
  }

  /** `getBestAffiliate(vehicleType)`. */
  function BestAffiliate(userLocation: Option<Location>, vehicleType: Option<string>,
                         regional: map<string, seq<string>>, types: map<string, seq<string>>): string
    requires "DEFAULT" in regional
  {
    if userLocation.None? then DefaultAffiliate
    else
      var prefs := RegionalFor(userLocation.value.state, regional);
      var typePrefs := TypePreferences(vehicleType, types);
      if typePrefs.Some? && FirstShared(typePrefs.value, prefs).Some? then FirstShared(typePrefs.value, prefs).value
      else if prefs != [] && prefs[0] != "" then prefs[0]
      else DefaultAffiliate
  }

  /** The loop of `getBestAffiliate`, returning from inside the loop at the
      first shared entry. */
  method GetBestAffiliate(userLocation: Option<Location>, vehicleType: Option<string>,
                          regional: map<string, seq<string>>, types: map<string, seq<string>>)
    returns (r: string)
    requires "DEFAULT" in regional
    ensures r == BestAffiliate(userLocation, vehicleType, regional, types)
  {
    if userLocation.None? {
      return DefaultAffiliate;
    }
    var typePrefs := TypePreferences(vehicleType, types);
    if typePrefs.Some? {
      var regionalPrefs := RegionalFor(userLocation.value.state, regional);
      var i := 0;
      while i < |typePrefs.value|
        invariant 0 <= i <= |typePrefs.value|
        invariant FirstShared(typePrefs.value[i..], regionalPrefs) == FirstShared(typePrefs.value, regionalPrefs)
      {
        assert typePrefs.value[i..][1..] == typePrefs.value[i + 1..];
        if typePrefs.value[i] in regionalPrefs {
          return typePrefs.value[i];
        }
        i := i + 1;
      }
    }
    var regionalPrefs := RegionalFor(userLocation.value.state, regional);
    if regionalPrefs != [] && regionalPrefs[0] != "" {
      r := regionalPrefs[0];
    } else {
      r := DefaultAffiliate;
    }
  }

  /** Without a location the default partner is chosen. */
  lemma NoLocationGivesDefault(vehicleType: Option<string>, regional: map<string, seq<string>>,
                               types: map<string, seq<string>>)
    requires "DEFAULT" in regional
    ensures BestAffiliate(None, vehicleType, regional, types) == DefaultAffiliate
  {
  }

  /** With a location, a partner both the type list and the regional list
      name wins, the earliest in type order; otherwise the regional list's
      first entry, or the default when that list is empty. */
  lemma BestAffiliateChoice(loc: Location, vehicleType: Option<string>,
                            regional: map<string, seq<string>>, types: map<string, seq<string>>)
    requires "DEFAULT" in regional
    ensures var r := BestAffiliate(Some(loc), vehicleType, regional, types);
      var prefs := RegionalFor(loc.state, regional);
      var typePrefs := TypePreferences(vehicleType, types);
      if typePrefs.Some? && exists a :: a in typePrefs.value && a in prefs then
        && r in prefs
        && exists i ::
             && 0 <= i < |typePrefs.value| && typePrefs.value[i] == r
             && forall k :: 0 <= k < i ==> typePrefs.value[k] !in prefs
      else
        r == (if prefs != [] && prefs[0] != "" then prefs[0] else DefaultAffiliate)
  {
    var prefs := RegionalFor(loc.state, regional);
    var typePrefs := TypePreferences(vehicleType, types);
    if typePrefs.Some? {
      FirstSharedIsFirst(typePrefs.value, prefs);
    }
  }

  /** With the shipped tables every choice names a configured partner, so
      the link never falls back to the "missing partner" branch. */
  lemma ChoiceIsConfigured(userLocation: Option<Location>, vehicleType: Option<string>)
    ensures BestAffiliate(userLocation, vehicleType, RegionalPreferences, VehicleTypeAffiliates) in AffiliatePartners
  {
    var r := BestAffiliate(userLocation, vehicleType, RegionalPreferences, VehicleTypeAffiliates);
    if userLocation.Some? {
      var prefs := RegionalFor(userLocation.value.state, RegionalPreferences);
      RegionalListsConfigured(userLocation.value.state);
      var typePrefs := TypePreferences(vehicleType, VehicleTypeAffiliates);
      if typePrefs.Some? && FirstShared(typePrefs.value, prefs).Some? {
        FirstSharedIsFirst(typePrefs.value, prefs);
      }
    }
  }

  lemma RegionalListsConfigured(state: string)
    ensures forall a :: a in RegionalFor(state, RegionalPreferences) ==> a in AffiliatePartners
    ensures RegionalFor(state, RegionalPreferences) != []
  {
  }

  // ---------------------------------------------------------------------
  // Vehicle type

  const LuxuryBrands: seq<string> := ["bmw", "mercedes-benz", "audi", "lexus", "infiniti", "acura"]
  const ElectricModels: seq<string> := ["model s", "model 3", "model x", "model y", "leaf", "bolt"]
  const TruckModels: seq<string> := ["f-150", "silverado", "ram", "tundra", "titan"]
  const SuvModels: seq<string> := ["x3", "x5", "rx", "cx-5", "cr-v", "rav4", "equinox"]

  /** Some entry of `list` occurs in the lower-cased model. */
  predicate ModelMentions(model: string, list: seq<string>) {
    exists e :: e in list && Includes(Lower(model), e)
  }

  /** The electric test as written: the callback's parameter `model`
      shadows the vehicle's model, so each list entry is searched for in
      itself. */
  predicate ShadowedElectricTest() {
    exists e :: e in ElectricModels && Includes(e, Lower(e))
  }

  /** `determineVehicleType(vehicleInfo)` as written. */
  function VehicleTypeAsWritten(info: VehicleInfo): Option<string> {
    if !Truthy(info.make) || !Truthy(info.model) then None
    else if Lower(info.make.value) in LuxuryBrands then Some("luxury")
    else if ShadowedElectricTest() then Some("electric")
    else if ModelMentions(info.model.value, TruckModels) then Some("truck")
    else if ModelMentions(info.model.value, SuvModels) then Some("suv")
    else Some("economy")
  }

  /** `determineVehicleType(vehicleInfo)` with the electric test reading the
      vehicle's model, as the truck and SUV tests do. */
  function VehicleType(info: VehicleInfo): Option<string> {
    if !Truthy(info.make) || !Truthy(info.model) then None
    else if Lower(info.make.value) in LuxuryBrands then Some("luxury")
    else if ModelMentions(info.model.value, ElectricModels) then Some("electric")
    else if ModelMentions(info.model.value, TruckModels) then Some("truck")
    else if ModelMentions(info.model.value, SuvModels) then Some("suv")
    else Some("economy")
  }

  lemma ShadowedElectricTestHolds()
    ensures ShadowedElectricTest()
  {
    var e := "leaf";
    assert Lower(e) == e;
    assert OccursAt(e, Lower(e), 0);
  }

  /** As written, every vehicle with a make and a model that is not a
      luxury make is classified "electric". */
  lemma AsWrittenNonLuxuryIsElectric(info: VehicleInfo)
    requires Truthy(info.make) && Truthy(info.model) && Lower(info.make.value) !in LuxuryBrands
    ensures VehicleTypeAsWritten(info) == Some("electric")
  {
    ShadowedElectricTestHolds();
  }

  /** A Ford F-150 is classified "electric" as written and "truck" once the
      electric test reads the model. */
  lemma FordF150Counterexample()
    ensures VehicleTypeAsWritten(VehicleInfo(Some("Ford"), Some("F-150"), None)) == Some("electric")
    ensures VehicleType(VehicleInfo(Some("Ford"), Some("F-150"), None)) == Some("truck")
  {
    var info := VehicleInfo(Some("Ford"), Some("F-150"), None);
    assert Lower("Ford") == "ford";
    AsWrittenNonLuxuryIsElectric(info);
    var m := Lower("F-150");
    assert m == "f-150";
    assert OccursAt(m, "f-150", 0);
    forall e | e in ElectricModels ensures !Includes(m, e) {
      MissingCharExcludes(m, e, 0);
    }
    assert !ModelMentions("F-150", ElectricModels);
    assert "f-150" in TruckModels && Includes(m, "f-150");
    assert ModelMentions("F-150", TruckModels);
  }

  /** Both definitions give no type without a make and a model, and
      "luxury" exactly for the six listed brands. */
  lemma VehicleTypeLuxury(info: VehicleInfo)
    ensures VehicleType(info).None? <==> !Truthy(info.make) || !Truthy(info.model)
    ensures VehicleTypeAsWritten(info).None? <==> !Truthy(info.make) || !Truthy(info.model)
    ensures VehicleType(info) == Some("luxury") <==>
      Truthy(info.make) && Truthy(info.model) && Lower(info.make.value) in LuxuryBrands
    ensures VehicleTypeAsWritten(info) == Some("luxury") <==>
      Truthy(info.make) && Truthy(info.model) && Lower(info.make.value) in LuxuryBrands
  {
  }

  /** Every type the corrected classifier returns has a preference list. */
  lemma VehicleTypeHasPreferences(info: VehicleInfo)
    ensures VehicleType(info).Some? ==> VehicleType(info).value in VehicleTypeAffiliates
    ensures TypePreferences(VehicleType(info), VehicleTypeAffiliates).Some? <==> VehicleType(info).Some?
  {
    var t := VehicleType(info);
    if t.Some? {
      assert t.value in ["luxury", "electric", "truck", "suv", "economy"];
      assert Lower(t.value) == t.value;
    }
  }

  /** The corrected classifier reaches the truck branch: a non-luxury make
      whose model names a truck and no electric model is a truck. */
  lemma VehicleTypeTruck(info: VehicleInfo)
    requires Truthy(info.make) && Truthy(info.model) && Lower(info.make.value) !in LuxuryBrands
    requires !ModelMentions(info.model.value, ElectricModels) && ModelMentions(info.model.value, TruckModels)
    ensures VehicleType(info) == Some("truck")
  {
  }

  // ---------------------------------------------------------------------
  // Tracking parameters

  /** `s.split(sep)`: the pieces between the separators, at least one. */
  function Split(s: string, sep: char): (r: seq<string>)
    ensures |r| >= 1
  {
    if s == [] then [""]
    else
      var rest := Split(s[1..], sep);
      if s[0] == sep then [""] + rest else [[s[0]] + rest[0]] + rest[1..]
  }

  /** `pieces.join(sep)`. */
  function Join(pieces: seq<string>, sep: char): string
    requires |pieces| >= 1
  {
    if |pieces| == 1 then pieces[0] else pieces[0] + [sep] + Join(pieces[1..], sep)
  }

  /** Splitting loses nothing: joining the pieces gives the string back,
      and no piece holds the separator. */
  lemma {:induction false} SplitJoin(s: string, sep: char)
    ensures Join(Split(s, sep), sep) == s
    ensures forall p :: p in Split(s, sep) ==> sep !in p
  {
    if s != [] {
      SplitJoin(s[1..], sep);
      var rest := Split(s[1..], sep);
      if s[0] == sep {
        assert ([""] + rest)[1..] == rest;
      } else {
        var r := [[s[0]] + rest[0]] + rest[1..];
        if |rest| > 1 {
          assert r[1..] == rest[1..];
          assert Join(rest, sep) == rest[0] + [sep] + Join(rest[1..], sep);
        }
        forall p | p in r ensures sep !in p {
          if p != r[0] {
            assert p in rest;
          } else {
            assert rest[0] in rest;
          }
        }
      }
    }
  }

  /** `const [key, value] = param.split('=')`: a piece without '=' sets
      the value to the string "undefined". */
  function KeyValue(param: string): (string, string) {
    var kv := Split(param, '=');
    (kv[0], if |kv| > 1 then kv[1] else "undefined")
  }

  /** The key/value pairs `trackingParam.split('&')` yields. */
  function TrackingPairs(trackingParam: string): (r: seq<(string, string)>)
    ensures |r| == |Split(trackingParam, '&')|
  {
    var params := Split(trackingParam, '&');
    seq(|params|, i requires 0 <= i < |params| => KeyValue(params[i]))
  }

  /** A parameter with exactly one '=' splits into a key and a value
      that put back together give the parameter. */
  lemma KeyValueRoundTrip(param: string)
    requires |Split(param, '=')| == 2
    ensures KeyValue(param).0 + "=" + KeyValue(param).1 == param
    ensures '=' !in KeyValue(param).0 && '=' !in KeyValue(param).1
  {
    var kv := Split(param, '=');
    SplitJoin(param, '=');
    assert kv[0] in kv && kv[1] in kv;
    assert Join(kv, '=') == kv[0] + ['='] + Join(kv[1..], '=');
  }

  // ---------------------------------------------------------------------
  // Link assembly

  /** `vehicleInfo.make || vehicleInfo.model || vehicleInfo.year`. */
  predicate HasVehicleParams(info: VehicleInfo) {
    Truthy(info.make) || Truthy(info.model) || Truthy(info.year)
  }

  predicate HasZip(userLocation: Option<Location>) {
    userLocation.Some? && Truthy(userLocation.value.zip)
  }

  /** The partner configured for the chosen key, if any. */
  function ChosenPartner(info: VehicleInfo, userLocation: Option<Location>, partners: map<string, Partner>,
                         regional: map<string, seq<string>>, types: map<string, seq<string>>): Option<Partner>
    requires "DEFAULT" in regional
  {
    var best := BestAffiliate(userLocation, VehicleType(info), regional, types);
    if best in partners then Some(partners[best]) else None
  }

  /** One `searchParams.append(key, value)`, made only when the value is
      truthy. */
  function Param(key: string, value: Option<string>): seq<(string, string)> {
    if Truthy(value) then [(key, value.value)] else []
  }

  /** The search parameters, in the order they are appended. */
  function SearchParams(info: VehicleInfo, userLocation: Option<Location>): seq<(string, string)> {
    Param("make", info.make) + Param("model", info.model) + Param("year", info.year)
      + (if HasZip(userLocation) then Param("zip", userLocation.value.zip) else [])
  }

  lemma ParamMembership(key: string, value: Option<string>, k: string, v: string)
    ensures (k, v) in Param(key, value) <==> k == key && Truthy(value) && v == value.value
  {
  }

  /** Each of make, model, year and zip is sent exactly when it is truthy,
      with its own value. */
  lemma SearchParamsContents(info: VehicleInfo, userLocation: Option<Location>, k: string, v: string)
    ensures (k, v) in SearchParams(info, userLocation) <==>
      || (k == "make" && Truthy(info.make) && v == info.make.value)
      || (k == "model" && Truthy(info.model) && v == info.model.value)
      || (k == "year" && Truthy(info.year) && v == info.year.value)
      || (k == "zip" && HasZip(userLocation) && v == userLocation.value.zip.value)
  {
    ParamMembership("make", info.make, k, v);
    ParamMembership("model", info.model, k, v);
    ParamMembership("year", info.year, k, v);
    if HasZip(userLocation) {
      ParamMembership("zip", userLocation.value.zip, k, v);
    }
  }

  /** The appends of `getAffiliateLink`, one per truthy field. */
  method BuildSearchParams(info: VehicleInfo, userLocation: Option<Location>) returns (params: seq<(string, string)>)
    ensures params == SearchParams(info, userLocation)
  {
    params := [];
    if Truthy(info.make) {
      params := params + [("make", info.make.value)];
    }
    if Truthy(info.model) {
      params := params + [("model", info.model.value)];
    }
    if Truthy(info.year) {
      params := params + [("year", info.year.value)];
    }
    if HasZip(userLocation) {
      params := params + [("zip", userLocation.value.zip.value)];
    }
  }

  /** `getAffiliateLink(vehicleInfo, customUrl)`. `encode` stands for
      `URLSearchParams.toString`; `withTracking(url, pairs)` for parsing
      `url` with `new URL` and setting each pair, `None` when the URL does
      not parse. */
  method GetAffiliateLink(info: VehicleInfo, customUrl: Option<string>, userLocation: Option<Location>,
                          partners: map<string, Partner>, regional: map<string, seq<string>>,
                          types: map<string, seq<string>>,
                          encode: seq<(string, string)> -> string,
                          withTracking: (string, seq<(string, string)>) -> Option<string>)
    returns (link: string)
    requires "DEFAULT" in regional
    ensures var p := ChosenPartner(info, userLocation, partners, regional, types);
      p.None? ==> link == (if Truthy(customUrl) then customUrl.value else "#")
    ensures var p := ChosenPartner(info, userLocation, partners, regional, types);
      p.Some? && Truthy(customUrl) ==>
        link == withTracking(customUrl.value, TrackingPairs(p.value.trackingParam)).GetOr(customUrl.value)
    ensures var p := ChosenPartner(info, userLocation, partners, regional, types);
      p.Some? && !Truthy(customUrl) ==>
        EndsWith(link, p.value.trackingParam) && StartsWith(link, p.value.baseUrl)
    ensures var p := ChosenPartner(info, userLocation, partners, regional, types);
      p.Some? && !Truthy(customUrl) && HasVehicleParams(info) ==>
        link == p.value.baseUrl + "/cars/?" + encode(SearchParams(info, userLocation)) + "&" + p.value.trackingParam
    ensures var p := ChosenPartner(info, userLocation, partners, regional, types);
      p.Some? && !Truthy(customUrl) && !HasVehicleParams(info) ==>
        link == p.value.baseUrl + (if '?' in p.value.baseUrl then "&" else "?") + p.value.trackingParam
  {
    var vehicleType := VehicleType(info);
    var best := GetBestAffiliate(userLocation, vehicleType, regional, types);
    if best !in partners {
      return if Truthy(customUrl) then customUrl.value else "#";
    }
    var partner := partners[best];
    if Truthy(customUrl) {
      var tracked := withTracking(customUrl.value, TrackingPairs(partner.trackingParam));
      return tracked.GetOr(customUrl.value);
    }
    var searchUrl := partner.baseUrl;
    if HasVehicleParams(info) {
      var params := BuildSearchParams(info, userLocation);
      searchUrl := searchUrl + "/cars/?" + encode(params);
      assert searchUrl[|partner.baseUrl| + 6] == '?';
    }
    var separator := if '?' in searchUrl then '&' else '?';
    link := searchUrl + [separator] + partner.trackingParam;
    assert link[..|partner.baseUrl|] == partner.baseUrl;
    assert link[|link| - |partner.trackingParam|..] == partner.trackingParam;
  }

  /** `s.endsWith(t)`. */
  predicate EndsWith(s: string, t: string) {
    |t| <= |s| && s[|s| - |t|..] == t
  }

  /** The shipped partners' base URLs carry no query, so a link without
      vehicle parameters is `baseUrl?trackingParam`. */
  lemma BaseUrlsHaveNoQuery()
    ensures forall k :: k in AffiliatePartners ==> '?' !in AffiliatePartners[k].baseUrl
  {
    forall k | k in AffiliatePartners ensures '?' !in AffiliatePartners[k].baseUrl {
      var u := AffiliatePartners[k].baseUrl;
      assert u == "https://www.cargurus.com" || u == "https://www.cars.com"
        || u == "https://www.autotrader.com" || u == "https://www.carmax.com";
      assert forall i :: 0 <= i < |u| ==> u[i] != '?';
    }
  }

  // ---------------------------------------------------------------------
  // The click log

  datatype Click = Click(partner: string, timestamp: int, location: Option<Location>, vehicle: VehicleInfo)

  const ClicksKey := "whipsly-affiliate-clicks"
  const MaxClicks := 100

  /** The log after `push` and, past 100 entries, `splice(0, length - 100)`. */
  function AppendBounded(log: seq<Click>, click: Click): (r: seq<Click>)
  {
    var all := log + [click];
    if |all| > MaxClicks then all[|all| - MaxClicks..] else all
  }

  /** The new click is last, the log never exceeds 100 entries, and it is
      the newest entries of the old log followed by the click. */
  lemma AppendBoundedKeepsNewest(log: seq<Click>, click: Click)
    ensures var r := AppendBounded(log, click);
      && |r| == (if |log| + 1 > MaxClicks then MaxClicks else |log| + 1)
      && r[|r| - 1] == click
      && r[..|r| - 1] == log[|log| + 1 - |r|..]
  {
  }

  /** The click-tracking part of the hook: the location it reads and the
      local storage it writes. */
  class AffiliateTracker {
    var userLocation: Option<Location>
    var storage: map<string, seq<Click>>

    constructor (userLocation: Option<Location>, storage: map<string, seq<Click>>)
      ensures this.userLocation == userLocation && this.storage == storage
    {
      this.userLocation := userLocation;
      this.storage := storage;
    }

    /** The stored log, `[]` when the key is missing. */
    function StoredClicks(): seq<Click>
      reads this
    {
      if ClicksKey in storage then storage[ClicksKey] else []
    }

    /** `trackAffiliateClick(affiliatePartner, vehicleInfo)` at time `now`. */
    method TrackAffiliateClick(affiliatePartner: string, info: VehicleInfo, now: int)
      modifies this
      ensures storage == old(storage)[ClicksKey := AppendBounded(old(StoredClicks()),
                                                                 Click(affiliatePartner, now, userLocation, info))]
      ensures userLocation == old(userLocation)
    {
      var existingClicks := StoredClicks();
      existingClicks := existingClicks + [Click(affiliatePartner, now, userLocation, info)];
      if |existingClicks| > MaxClicks {
        existingClicks := existingClicks[|existingClicks| - MaxClicks..];
      }
      storage := storage[ClicksKey := existingClicks];
    }
  }
}
