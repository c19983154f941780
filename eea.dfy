/** EEA membership, domicile-to-member-state mapping and region-to-country-code
    conversion (src/helpers/eea.ts). Every table is a finite ordered list of
    entries; a lookup takes the first entry whose key matches exactly. */
module Eea {
  import opened Wrappers
  import opened Text

  // ---------------------------------------------------------------------------
  // Tables
  // ---------------------------------------------------------------------------

  /** The thirty EEA states by English name: the 27 EU members, then
      Liechtenstein, Norway and Iceland. */
  const EeaNames: seq<string> := [
    "Luxembourg", "Ireland", "Germany", "France", "Netherlands", "Italy", "Spain",
    "Belgium", "Austria", "Malta", "Cyprus", "Estonia", "Portugal", "Finland", "Sweden",
    "Denmark", "Lithuania", "Latvia", "Slovenia", "Slovakia", "Greece", "Croatia",
    "Romania", "Bulgaria", "Czech Republic", "Hungary", "Poland",
    "Liechtenstein", "Norway", "Iceland"
  ]

  /** Their ISO 3166-1 alpha-2 codes, in the same order. */
  const EeaCodes: seq<string> := [
    "LU", "IE", "DE", "FR", "NL", "IT", "ES", "BE", "AT", "MT", "CY", "EE",
    "PT", "FI", "SE", "DK", "LT", "LV", "SI", "SK", "GR", "HR", "RO", "BG",
    "CZ", "HU", "PL", "LI", "NO", "IS"
  ]

  /** Name of an EEA state to its reporting member-state code. */
  const DomicileToMemberState: seq<(string, string)> := [
    ("Luxembourg", "LU"), ("Ireland", "IE"), ("Germany", "DE"), ("France", "FR"),
    ("Netherlands", "NL"), ("Italy", "IT"), ("Spain", "ES"), ("Belgium", "BE"),
    ("Austria", "AT"), ("Malta", "MT"), ("Cyprus", "CY"), ("Estonia", "EE"),
    ("Portugal", "PT"), ("Finland", "FI"), ("Sweden", "SE"), ("Denmark", "DK"),
    ("Lithuania", "LT"), ("Latvia", "LV"), ("Slovenia", "SI"), ("Slovakia", "SK"),
    ("Greece", "GR"), ("Croatia", "HR"), ("Romania", "RO"), ("Bulgaria", "BG"),
    ("Czech Republic", "CZ"), ("Hungary", "HU"), ("Poland", "PL"),
    ("Liechtenstein", "LI"), ("Norway", "NO"), ("Iceland", "IS")
  ]

  /** Regions that stand for several countries; they map to the supranational
      code XS, except the North American ones, which map to US. */
  const RegionAggregates: seq<(string, string)> := [
    ("Eurozone (ex DE)", "XS"), ("Westeuropa (ex DE)", "XS"),
    ("Nordamerika", "US"), ("Asien-Pazifik", "XS"), ("Benelux", "XS"),
    ("Western Europe", "XS"), ("Southern Europe", "XS"), ("Central Europe", "XS"),
    ("Northern Europe", "XS"), ("Eastern Europe", "XS"), ("Emerging Markets", "XS"),
    ("Global", "XS"), ("Eurozone", "XS"), ("North America", "US"),
    ("Asia-Pacific", "XS"), ("Asia Pacific", "XS"), ("Latin America", "XS"),
    ("Middle East", "XS"), ("Sub-Saharan Africa", "XS")
  ]

  /** Further countries and spellings outside the EEA table. */
  const Extra: seq<(string, string)> := [
    ("United States", "US"), ("USA", "US"), ("United Kingdom", "GB"), ("UK", "GB"),
    ("Switzerland", "CH"), ("Japan", "JP"), ("China", "CN"), ("Singapore", "SG"),
    ("Hong Kong", "HK"), ("Australia", "AU"), ("Canada", "CA"), ("Brazil", "BR"),
    ("Cayman Islands", "KY"), ("British Virgin Islands", "VG"), ("Jersey", "JE"),
    ("Guernsey", "GG"), ("Bermuda", "BM"), ("Mauritius", "MU"), ("Deutschland", "DE")
  ]

  // ---------------------------------------------------------------------------
  // Lookup in an ordered table
  // ---------------------------------------------------------------------------

  /** Position of the first entry with the given key, or |t| when there is none.
      The key is part of the termination measure so that a search in one of
      the constant tables is unrolled only for a constant key. */
  function FindKey(t: seq<(string, string)>, key: string): (i: nat)
    ensures i <= |t|
    ensures i < |t| ==> t[i].0 == key
    ensures forall j :: 0 <= j < i ==> t[j].0 != key
    decreases |t|, |key|
  {
    if |t| == 0 then 0
    else if t[0].0 == key then 0
    else 1 + FindKey(t[1..], key)
  }

  /** `table[key]`: the value of the first entry with that key, if any. */
  function Lookup(t: seq<(string, string)>, key: string): (r: Option<string>)
    ensures r.None? <==> forall j :: 0 <= j < |t| ==> t[j].0 != key
    ensures r.Some? ==> exists i :: 0 <= i < |t| && t[i] == (key, r.value)
  {
    var i := FindKey(t, key);
    if i < |t| then Some(t[i].1) else None
  }

  /** In a table whose keys are all different, the entry at position i is the
      one found for its key. */
  lemma LookupDistinct(t: seq<(string, string)>, i: nat)
    requires i < |t|
    requires forall j, k :: 0 <= j < k < |t| ==> t[j].0 != t[k].0
    ensures Lookup(t, t[i].0) == Some(t[i].1)
  {
  }

  /** The entry at position i is found when no earlier entry has its key. */
  lemma LookupAt(t: seq<(string, string)>, key: string, i: nat)
    requires i < |t| && t[i].0 == key
    requires forall j :: 0 <= j < i ==> t[j].0 != key
    ensures Lookup(t, key) == Some(t[i].1)
  {
  }

  /** No entry has the key, shown by the length and first two characters of
      each entry's key. */
  lemma KeyAbsent(t: seq<(string, string)>, key: string)
    requires |key| >= 2
    requires forall i :: 0 <= i < |t| ==>
      |t[i].0| != |key| || t[i].0[0] != key[0] || t[i].0[1] != key[1]
    ensures Lookup(t, key) == None
  {
  }

  // ---------------------------------------------------------------------------
  // Operations
  // ---------------------------------------------------------------------------

  /** `isEEADomicile`: the name spelled exactly, or a code in any letter case. */
  predicate IsEEADomicile(domicile: string)
  {
    domicile in EeaNames || Upper(domicile) in EeaCodes
  }

  /** `mapDomicileToMemberState`: the table's code for a known EEA name,
      otherwise the first two characters upper-cased. */
  function MapDomicileToMemberState(domicile: string): (r: string)
    ensures Lookup(DomicileToMemberState, domicile).None? ==> r == Upper(Take(domicile, 2))
  {
    OrElse(Lookup(DomicileToMemberState, domicile), Upper(Take(domicile, 2)))
  }

  /** A string of exactly two upper-case ASCII letters, the test `^[A-Z]{2}$`. */
  predicate IsTwoUpper(s: string)
  {
    |s| == 2 && IsUpperLetter(s[0]) && IsUpperLetter(s[1])
  }

  /** `toISOCountryCode`: a two-letter code passes through; otherwise the
      aggregate regions, then the EEA names (exact keys only), then the extra
      table are consulted, and anything else is XS. */
  function ToISOCountryCode(region: string): (r: string)
    ensures IsTwoUpper(region) ==> r == region
  {
    ClassifyRegion(region, RegionAggregates, DomicileToMemberState, Extra)
  }

  /** The tiers of `toISOCountryCode` over given tables, in the order the
      source consults them; each lookup counts only when its value is truthy. */
  function ClassifyRegion(region: string, aggregates: seq<(string, string)>,
                          domiciles: seq<(string, string)>, extra: seq<(string, string)>): (r: string)
    ensures IsTwoUpper(region) ==> r == region
  {
    if IsTwoUpper(region) then region
    else if Truthy(Lookup(aggregates, region)) then Lookup(aggregates, region).value
    else if Truthy(Lookup(domiciles, region)) then Lookup(domiciles, region).value
    else OrElse(Lookup(extra, region), "XS")
  }

  // ---------------------------------------------------------------------------
  // The tables
  // ---------------------------------------------------------------------------

  /** Every value of the table is a two-letter upper-case code. */
  predicate ValuesAreCodes(t: seq<(string, string)>)
  {
    forall i :: 0 <= i < |t| ==> IsTwoUpper(t[i].1)
  }

  lemma AggregatesAreCodes()
    ensures ValuesAreCodes(RegionAggregates)
  {
  }

  lemma DomicilesAreCodes()
    ensures ValuesAreCodes(DomicileToMemberState)
  {
  }

  lemma ExtraAreCodes()
    ensures ValuesAreCodes(Extra)
  {
  }

  lemma EeaCodesAreCodes()
    ensures forall i :: 0 <= i < |EeaCodes| ==> IsTwoUpper(EeaCodes[i])
  {
  }

  /** The member-state table lists exactly the EEA names, in order, each with
      the EEA code at the same position. */
  lemma TablesConsistent()
    ensures |DomicileToMemberState| == |EeaNames| == |EeaCodes| == 30
    ensures forall i :: 0 <= i < 30 ==> DomicileToMemberState[i] == (EeaNames[i], EeaCodes[i])
  {
  }

  /** No EEA name is listed twice; checked ten names at a time. */
  lemma EeaNamesDistinctTo10()
    ensures forall j, k :: 0 <= j < k < 10 ==> EeaNames[j] != EeaNames[k]
  {
  }

  lemma EeaNamesDistinctTo20()
    ensures forall j, k :: 0 <= j < k && 10 <= k < 20 ==> EeaNames[j] != EeaNames[k]
  {
  }

  lemma EeaNamesDistinctTo30()
    ensures forall j, k :: 0 <= j < k && 20 <= k < 30 ==> EeaNames[j] != EeaNames[k]
  {
  }

  /** The keys of the member-state table are all different. */
  lemma EeaNamesDistinct()
    ensures forall j, k :: 0 <= j < k < |DomicileToMemberState| ==>
      DomicileToMemberState[j].0 != DomicileToMemberState[k].0
  {
    TablesConsistent();
    EeaNamesDistinctTo10();
    EeaNamesDistinctTo20();
    EeaNamesDistinctTo30();
  }

  /** No region is listed twice among the aggregates, so the first entry with a
      key is also the only one, as in an object literal. */
  lemma AggregatesDistinct()
    ensures forall j, k :: 0 <= j < k < |RegionAggregates| ==> RegionAggregates[j].0 != RegionAggregates[k].0
  {
  }

  /** No key is listed twice in the extra table. */
  lemma ExtraDistinct()
    ensures forall j, k :: 0 <= j < k < |Extra| ==> Extra[j].0 != Extra[k].0
  {
  }

  /** A table of codes gives a code for every key it holds, and so a truthy one. */
  lemma LookupCode(t: seq<(string, string)>, key: string)
    requires ValuesAreCodes(t)
    ensures Lookup(t, key).Some? ==> IsTwoUpper(Lookup(t, key).value)
    ensures Truthy(Lookup(t, key)) == Lookup(t, key).Some?
  {
  }

  // ---------------------------------------------------------------------------
  // isEEADomicile
  // ---------------------------------------------------------------------------

  /** Every EEA name, spelled exactly, and every EEA code in upper or lower case
      is accepted. */
  lemma EeaNamesAndCodesAccepted(i: nat)
    requires i < 30
    ensures IsEEADomicile(EeaNames[i])
    ensures IsEEADomicile(EeaCodes[i])
    ensures IsEEADomicile(Lower(EeaCodes[i]))
  {
    TablesConsistent();
    EeaCodesAreCodes();
    var c := EeaCodes[i];
    assert Upper(c) == c;
    UpperOfLower(c);
  }

  /** Every code has two characters, so a domicile of any other length is
      accepted only as an exact name. */
  lemma IsEEADomicileByLength(d: string)
    requires |d| != 2
    ensures IsEEADomicile(d) <==> d in EeaNames
  {
    EeaCodesAreCodes();
  }

  /** A name that is not one of the thirty, shown by its length and first two
      characters. */
  lemma NotAnEeaName(d: string)
    requires |d| >= 2
    requires forall i :: 0 <= i < |EeaNames| ==>
      |EeaNames[i]| != |d| || EeaNames[i][0] != d[0] || EeaNames[i][1] != d[1]
    ensures d !in EeaNames
  {
  }

  /** Names are matched with their exact spelling: the upper-case form of a
      name is not accepted. */
  lemma NamesAreCaseSensitive()
    ensures !IsEEADomicile("GERMANY")
  {
    NotAnEeaName("GERMANY");
    IsEEADomicileByLength("GERMANY");
  }

  /** Countries outside the EEA, and the empty string, are rejected. */
  lemma EmptyRejected()
    ensures !IsEEADomicile("")
  {
    IsEEADomicileByLength("");
  }

  lemma UsaRejected()
    ensures !IsEEADomicile("USA")
  {
    NotAnEeaName("USA");
    IsEEADomicileByLength("USA");
  }

  lemma UnitedKingdomRejected()
    ensures !IsEEADomicile("United Kingdom")
  {
    NotAnEeaName("United Kingdom");
    IsEEADomicileByLength("United Kingdom");
  }

  lemma SwitzerlandRejected()
    ensures !IsEEADomicile("Switzerland")
  {
    NotAnEeaName("Switzerland");
    IsEEADomicileByLength("Switzerland");
  }

  lemma CaymanIslandsRejected()
    ensures !IsEEADomicile("Cayman Islands")
  {
    NotAnEeaName("Cayman Islands");
    IsEEADomicileByLength("Cayman Islands");
  }

  // ---------------------------------------------------------------------------
  // mapDomicileToMemberState
  // ---------------------------------------------------------------------------

  /** The member state of an EEA name is the code beside it, and the mapped
      code is itself an accepted EEA domicile. */
  lemma MapEeaName(i: nat)
    requires i < 30
    ensures MapDomicileToMemberState(EeaNames[i]) == EeaCodes[i]
    ensures IsEEADomicile(MapDomicileToMemberState(EeaNames[i]))
  {
    TablesConsistent();
    EeaNamesDistinct();
    LookupDistinct(DomicileToMemberState, i);
    DomicilesAreCodes();
    LookupCode(DomicileToMemberState, EeaNames[i]);
    EeaNamesAndCodesAccepted(i);
  }

  /** Any other domicile falls back to its first two characters, upper-cased. */
  lemma MapOtherDomicile(d: string)
    requires d !in EeaNames
    ensures MapDomicileToMemberState(d) == Upper(Take(d, 2))
    ensures |MapDomicileToMemberState(d)| == if |d| < 2 then |d| else 2
  {
    TablesConsistent();
    assert forall i :: 0 <= i < 30 ==> DomicileToMemberState[i].0 != d;
  }

  lemma MapXanadu(d: string)
    requires d == "Xanadu"
    ensures MapDomicileToMemberState(d) == "XA"
  {
    NotAnEeaName(d);
    MapOtherDomicile(d);
  }

  lemma MapZzLand(d: string)
    requires d == "ZZ-land"
    ensures MapDomicileToMemberState(d) == "ZZ"
  {
    NotAnEeaName(d);
    MapOtherDomicile(d);
  }

  // ---------------------------------------------------------------------------
  // toISOCountryCode
  // ---------------------------------------------------------------------------

  /** Over tables of non-empty codes, a key that is present always wins: the
      tiers run pass-through, aggregates, EEA names, extra table, then XS, and
      the result is always a two-letter upper-case code. */
  lemma ClassifyRegionTiers(region: string, a: seq<(string, string)>, d: seq<(string, string)>, x: seq<(string, string)>)
    requires ValuesAreCodes(a) && ValuesAreCodes(d) && ValuesAreCodes(x)
    ensures var r := ClassifyRegion(region, a, d, x);
      && IsTwoUpper(r)
      && (!IsTwoUpper(region) && Lookup(a, region).Some? ==> r == Lookup(a, region).value)
      && (!IsTwoUpper(region) && Lookup(a, region).None? && Lookup(d, region).Some? ==>
          r == Lookup(d, region).value)
      && ((!IsTwoUpper(region) && Lookup(a, region).None? && Lookup(d, region).None?
           && Lookup(x, region).Some?) ==> r == Lookup(x, region).value)
      && ((!IsTwoUpper(region) && Lookup(a, region).None? && Lookup(d, region).None?
           && Lookup(x, region).None?) ==> r == "XS")
  {
    LookupCode(a, region);
    LookupCode(d, region);
    LookupCode(x, region);
  }

  /** The tiers in order: pass-through, aggregates, EEA names (exact keys, with
      no two-character fallback), extra table, XS. The result is always a
      two-letter upper-case code. */
  lemma ToISOCountryCodeTiers(region: string)
    ensures var r := ToISOCountryCode(region);
      && IsTwoUpper(r)
      && (!IsTwoUpper(region) && Lookup(RegionAggregates, region).Some? ==>
          r == Lookup(RegionAggregates, region).value)
      && ((!IsTwoUpper(region) && Lookup(RegionAggregates, region).None?
           && Lookup(DomicileToMemberState, region).Some?) ==> r == Lookup(DomicileToMemberState, region).value)
      && ((!IsTwoUpper(region) && Lookup(RegionAggregates, region).None?
           && Lookup(DomicileToMemberState, region).None? && Lookup(Extra, region).Some?) ==>
          r == Lookup(Extra, region).value)
      && ((!IsTwoUpper(region) && Lookup(RegionAggregates, region).None?
           && Lookup(DomicileToMemberState, region).None? && Lookup(Extra, region).None?) ==> r == "XS")
  {
    AggregatesAreCodes();
    DomicilesAreCodes();
    ExtraAreCodes();
    ClassifyRegionTiers(region, RegionAggregates, DomicileToMemberState, Extra);
  }

  /** Converting a converted code again changes nothing. */
  lemma ToISOCountryCodeIdempotent(region: string)
    ensures ToISOCountryCode(ToISOCountryCode(region)) == ToISOCountryCode(region)
  {
    ToISOCountryCodeTiers(region);
  }

  /** "UK" already looks like a code and passes through unchanged, so the extra
      table's entry for it, GB, is never used. */
  lemma UKPassesThrough(uk: string)
    requires uk == "UK"
    ensures ToISOCountryCode(uk) == uk
  {
    assert uk[0] == 'U' && uk[1] == 'K';
    assert IsTwoUpper(uk);
  }

  lemma UKInExtra(uk: string)
    requires uk == "UK"
    ensures Lookup(Extra, uk) == Some("GB")
  {
    LookupAt(Extra, uk, 3);
  }

  lemma ToISONorthAmerica(region: string)
    requires region == "North America"
    ensures ToISOCountryCode(region) == "US"
  {
    LookupAt(RegionAggregates, region, 13);
    ToISOCountryCodeTiers(region);
  }

  /** The tiers evaluated on the outcomes of the three lookups. */
  lemma ClassifyByLookups(region: string, a: seq<(string, string)>, d: seq<(string, string)>, x: seq<(string, string)>)
    requires !IsTwoUpper(region)
    ensures ClassifyRegion(region, a, d, x) ==
      if Truthy(Lookup(a, region)) then Lookup(a, region).value
      else if Truthy(Lookup(d, region)) then Lookup(d, region).value
      else OrElse(Lookup(x, region), "XS")
  {
  }

  lemma NotAnAggregate(region: string)
    requires region == "Germany" || region == "Deutschland" || region == "Atlantis"
    ensures Lookup(RegionAggregates, region) == None
  {
    KeyAbsent(RegionAggregates, region);
  }

  lemma NotAnEeaKey(region: string)
    requires region == "Deutschland" || region == "Atlantis"
    ensures Lookup(DomicileToMemberState, region) == None
  {
    KeyAbsent(DomicileToMemberState, region);
  }

  lemma NotAnExtraKey(region: string)
    requires region == "Atlantis"
    ensures Lookup(Extra, region) == None
  {
    KeyAbsent(Extra, region);
  }

  /** Germany is found in the member-state tier, Deutschland only in the extra
      tier; by the tiers lemma both give DE. */
  lemma GermanyIsAnEeaKey(region: string)
    requires region == "Germany"
    ensures Lookup(DomicileToMemberState, region) == Some("DE")
  {
    LookupAt(DomicileToMemberState, region, 2);
  }

  lemma DeutschlandIsAnExtraKey(region: string)
    requires region == "Deutschland"
    ensures Lookup(Extra, region) == Some("DE")
  {
    LookupAt(Extra, region, 18);
  }

  /** Germany is found in the member-state tier. */
  lemma ToISOGermany(region: string)
    requires region == "Germany"
    ensures ToISOCountryCode(region) == "DE"
  {
    NotAnAggregate(region);
    GermanyIsAnEeaKey(region);
    ToISOCountryCodeTiers(region);
  }

  /** Deutschland passes the first two tiers and is found in the extra table. */
  lemma ToISODeutschland(region: string)
    requires region == "Deutschland"
    ensures ToISOCountryCode(region) == "DE"
  {
    NotAnAggregate(region);
    NotAnEeaKey(region);
    DeutschlandIsAnExtraKey(region);
    ToISOCountryCodeTiers(region);
  }

  lemma ToISOAtlantis(region: string)
    requires region == "Atlantis"
    ensures ToISOCountryCode(region) == "XS"
  {
    NotAnAggregate(region);
    NotAnEeaKey(region);
    NotAnExtraKey(region);
    assert !IsTwoUpper(region);
    ClassifyByLookups(region, RegionAggregates, DomicileToMemberState, Extra);
  }
}
