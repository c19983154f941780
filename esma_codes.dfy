/** Mappings from the report's free-text fields to ESMA code lists
    (src/helpers/esma-codes.ts). The predominant-type and asset-type
    classifiers are ordered chains of substring tests on the lower-cased input
    where the first hit wins; beside each chain stands the same decision
    written as a table of rules, and a lemma says the two agree. The frequency
    mapping tests the obligation as given, and the depositary mapping is an
    exact match on two values. */
module EsmaCodes {
  import opened Wrappers
  import opened Text
  import opened Types

  // ---------------------------------------------------------------------------
  // Ordered rule tables, the reference form of the classifiers
  // ---------------------------------------------------------------------------

  /** A rule fires when the text equals one of `exact` or contains one of
      `keywords`; it then gives `code`. */
  datatype Rule = Rule(exact: seq<string>, keywords: seq<string>, code: string)

  predicate Matches(text: string, rule: Rule)
  {
    text in rule.exact || exists i :: 0 <= i < |rule.keywords| && Contains(text, rule.keywords[i])
  }

  /** The code of the first rule that fires, if any. */
  function FirstMatch(text: string, rules: seq<Rule>): (r: Option<string>)
    ensures |rules| == 0 ==> r.None?
    decreases |rules|
  {
    if |rules| == 0 then None
    else if Matches(text, rules[0]) then Some(rules[0].code)
    else FirstMatch(text, rules[1..])
  }

  /** Rule k wins when it fires and no earlier rule does. */
  lemma {:induction false} FirstMatchWins(text: string, rules: seq<Rule>, k: nat)
    requires k < |rules| && Matches(text, rules[k])
    requires forall j :: 0 <= j < k ==> !Matches(text, rules[j])
    ensures FirstMatch(text, rules) == Some(rules[k].code)
    decreases k
  {
    if k > 0 {
      assert !Matches(text, rules[0]);
      assert rules[1..][k - 1] == rules[k];
      forall j | 0 <= j < k - 1 ensures !Matches(text, rules[1..][j]) {
        assert rules[1..][j] == rules[j + 1];
      }
      FirstMatchWins(text, rules[1..], k - 1);
    }
  }

  lemma {:induction false} FirstMatchNone(text: string, rules: seq<Rule>)
    requires forall k :: 0 <= k < |rules| ==> !Matches(text, rules[k])
    ensures FirstMatch(text, rules) == None
    decreases |rules|
  {
    if |rules| > 0 {
      assert !Matches(text, rules[0]);
      forall j | 0 <= j < |rules| - 1 ensures !Matches(text, rules[1..][j]) {
        assert rules[1..][j] == rules[j + 1];
      }
      FirstMatchNone(text, rules[1..]);
    }
  }

  /** A rule with at most one exact text and up to four keywords fires
      exactly when the text is that one or one of the keywords occurs. */
  lemma SmallRuleMatches(t: string, r: Rule)
    requires |r.exact| <= 1 && 1 <= |r.keywords| <= 4
    ensures var k := r.keywords;
      Matches(t, r) <==>
        || (|r.exact| == 1 && t == r.exact[0])
        || Contains(t, k[0])
        || (|k| > 1 && Contains(t, k[1]))
        || (|k| > 2 && Contains(t, k[2]))
        || (|k| > 3 && Contains(t, k[3]))
  {
  }

  /** FirstMatch over a table of six rules, written out as a chain. */
  lemma FirstMatchOfSix(t: string, rs: seq<Rule>)
    requires |rs| == 6
    ensures FirstMatch(t, rs) ==
      if Matches(t, rs[0]) then Some(rs[0].code) else if Matches(t, rs[1]) then Some(rs[1].code)
      else if Matches(t, rs[2]) then Some(rs[2].code) else if Matches(t, rs[3]) then Some(rs[3].code)
      else if Matches(t, rs[4]) then Some(rs[4].code) else if Matches(t, rs[5]) then Some(rs[5].code)
      else None
  {
    if Matches(t, rs[0]) {
      FirstMatchWins(t, rs, 0);
    } else if Matches(t, rs[1]) {
      FirstMatchWins(t, rs, 1);
    } else if Matches(t, rs[2]) {
      FirstMatchWins(t, rs, 2);
    } else if Matches(t, rs[3]) {
      FirstMatchWins(t, rs, 3);
    } else if Matches(t, rs[4]) {
      FirstMatchWins(t, rs, 4);
    } else if Matches(t, rs[5]) {
      FirstMatchWins(t, rs, 5);
    } else {
      FirstMatchNone(t, rs);
    }
  }

  /** FirstMatch over a table of seven rules, written out as a chain. */
  lemma FirstMatchOfSeven(t: string, rs: seq<Rule>)
    requires |rs| == 7
    ensures FirstMatch(t, rs) ==
      if Matches(t, rs[0]) then Some(rs[0].code) else if Matches(t, rs[1]) then Some(rs[1].code)
      else if Matches(t, rs[2]) then Some(rs[2].code) else if Matches(t, rs[3]) then Some(rs[3].code)
      else if Matches(t, rs[4]) then Some(rs[4].code) else if Matches(t, rs[5]) then Some(rs[5].code)
      else if Matches(t, rs[6]) then Some(rs[6].code) else None
  {
    if Matches(t, rs[0]) {
      FirstMatchWins(t, rs, 0);
    } else if Matches(t, rs[1]) {
      FirstMatchWins(t, rs, 1);
    } else if Matches(t, rs[2]) {
      FirstMatchWins(t, rs, 2);
    } else if Matches(t, rs[3]) {
      FirstMatchWins(t, rs, 3);
    } else if Matches(t, rs[4]) {
      FirstMatchWins(t, rs, 4);
    } else if Matches(t, rs[5]) {
      FirstMatchWins(t, rs, 5);
    } else if Matches(t, rs[6]) {
      FirstMatchWins(t, rs, 6);
    } else {
      FirstMatchNone(t, rs);
    }
  }

  // ---------------------------------------------------------------------------
  // Reporting frequency
  // ---------------------------------------------------------------------------

  /** `mapReportingObligationToFrequencyCode`: quarterly for Article 24(4),
      half-yearly for Article 24(2), yearly otherwise; 24(4) is checked first. */
  function MapReportingObligationToFrequencyCode(obligation: string): (r: string)
    ensures r == "Q" || r == "H" || r == "Y"
  {
    if Contains(obligation, "24(4)") then "Q"
    else if Contains(obligation, "24(2)") then "H"
    else "Y"
  }

  /** Each code is given exactly for the obligations that call for it. */
  lemma FrequencyCodeMeaning(obligation: string)
    ensures MapReportingObligationToFrequencyCode(obligation) == "Q" <==> Contains(obligation, "24(4)")
    ensures MapReportingObligationToFrequencyCode(obligation) == "H" <==>
      !Contains(obligation, "24(4)") && Contains(obligation, "24(2)")
    ensures MapReportingObligationToFrequencyCode(obligation) == "Y" <==>
      !Contains(obligation, "24(4)") && !Contains(obligation, "24(2)")
  {
  }

  // ---------------------------------------------------------------------------
  // Predominant AIF type
  // ---------------------------------------------------------------------------

  /** The eight predominant-type codes. */
  predicate IsPredominantTypeCode(c: string)
  {
    c in {"REST", "HFND", "PEQF", "FOFS", "VCAP", "INFR", "COMF", "OTHR"}
  }

  /** The text the keyword families are looked for in: the fund name (or
      nothing), a space and the legal form, lower-cased. */
  function NameAndForm(legalForm: string, fundName: Option<string>): (t: string)
    ensures t == Lower(OrElse(fundName, "")) + " " + Lower(legalForm)
  {
    LowerAppend(OrElse(fundName, "") + " ", legalForm);
    LowerAppend(OrElse(fundName, ""), " ");
    Lower(OrElse(fundName, "") + " " + legalForm)
  }

  /** Used when no keyword family matches: a legal form mentioning "pe" but
      not "spezial" is taken for private equity. */
  function LegalFormFallback(legalForm: string): (r: string)
    ensures r == "PEQF" || r == "OTHR"
    ensures r == "PEQF" <==> Contains(Lower(legalForm), "pe") && !Contains(Lower(legalForm), "spezial")
  {
    var lower := Lower(legalForm);
    if Contains(lower, "pe") && !Contains(lower, "spezial") then "PEQF" else "OTHR"
  }

  /** `mapToPredominantAIFType`: the keyword families in order of precedence,
      then the legal-form fallback. */
  function MapToPredominantAIFType(legalForm: string, fundName: Option<string>): (r: string)
    ensures IsPredominantTypeCode(r)
  {
    var t := NameAndForm(legalForm, fundName);
    if Contains(t, "immobilien") || Contains(t, "real estate") || Contains(t, "reit") || Contains(t, "property") then "REST"
    else if Contains(t, "hedge") then "HFND"
    else if Contains(t, "private equity") then "PEQF"
    else if Contains(t, "fund of fund") || Contains(t, "fof") || Contains(t, "dachfonds") then "FOFS"
    else if Contains(t, "venture") then "VCAP"
    else if Contains(t, "infrastructure") || Contains(t, "infrastruktur") then "INFR"
    else if Contains(t, "commodity") || Contains(t, "rohstoff") then "COMF"
    else LegalFormFallback(legalForm)
  }

  /** The keyword families as a rule table, highest precedence first. */
  const PredominantTypeRules: seq<Rule> := [
    Rule([], ["immobilien", "real estate", "reit", "property"], "REST"),
    Rule([], ["hedge"], "HFND"),
    Rule([], ["private equity"], "PEQF"),
    Rule([], ["fund of fund", "fof", "dachfonds"], "FOFS"),
    Rule([], ["venture"], "VCAP"),
    Rule([], ["infrastructure", "infrastruktur"], "INFR"),
    Rule([], ["commodity", "rohstoff"], "COMF")
  ]

  /** The source's test for family k, keyword by keyword. */
  predicate FamilyHit(t: string, k: nat)
  {
    match k
    case 0 => Contains(t, "immobilien") || Contains(t, "real estate") || Contains(t, "reit") || Contains(t, "property")
    case 1 => Contains(t, "hedge")
    case 2 => Contains(t, "private equity")
    case 3 => Contains(t, "fund of fund") || Contains(t, "fof") || Contains(t, "dachfonds")
    case 4 => Contains(t, "venture")
    case 5 => Contains(t, "infrastructure") || Contains(t, "infrastruktur")
    case 6 => Contains(t, "commodity") || Contains(t, "rohstoff")
    case _ => false
  }

  /** Rule k of the table fires exactly when the source's k-th test holds. */
  lemma FamilyHitMeans(t: string, k: nat)
    requires k < |PredominantTypeRules|
    ensures Matches(t, PredominantTypeRules[k]) == FamilyHit(t, k)
  {
    SmallRuleMatches(t, PredominantTypeRules[k]);
  }

  /** The classifier read as a chain of family tests. */
  lemma PredominantChain(legalForm: string, fundName: Option<string>)
    ensures var t := NameAndForm(legalForm, fundName);
      MapToPredominantAIFType(legalForm, fundName) ==
        if FamilyHit(t, 0) then "REST" else if FamilyHit(t, 1) then "HFND" else if FamilyHit(t, 2) then "PEQF"
        else if FamilyHit(t, 3) then "FOFS" else if FamilyHit(t, 4) then "VCAP" else if FamilyHit(t, 5) then "INFR"
        else if FamilyHit(t, 6) then "COMF" else LegalFormFallback(legalForm)
  {
  }

  /** All seven rules of the table against the source's seven tests. */
  lemma PredominantRulesFire(t: string)
    ensures var rs := PredominantTypeRules;
      && Matches(t, rs[0]) == FamilyHit(t, 0) && Matches(t, rs[1]) == FamilyHit(t, 1)
      && Matches(t, rs[2]) == FamilyHit(t, 2) && Matches(t, rs[3]) == FamilyHit(t, 3)
      && Matches(t, rs[4]) == FamilyHit(t, 4) && Matches(t, rs[5]) == FamilyHit(t, 5)
      && Matches(t, rs[6]) == FamilyHit(t, 6)
  {
    FamilyHitMeans(t, 0);
    FamilyHitMeans(t, 1);
    FamilyHitMeans(t, 2);
    FamilyHitMeans(t, 3);
    FamilyHitMeans(t, 4);
    FamilyHitMeans(t, 5);
    FamilyHitMeans(t, 6);
  }

  /** The first-match rule over the table gives the code of the first family
      whose test holds, and nothing when none does. */
  lemma PredominantTable(t: string)
    ensures FirstMatch(t, PredominantTypeRules) ==
      if FamilyHit(t, 0) then Some("REST") else if FamilyHit(t, 1) then Some("HFND")
      else if FamilyHit(t, 2) then Some("PEQF") else if FamilyHit(t, 3) then Some("FOFS")
      else if FamilyHit(t, 4) then Some("VCAP") else if FamilyHit(t, 5) then Some("INFR")
      else if FamilyHit(t, 6) then Some("COMF") else None
  {
    PredominantRulesFire(t);
    FirstMatchOfSeven(t, PredominantTypeRules);
  }

  /** The chain of tests is the first-match rule table, followed by the
      legal-form fallback when no family matches. */
  lemma PredominantTypeIsFirstMatch(legalForm: string, fundName: Option<string>)
    ensures MapToPredominantAIFType(legalForm, fundName) ==
      match FirstMatch(NameAndForm(legalForm, fundName), PredominantTypeRules)
      case Some(c) => c
      case None => LegalFormFallback(legalForm)
  {
    PredominantChain(legalForm, fundName);
    PredominantTable(NameAndForm(legalForm, fundName));
  }

  /** "Spezial_AIF" mentions "pe" only inside "spezial", so the fallback
      does not take it for private equity. */
  lemma SpezialIsNotPrivateEquity(legalForm: string)
    requires legalForm == "Spezial_AIF"
    ensures LegalFormFallback(legalForm) == "OTHR"
  {
    var lower := Lower(legalForm);
    assert lower == "spezial_aif";
    ContainsAt(lower, "spezial", 0);
  }

  /** Every keyword of every family has one of the letters m, t, o, h or v, so a
      text without them hits no family. */
  predicate LacksKeyLetters(t: string)
  {
    forall i :: 0 <= i < |t| ==> t[i] != 'm' && t[i] != 't' && t[i] != 'o' && t[i] != 'h' && t[i] != 'v'
  }

  lemma NoFamilyWithoutKeyLetters(t: string, k: nat)
    requires LacksKeyLetters(t)
    requires k < 7
    ensures !FamilyHit(t, k)
  {
    if k == 0 {
      MissingCharNotContained(t, "immobilien", 1);
      MissingCharNotContained(t, "real estate", 7);
      MissingCharNotContained(t, "reit", 3);
      MissingCharNotContained(t, "property", 2);
    } else if k == 1 {
      MissingCharNotContained(t, "hedge", 0);
    } else if k == 2 {
      MissingCharNotContained(t, "private equity", 3);
    } else if k == 3 {
      MissingCharNotContained(t, "fund of fund", 5);
      MissingCharNotContained(t, "fof", 1);
      MissingCharNotContained(t, "dachfonds", 3);
    } else if k == 4 {
      MissingCharNotContained(t, "venture", 0);
    } else if k == 5 {
      MissingCharNotContained(t, "infrastructure", 6);
      MissingCharNotContained(t, "infrastruktur", 6);
    } else {
      MissingCharNotContained(t, "commodity", 1);
      MissingCharNotContained(t, "rohstoff", 1);
    }
  }

  lemma SpezialLetters(t: string)
    requires t == " spezial_aif"
    ensures LacksKeyLetters(t)
  {
  }

  /** No real-estate keyword occurs in " spezial_aif". */
  lemma SpezialMissesRealEstate(t: string)
    requires t == " spezial_aif"
    ensures !FamilyHit(t, 0)
  {
    SpezialLetters(t);
    NoFamilyWithoutKeyLetters(t, 0);
  }

  lemma SpezialMissesMiddleFamilies(t: string)
    requires t == " spezial_aif"
    ensures !FamilyHit(t, 1) && !FamilyHit(t, 2) && !FamilyHit(t, 3)
  {
    SpezialLetters(t);
    NoFamilyWithoutKeyLetters(t, 1);
    NoFamilyWithoutKeyLetters(t, 2);
    NoFamilyWithoutKeyLetters(t, 3);
  }

  lemma SpezialMissesLastFamilies(t: string)
    requires t == " spezial_aif"
    ensures !FamilyHit(t, 4) && !FamilyHit(t, 5) && !FamilyHit(t, 6)
  {
    SpezialLetters(t);
    NoFamilyWithoutKeyLetters(t, 4);
    NoFamilyWithoutKeyLetters(t, 5);
    NoFamilyWithoutKeyLetters(t, 6);
  }

  lemma GenericSpezialText(legalForm: string, fundName: string)
    requires legalForm == "Spezial_AIF" && fundName == "Generic Fund"
    ensures NameAndForm(legalForm, Some(fundName)) == "generic fund spezial_aif"
  {
    assert Lower(fundName) == "generic fund";
    assert Lower(legalForm) == "spezial_aif";
    assert "generic fund" + " " + "spezial_aif" == "generic fund spezial_aif";
  }

  lemma GenericSpezialLetters(t: string)
    requires t == "generic fund spezial_aif"
    ensures LacksKeyLetters(t)
  {
  }

  /** A Spezial-AIF named "Generic Fund" matches no family either, and is OTHR. */
  lemma GenericSpezialIsOther(legalForm: string, fundName: string)
    requires legalForm == "Spezial_AIF" && fundName == "Generic Fund"
    ensures MapToPredominantAIFType(legalForm, Some(fundName)) == "OTHR"
  {
    var t := NameAndForm(legalForm, Some(fundName));
    GenericSpezialText(legalForm, fundName);
    GenericSpezialLetters(t);
    forall k | 0 <= k < 7 ensures !FamilyHit(t, k) {
      NoFamilyWithoutKeyLetters(t, k);
    }
    PredominantChain(legalForm, Some(fundName));
    SpezialIsNotPrivateEquity(legalForm);
  }

  /** A Spezial-AIF without a name matches no family and is OTHR. */
  lemma UnnamedSpezialIsOther(legalForm: string)
    requires legalForm == "Spezial_AIF"
    ensures MapToPredominantAIFType(legalForm, None) == "OTHR"
  {
    var t := NameAndForm(legalForm, None);
    assert t == " spezial_aif";
    SpezialMissesRealEstate(t);
    SpezialMissesMiddleFamilies(t);
    SpezialMissesLastFamilies(t);
    PredominantChain(legalForm, None);
    SpezialIsNotPrivateEquity(legalForm);
  }

  // ---------------------------------------------------------------------------
  // Depositary type
  // ---------------------------------------------------------------------------

  /** `mapDepositaryType`: a missing type (null or undefined) is `None`. */
  function MapDepositaryType(depositaryType: Option<string>): (r: string)
    ensures r == "CDPS" <==> depositaryType == Some("credit_institution")
    ensures r == "INVF" <==> depositaryType == Some("investment_firm")
    ensures r == "OTHR" <==> depositaryType != Some("credit_institution") && depositaryType != Some("investment_firm")
  {
    match depositaryType
    case Some("credit_institution") => "CDPS"
    case Some("investment_firm") => "INVF"
    case _ => "OTHR"
  }

  // ---------------------------------------------------------------------------
  // Asset type
  // ---------------------------------------------------------------------------

  /** The six sub-asset-type codes the classifier can give. */
  predicate IsSubAssetTypeCode(c: string)
  {
    c in {"SEC_LEQ_IFIN", "SEC_CSH_BOND", "DER_EQD_SWPS", "PHY_RES_RESD", "SEC_CSH_MMKT", "NTA_NTA_NOTA"}
  }

  /** `mapAssetType`: tests on the lower-cased asset type in order of
      precedence; the first (exactly "fund", or a share or unit class) and the
      second (equity or share) give the same code. */
  function MapAssetType(assetType: string): (r: string)
    ensures IsSubAssetTypeCode(r)
  {
    var lower := Lower(assetType);
    if lower == "fund" || Contains(lower, "share class") || Contains(lower, "unit class") then "SEC_LEQ_IFIN"
    else if Contains(lower, "equity") || Contains(lower, "share") then "SEC_LEQ_IFIN"
    else if Contains(lower, "bond") || Contains(lower, "debt") || Contains(lower, "fixed") then "SEC_CSH_BOND"
    else if Contains(lower, "derivative") || Contains(lower, "swap") then "DER_EQD_SWPS"
    else if Contains(lower, "real estate") || Contains(lower, "property") then "PHY_RES_RESD"
    else if Contains(lower, "cash") || Contains(lower, "money market") then "SEC_CSH_MMKT"
    else "NTA_NTA_NOTA"
  }

  /** The classifier only sees the lower-cased text: inputs that agree up to
      case get the same code. */
  lemma AssetTypeIgnoresCase(a: string, b: string)
    requires Lower(a) == Lower(b)
    ensures MapAssetType(a) == MapAssetType(b)
  {
  }

  lemma AssetTypeOfUpper(s: string)
    ensures MapAssetType(Upper(s)) == MapAssetType(s)
  {
    LowerOfUpper(s);
    AssetTypeIgnoresCase(Upper(s), s);
  }

  /** The asset tests as a rule table, highest precedence first. */
  const AssetTypeRules: seq<Rule> := [
    Rule(["fund"], ["share class", "unit class"], "SEC_LEQ_IFIN"),
    Rule([], ["equity", "share"], "SEC_LEQ_IFIN"),
    Rule([], ["bond", "debt", "fixed"], "SEC_CSH_BOND"),
    Rule([], ["derivative", "swap"], "DER_EQD_SWPS"),
    Rule([], ["real estate", "property"], "PHY_RES_RESD"),
    Rule([], ["cash", "money market"], "SEC_CSH_MMKT")
  ]

  /** The source's k-th asset test on the lower-cased text. */
  predicate AssetHit(lower: string, k: nat)
  {
    match k
    case 0 => lower == "fund" || Contains(lower, "share class") || Contains(lower, "unit class")
    case 1 => Contains(lower, "equity") || Contains(lower, "share")
    case 2 => Contains(lower, "bond") || Contains(lower, "debt") || Contains(lower, "fixed")
    case 3 => Contains(lower, "derivative") || Contains(lower, "swap")
    case 4 => Contains(lower, "real estate") || Contains(lower, "property")
    case 5 => Contains(lower, "cash") || Contains(lower, "money market")
    case _ => false
  }

  lemma AssetHitMeans(lower: string, k: nat)
    requires k < |AssetTypeRules|
    ensures Matches(lower, AssetTypeRules[k]) == AssetHit(lower, k)
  {
    SmallRuleMatches(lower, AssetTypeRules[k]);
  }

  lemma AssetRulesFire(lower: string)
    ensures var rs := AssetTypeRules;
      && Matches(lower, rs[0]) == AssetHit(lower, 0) && Matches(lower, rs[1]) == AssetHit(lower, 1)
      && Matches(lower, rs[2]) == AssetHit(lower, 2) && Matches(lower, rs[3]) == AssetHit(lower, 3)
      && Matches(lower, rs[4]) == AssetHit(lower, 4) && Matches(lower, rs[5]) == AssetHit(lower, 5)
  {
    AssetHitMeans(lower, 0);
    AssetHitMeans(lower, 1);
    AssetHitMeans(lower, 2);
    AssetHitMeans(lower, 3);
    AssetHitMeans(lower, 4);
    AssetHitMeans(lower, 5);
  }

  lemma AssetChain(assetType: string)
    ensures var lower := Lower(assetType);
      MapAssetType(assetType) ==
        if AssetHit(lower, 0) then "SEC_LEQ_IFIN" else if AssetHit(lower, 1) then "SEC_LEQ_IFIN"
        else if AssetHit(lower, 2) then "SEC_CSH_BOND" else if AssetHit(lower, 3) then "DER_EQD_SWPS"
        else if AssetHit(lower, 4) then "PHY_RES_RESD" else if AssetHit(lower, 5) then "SEC_CSH_MMKT"
        else "NTA_NTA_NOTA"
  {
  }

  lemma AssetTable(lower: string)
    ensures FirstMatch(lower, AssetTypeRules) ==
      if AssetHit(lower, 0) then Some("SEC_LEQ_IFIN") else if AssetHit(lower, 1) then Some("SEC_LEQ_IFIN")
      else if AssetHit(lower, 2) then Some("SEC_CSH_BOND") else if AssetHit(lower, 3) then Some("DER_EQD_SWPS")
      else if AssetHit(lower, 4) then Some("PHY_RES_RESD") else if AssetHit(lower, 5) then Some("SEC_CSH_MMKT")
      else None
  {
    AssetRulesFire(lower);
    FirstMatchOfSix(lower, AssetTypeRules);
  }

  /** The chain of tests is the first-match rule table over the lower-cased
      text, with NTA_NTA_NOTA when no rule fires. */
  lemma AssetTypeIsFirstMatch(assetType: string)
    ensures MapAssetType(assetType) ==
      match FirstMatch(Lower(assetType), AssetTypeRules)
      case Some(c) => c
      case None => "NTA_NTA_NOTA"
  {
    AssetChain(assetType);
    AssetTable(Lower(assetType));
  }

  /** The empty asset type contains no keyword and is not "fund". */
  lemma AssetTypeOfEmpty(assetType: string)
    requires assetType == ""
    ensures MapAssetType(assetType) == "NTA_NTA_NOTA"
  {
    var lower := Lower(assetType);
    assert lower == "";
    forall p: string | p != "" ensures !Contains(lower, p) {
      MissingCharNotContained(lower, p, 0);
    }
  }

  /** "fund" alone is an investment fund share, although it contains no keyword. */
  lemma AssetTypeOfFund(assetType: string)
    requires Lower(assetType) == "fund"
    ensures MapAssetType(assetType) == "SEC_LEQ_IFIN"
  {
  }

  // ---------------------------------------------------------------------------
  // Investor-type share lookup
  // ---------------------------------------------------------------------------

  /** `getTypePct`: the NAV percentage of the first entry of the given investor
      type, or 0 when there is none. */
  function GetTypePct(byType: seq<InvestorTypeShare>, investorType: string): (r: int)
    ensures (forall i :: 0 <= i < |byType| ==> byType[i].investorType != investorType) ==> r == 0
    ensures forall i :: (0 <= i < |byType| && byType[i].investorType == investorType
      && (forall j :: 0 <= j < i ==> byType[j].investorType != investorType)) ==> r == byType[i].percentageOfNav
    decreases |byType|
  {
    if |byType| == 0 then 0
    else if byType[0].investorType == investorType then byType[0].percentageOfNav
    else GetTypePct(byType[1..], investorType)
  }
}
