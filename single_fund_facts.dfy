/** Facts about the whole single-fund document, each lifted from the one
    section that writes the element concerned. */
module SingleFundFacts {
  import opened Wrappers
  import opened Text
  import opened XmlUtils
  import opened Lines
  import opened Document
  import opened DocumentFacts
  import Types

  // ---------------------------------------------------------------------------
  // Which section writes which element
  // ---------------------------------------------------------------------------

  /** The manager head alone writes the manager's code, name and EEA flag. */
  lemma ManagerHeadWrites()
    ensures OnlyIn(AIFMNationalCode, 1)
    ensures OnlyIn(AIFMName, 1)
    ensures OnlyIn(AIFMEEAFlag, 1)
  {
    forall j | 0 <= j < 18 && j != 1 ensures AIFMNationalCode !in SectionNames(j) && AIFMName !in SectionNames(j) && AIFMEEAFlag !in SectionNames(j) {
      if j == 0 {} else if j == 1 {} else if j == 2 {} else if j == 3 {} else if j == 4 {} else if j == 5 {}
      else if j == 6 {} else if j == 7 {} else if j == 8 {} else if j == 9 {} else if j == 10 {} else if j == 11 {}
      else if j == 12 {} else if j == 13 {} else if j == 14 {} else if j == 15 {} else if j == 16 {} else {}
    }
  }

  /** The manager description alone writes the identifier, its LEI and the reporting code. */
  lemma ManagerDescriptionWrites()
    ensures OnlyIn(AIFMIdentifier, 3)
    ensures OnlyIn(AIFMReportingCode, 3)
    ensures OnlyIn(AIFMIdentifierLEI, 3)
  {
    forall j | 0 <= j < 18 && j != 3 ensures AIFMIdentifier !in SectionNames(j) && AIFMReportingCode !in SectionNames(j) && AIFMIdentifierLEI !in SectionNames(j) {
      if j == 0 {} else if j == 1 {} else if j == 2 {} else if j == 3 {} else if j == 4 {} else if j == 5 {}
      else if j == 6 {} else if j == 7 {} else if j == 8 {} else if j == 9 {} else if j == 10 {} else if j == 11 {}
      else if j == 12 {} else if j == 13 {} else if j == 14 {} else if j == 15 {} else if j == 16 {} else {}
    }
  }

  /** The fund head alone writes the fund's EEA flag, reporting code and inception date. */
  lemma FundHeadWrites()
    ensures OnlyIn(AIFEEAFlag, 4)
    ensures OnlyIn(AIFReportingCode, 4)
    ensures OnlyIn(AIFInceptionDate, 4)
  {
    forall j | 0 <= j < 18 && j != 4 ensures AIFEEAFlag !in SectionNames(j) && AIFReportingCode !in SectionNames(j) && AIFInceptionDate !in SectionNames(j) {
      if j == 0 {} else if j == 1 {} else if j == 2 {} else if j == 3 {} else if j == 4 {} else if j == 5 {}
      else if j == 6 {} else if j == 7 {} else if j == 8 {} else if j == 9 {} else if j == 10 {} else if j == 11 {}
      else if j == 12 {} else if j == 13 {} else if j == 14 {} else if j == 15 {} else if j == 16 {} else {}
    }
  }

  /** The principal information alone writes instrument blocks. */
  lemma PrincipalWrites()
    ensures OnlyIn(MainInstrumentTraded, 7)
  {
    forall j | 0 <= j < 18 && j != 7 ensures MainInstrumentTraded !in SectionNames(j) {
      if j == 0 {} else if j == 1 {} else if j == 2 {} else if j == 3 {} else if j == 4 {} else if j == 5 {}
      else if j == 6 {} else if j == 7 {} else if j == 8 {} else if j == 9 {} else if j == 10 {} else if j == 11 {}
      else if j == 12 {} else if j == 13 {} else if j == 14 {} else if j == 15 {} else if j == 16 {} else {}
    }
  }

  /** The principal markets section alone writes market blocks. */
  lemma MarketsWrite()
    ensures OnlyIn(AIFMPrincipalMarket, 9)
    ensures OnlyIn(AifmPrincipalMarkets, 9)
  {
    forall j | 0 <= j < 18 && j != 9 ensures AIFMPrincipalMarket !in SectionNames(j) && AifmPrincipalMarkets !in SectionNames(j) {
      if j == 0 {} else if j == 1 {} else if j == 2 {} else if j == 3 {} else if j == 4 {} else if j == 5 {}
      else if j == 6 {} else if j == 7 {} else if j == 8 {} else if j == 9 {} else if j == 10 {} else if j == 11 {}
      else if j == 12 {} else if j == 13 {} else if j == 14 {} else if j == 15 {} else if j == 16 {} else {}
    }
  }

  /** The investor exposure section alone writes investor blocks. */
  lemma ExposureWrites()
    ensures OnlyIn(InvestorBreakdown, 10)
  {
    forall j | 0 <= j < 18 && j != 10 ensures InvestorBreakdown !in SectionNames(j) {
      if j == 0 {} else if j == 1 {} else if j == 2 {} else if j == 3 {} else if j == 4 {} else if j == 5 {}
      else if j == 6 {} else if j == 7 {} else if j == 8 {} else if j == 9 {} else if j == 10 {} else if j == 11 {}
      else if j == 12 {} else if j == 13 {} else if j == 14 {} else if j == 15 {} else if j == 16 {} else {}
    }
  }

  /** The counterparty section alone writes counterparty blocks. */
  lemma CounterpartiesWrite()
    ensures OnlyIn(TopCounterparty, 11)
    ensures OnlyIn(CounterpartyRiskProfile, 11)
  {
    forall j | 0 <= j < 18 && j != 11 ensures TopCounterparty !in SectionNames(j) && CounterpartyRiskProfile !in SectionNames(j) {
      if j == 0 {} else if j == 1 {} else if j == 2 {} else if j == 3 {} else if j == 4 {} else if j == 5 {}
      else if j == 6 {} else if j == 7 {} else if j == 8 {} else if j == 9 {} else if j == 10 {} else if j == 11 {}
      else if j == 12 {} else if j == 13 {} else if j == 14 {} else if j == 15 {} else if j == 16 {} else {}
    }
  }

  /** The leverage section alone writes the limits. */
  lemma LeverageWrites()
    ensures OnlyIn(RegulatoryLeverageLimits, 12)
    ensures OnlyIn(CommitmentMethodLimit, 12)
    ensures OnlyIn(GrossMethodLimit, 12)
  {
    forall j | 0 <= j < 18 && j != 12 ensures RegulatoryLeverageLimits !in SectionNames(j) && CommitmentMethodLimit !in SectionNames(j) && GrossMethodLimit !in SectionNames(j) {
      if j == 0 {} else if j == 1 {} else if j == 2 {} else if j == 3 {} else if j == 4 {} else if j == 5 {}
      else if j == 6 {} else if j == 7 {} else if j == 8 {} else if j == 9 {} else if j == 10 {} else if j == 11 {}
      else if j == 12 {} else if j == 13 {} else if j == 14 {} else if j == 15 {} else if j == 16 {} else {}
    }
  }

  /** The liquidity section alone writes bucket and tool blocks. */
  lemma LiquidityWrites()
    ensures OnlyIn(PortfolioLiquidityBucket, 13)
    ensures OnlyIn(LiquidityManagementTool, 13)
    ensures OnlyIn(LiquidityManagementTools, 13)
  {
    forall j | 0 <= j < 18 && j != 13 ensures PortfolioLiquidityBucket !in SectionNames(j) && LiquidityManagementTool !in SectionNames(j) && LiquidityManagementTools !in SectionNames(j) {
      if j == 0 {} else if j == 1 {} else if j == 2 {} else if j == 3 {} else if j == 4 {} else if j == 5 {}
      else if j == 6 {} else if j == 7 {} else if j == 8 {} else if j == 9 {} else if j == 10 {} else if j == 11 {}
      else if j == 12 {} else if j == 13 {} else if j == 14 {} else if j == 15 {} else if j == 16 {} else {}
    }
  }

  /** The depositary section alone writes the depositary block. */
  lemma DepositaryWrites()
    ensures OnlyIn(AIFDepositaryInfo, 15)
    ensures OnlyIn(DepositaryCountry, 15)
    ensures OnlyIn(DepositaryLEI, 15)
  {
    forall j | 0 <= j < 18 && j != 15 ensures AIFDepositaryInfo !in SectionNames(j) && DepositaryCountry !in SectionNames(j) && DepositaryLEI !in SectionNames(j) {
      if j == 0 {} else if j == 1 {} else if j == 2 {} else if j == 3 {} else if j == 4 {} else if j == 5 {}
      else if j == 6 {} else if j == 7 {} else if j == 8 {} else if j == 9 {} else if j == 10 {} else if j == 11 {}
      else if j == 12 {} else if j == 13 {} else if j == 14 {} else if j == 15 {} else if j == 16 {} else {}
    }
  }

  /** Only the two period sections write the period's quarter and year. */
  lemma PeriodWrites(j: nat)
    requires j < 18 && j != 2 && j != 5
    ensures ReportingPeriodType !in SectionNames(j) && ReportingPeriodYear !in SectionNames(j)
  {
    if j == 0 {} else if j == 1 {} else if j == 2 {} else if j == 3 {} else if j == 4 {} else if j == 5 {}
    else if j == 6 {} else if j == 7 {} else if j == 8 {} else if j == 9 {} else if j == 10 {} else if j == 11 {}
    else if j == 12 {} else if j == 13 {} else if j == 14 {} else if j == 15 {} else if j == 16 {} else {}
  }

  // ---------------------------------------------------------------------------
  // Counts and conditional blocks
  // ---------------------------------------------------------------------------

  /** One instrument block for each of the first five assets, and no more. */
  lemma AssetCountInDocument(h: Conversions, r: Types.AnnexIVReport)
    ensures var assets := r.principalExposures.assetBreakdown;
      Count(SingleFund(h, r), Open(MainInstrumentTraded)) == if |assets| < 5 then |assets| else 5
  {
    PrincipalAssetCount(h, r);
    PrincipalInLayout(h, r);
    PrincipalWrites();
    SingleFundLine(h, r, 7, Open(MainInstrumentTraded));
  }

  /** One market block for each of the first five markets, inside a markets
      block that is written exactly when there is a market. */
  lemma MarketsInDocument(h: Conversions, r: Types.AnnexIVReport)
    ensures var geo := r.geographicFocus;
      Count(SingleFund(h, r), Open(AIFMPrincipalMarket)) == if |geo| < 5 then |geo| else 5
    ensures Open(AifmPrincipalMarkets) in SingleFund(h, r) <==> |r.geographicFocus| > 0
  {
    MarketCount(h, r);
    MarketInLayout(h, r);
    MarketsWrite();
    SingleFundLine(h, r, 9, Open(AIFMPrincipalMarket));
    SingleFundLine(h, r, 9, Open(AifmPrincipalMarkets));
  }

  /** One investor block for each of the first ten investor domiciles. */
  lemma InvestorCountInDocument(h: Conversions, r: Types.AnnexIVReport)
    ensures var ds := r.investorConcentration.byDomicile;
      Count(SingleFund(h, r), Open(InvestorBreakdown)) == if |ds| < 10 then |ds| else 10
  {
    ExposureCount(h, r);
    ExposureInLayout(h, r);
    ExposureWrites();
    SingleFundLine(h, r, 10, Open(InvestorBreakdown));
  }

  /** The instrument blocks follow one another from a fixed line on, showing
      the first five assets in input order. */
  lemma AssetsInOrder(h: Conversions, r: Types.AnnexIVReport, k: nat)
    requires k < 5 && k < |r.principalExposures.assetBreakdown|
    ensures var at := |SingleFundUpTo(h, r, 7)| + (4 + 6 * k); var d := SingleFund(h, r);
      at + 6 <= |d| && d[at..at + 6] == AssetBlock(h, r.principalExposures.assetBreakdown[k])
  {
    var x, b := 4 + 6 * k, AssetBlock(h, r.principalExposures.assetBreakdown[k]);
    assert x + 6 <= |SingleFundLayout[7](h, r)| && SingleFundLayout[7](h, r)[x..x + 6] == b by {
      PrincipalAssetAt(h, r, k);
      PrincipalInLayout(h, r);
    }
    SingleFundRun(h, r, 7, x, 6, b);
  }

  /** The market blocks follow one another from a fixed line on, showing the
      first five regions in input order. */
  lemma MarketsInOrder(h: Conversions, r: Types.AnnexIVReport, k: nat)
    requires k < 5 && k < |r.geographicFocus|
    ensures var at := |SingleFundUpTo(h, r, 9)| + (1 + 4 * k); var d := SingleFund(h, r);
      at + 4 <= |d| && d[at..at + 4] == MarketBlock(h, r.geographicFocus[k])
  {
    var x, b := 1 + 4 * k, MarketBlock(h, r.geographicFocus[k]);
    assert x + 4 <= |SingleFundLayout[9](h, r)| && SingleFundLayout[9](h, r)[x..x + 4] == b by {
      MarketAt(h, r, k);
      MarketInLayout(h, r);
    }
    SingleFundRun(h, r, 9, x, 4, b);
  }

  /** The investor blocks follow one another from a fixed line on, showing the
      first ten domiciles in input order. */
  lemma InvestorsInOrder(h: Conversions, r: Types.AnnexIVReport, k: nat)
    requires k < 10 && k < |r.investorConcentration.byDomicile|
    ensures var at := |SingleFundUpTo(h, r, 10)| + (2 + 5 * k); var d := SingleFund(h, r);
      at + 5 <= |d| && d[at..at + 5] == InvestorBlock(h, r.investorConcentration.byDomicile[k])
  {
    var x, b := 2 + 5 * k, InvestorBlock(h, r.investorConcentration.byDomicile[k]);
    assert x + 5 <= |SingleFundLayout[10](h, r)| && SingleFundLayout[10](h, r)[x..x + 5] == b by {
      InvestorAt(h, r, k);
      ExposureInLayout(h, r);
    }
    SingleFundRun(h, r, 10, x, 5, b);
  }

  /** One block for every counterparty, with no cap, inside a risk profile
      that is written exactly when there is a counterparty. */
  lemma CounterpartiesInDocument(h: Conversions, r: Types.AnnexIVReport)
    ensures Count(SingleFund(h, r), Open(TopCounterparty)) == |r.counterpartyRisk.top5Counterparties|
    ensures Open(CounterpartyRiskProfile) in SingleFund(h, r) <==> |r.counterpartyRisk.top5Counterparties| > 0
  {
    CounterpartyCount(h, r);
    CounterpartyInLayout(h, r);
    CounterpartiesWrite();
    SingleFundLine(h, r, 11, Open(TopCounterparty));
    SingleFundLine(h, r, 11, Open(CounterpartyRiskProfile));
  }

  /** One block for every liquidity bucket, with no cap. */
  lemma BucketCountInDocument(h: Conversions, r: Types.AnnexIVReport)
    ensures Count(SingleFund(h, r), Open(PortfolioLiquidityBucket)) == |r.riskProfile.liquidity.portfolioLiquidityProfile|
  {
    LiquidityBucketCount(h, r);
    LiquidityInLayout(h, r);
    LiquidityWrites();
    SingleFundLine(h, r, 13, Open(PortfolioLiquidityBucket));
  }

  /** One block for every liquidity management tool, with no cap, inside a
      tools block that is written exactly when there is a tool. */
  lemma ToolsInDocument(h: Conversions, r: Types.AnnexIVReport)
    ensures Count(SingleFund(h, r), Open(LiquidityManagementTool)) == |r.riskProfile.liquidity.liquidityManagementTools|
    ensures Open(LiquidityManagementTools) in SingleFund(h, r) <==> |r.riskProfile.liquidity.liquidityManagementTools| > 0
  {
    LiquidityToolCount(h, r);
    LiquidityInLayout(h, r);
    LiquidityWrites();
    SingleFundLine(h, r, 13, Open(LiquidityManagementTool));
    SingleFundLine(h, r, 13, Open(LiquidityManagementTools));
  }

  /** The depositary block is written exactly when the depositary has a name;
      its country falls back to DE, and its LEI line is written only when
      there is an LEI. */
  lemma DepositaryInDocument(h: Conversions, r: Types.AnnexIVReport)
    ensures var dep := r.depositary; var d := SingleFund(h, r);
      && (Open(AIFDepositaryInfo) in d <==> Truthy(dep.name))
      && (Truthy(dep.name) ==> HasValue(d, DepositaryCountry, Some(Str(OrElse(dep.jurisdiction, "DE")))))
      && (Truthy(dep.name) && Truthy(dep.lei) ==> StrElem(DepositaryLEI, dep.lei.value) in d)
      && (!(Truthy(dep.name) && Truthy(dep.lei)) ==> forall v :: Elem(DepositaryLEI, v) !in d)
  {
    var dep := r.depositary;
    DepositaryInLayout(h, r);
    DepositaryWrites();
    DepositaryPresence(h, r);
    DepositaryCountryValue(h, r);
    DepositaryLeiLine(h, r);
    SingleFundLine(h, r, 15, Open(AIFDepositaryInfo));
    if Truthy(dep.name) {
      SingleFundHasValue(h, r, 15, DepositaryCountry, Some(Str(OrElse(dep.jurisdiction, "DE"))));
    }
    forall v ensures Elem(DepositaryLEI, v) in SingleFund(h, r) <==> Elem(DepositaryLEI, v) in DepositaryLines(h, r) {
      SingleFundLine(h, r, 15, Elem(DepositaryLEI, v));
    }
  }

  /** The limits block is written exactly when a limit is set, each limit
      exactly when it is set, the commitment limit before the gross one. */
  lemma LimitsInDocument(h: Conversions, r: Types.AnnexIVReport)
    ensures var lev := r.leverage; var d := SingleFund(h, r);
      && (Open(RegulatoryLeverageLimits) in d <==> lev.commitmentLimit.Some? || lev.grossLimit.Some?)
      && (lev.commitmentLimit.Some? ==> NumElem(CommitmentMethodLimit, lev.commitmentLimit.value) in d)
      && (lev.commitmentLimit.None? ==> forall v :: Elem(CommitmentMethodLimit, v) !in d)
      && (lev.grossLimit.Some? ==> NumElem(GrossMethodLimit, lev.grossLimit.value) in d)
      && (lev.grossLimit.None? ==> forall v :: Elem(GrossMethodLimit, v) !in d)
      && (lev.commitmentLimit.Some? && lev.grossLimit.Some? ==>
            Before(d, NumElem(CommitmentMethodLimit, lev.commitmentLimit.value), NumElem(GrossMethodLimit, lev.grossLimit.value)))
  {
    var lev := r.leverage;
    LeverageInLayout(h, r);
    LeverageWrites();
    LimitFacts(h, r);
    SingleFundLine(h, r, 12, Open(RegulatoryLeverageLimits));
    forall v ensures (Elem(CommitmentMethodLimit, v) in SingleFund(h, r) <==> Elem(CommitmentMethodLimit, v) in LeverageLines(h, r))
      && (Elem(GrossMethodLimit, v) in SingleFund(h, r) <==> Elem(GrossMethodLimit, v) in LeverageLines(h, r))
    {
      SingleFundLine(h, r, 12, Elem(CommitmentMethodLimit, v));
      SingleFundLine(h, r, 12, Elem(GrossMethodLimit, v));
    }
    if lev.commitmentLimit.Some? && lev.grossLimit.Some? {
      SingleFundBefore(h, r, 12, NumElem(CommitmentMethodLimit, lev.commitmentLimit.value),
        NumElem(GrossMethodLimit, lev.grossLimit.value));
    }
  }

  // ---------------------------------------------------------------------------
  // Values
  // ---------------------------------------------------------------------------

  /** The manager's national code is its LEI or PENDING, its name falls back
      to "Not specified", and its EEA flag says whether the fund's domicile
      is in the EEA. */
  lemma ManagerInDocument(h: Conversions, r: Types.AnnexIVReport)
    ensures var id := r.aifIdentification; var d := SingleFund(h, r);
      && HasValue(d, AIFMNationalCode, Some(Str(OrElse(id.aifmLei, "PENDING"))))
      && HasValue(d, AIFMName, Some(Str(OrElse(id.aifmName, "Not specified"))))
      && HasValue(d, AIFMEEAFlag, Some(Str(FlagText(h.isEea(id.domicile)))))
  {
    var id := r.aifIdentification;
    ManagerHeadInLayout(h, r);
    ManagerHeadWrites();
    ManagerNationalCode(h, r);
    ManagerName(h, r);
    ManagerEeaFlag(h, r);
    SingleFundHasValue(h, r, 1, AIFMNationalCode, Some(Str(OrElse(id.aifmLei, "PENDING"))));
    SingleFundHasValue(h, r, 1, AIFMName, Some(Str(OrElse(id.aifmName, "Not specified"))));
    SingleFundHasValue(h, r, 1, AIFMEEAFlag, Some(Str(FlagText(h.isEea(id.domicile)))));
  }

  /** The manager identifier is the LEI, or the fund's national code when
      the LEI is missing or empty. */
  lemma ManagerIdentifierInDocument(h: Conversions, r: Types.AnnexIVReport)
    ensures var id := r.aifIdentification;
      HasValue(SingleFund(h, r), AIFMIdentifier, Some(Str(OrElse(id.aifmLei, id.aifNationalCode))))
  {
    var id := r.aifIdentification;
    ManagerDescriptionInLayout(h, r);
    ManagerDescriptionWrites();
    ManagerIdentifier(h, r);
    SingleFundHasValue(h, r, 3, AIFMIdentifier, Some(Str(OrElse(id.aifmLei, id.aifNationalCode))));
  }

  /** The manager reporting code is the member state, "AIFM" and the code. */
  lemma ManagerReportingCodeInDocument(h: Conversions, r: Types.AnnexIVReport)
    ensures var id := r.aifIdentification;
      HasValue(SingleFund(h, r), AIFMReportingCode, Some(Str(ReportingCode(h.memberState(id.domicile), "AIFM", id.aifNationalCode))))
  {
    var id := r.aifIdentification;
    ManagerDescriptionInLayout(h, r);
    ManagerDescriptionWrites();
    ManagerReportingCode(h, r);
    SingleFundHasValue(h, r, 3, AIFMReportingCode, Some(Str(ReportingCode(h.memberState(id.domicile), "AIFM", id.aifNationalCode))));
  }

  /** The hand-written LEI line is in the document exactly when the manager
      has a non-empty LEI. */
  lemma ManagerLeiInDocument(h: Conversions, r: Types.AnnexIVReport)
    ensures var id := r.aifIdentification; var d := SingleFund(h, r);
      && (Truthy(id.aifmLei) ==> RawElem(AIFMIdentifierLEI, id.aifmLei.value) in d)
      && (!Truthy(id.aifmLei) ==> forall t :: RawElem(AIFMIdentifierLEI, t) !in d)
  {
    ManagerDescriptionInLayout(h, r);
    ManagerDescriptionWrites();
    ManagerLeiLine(h, r);
    forall t ensures RawElem(AIFMIdentifierLEI, t) in SingleFund(h, r) <==> RawElem(AIFMIdentifierLEI, t) in ManagerDescription(h, r) {
      SingleFundLine(h, r, 3, RawElem(AIFMIdentifierLEI, t));
    }
  }

  /** The fund's EEA flag, its reporting code (member state, AIF, national
      code) and its inception date, null when none is given. */
  lemma FundInDocument(h: Conversions, r: Types.AnnexIVReport)
    ensures var id := r.aifIdentification; var d := SingleFund(h, r);
      && HasValue(d, AIFEEAFlag, Some(Str(FlagText(h.isEea(id.domicile)))))
      && HasValue(d, AIFReportingCode, Some(Str(ReportingCode(h.memberState(id.domicile), "AIF", id.aifNationalCode))))
      && HasValue(d, AIFInceptionDate, InceptionValue(id.inceptionDate))
  {
    var id := r.aifIdentification;
    FundHeadInLayout(h, r);
    FundHeadWrites();
    FundEeaFlag(h, r);
    FundReportingCode(h, r);
    FundInceptionDate(h, r);
    SingleFundHasValue(h, r, 4, AIFEEAFlag, Some(Str(FlagText(h.isEea(id.domicile)))));
    SingleFundHasValue(h, r, 4, AIFReportingCode, Some(Str(ReportingCode(h.memberState(id.domicile), "AIF", id.aifNationalCode))));
    SingleFundHasValue(h, r, 4, AIFInceptionDate, InceptionValue(id.inceptionDate));
  }

  /** Every period type element is the quarter of the period's end and every
      period year element its year; each is written twice, once in the
      manager block and once in the fund block. */
  lemma PeriodInDocument(h: Conversions, r: Types.AnnexIVReport)
    ensures var p := r.aifIdentification.reportingPeriod; var d := SingleFund(h, r);
      var quarter := StrElem(ReportingPeriodType, PeriodType(p.endMonth));
      var year := StrElem(ReportingPeriodYear, IntToString(p.endYear));
      && HasValue(d, ReportingPeriodType, quarter.value) && Before(d, quarter, quarter)
      && HasValue(d, ReportingPeriodYear, year.value) && Before(d, year, year)
  {
    var p := r.aifIdentification.reportingPeriod;
    var quarter := StrElem(ReportingPeriodType, PeriodType(p.endMonth));
    var year := StrElem(ReportingPeriodYear, IntToString(p.endYear));
    PeriodInLayout(h, r);
    PeriodValues(h, r);
    forall j | 0 <= j < |SingleFundLayout| && ReportingPeriodType in SectionNames(j)
      ensures ElemValues(SingleFundLayout[j](h, r), ReportingPeriodType, quarter.value)
    {
      if j != 2 && j != 5 {
        PeriodWrites(j);
      }
    }
    forall j | 0 <= j < |SingleFundLayout| && ReportingPeriodYear in SectionNames(j)
      ensures ElemValues(SingleFundLayout[j](h, r), ReportingPeriodYear, year.value)
    {
      if j != 2 && j != 5 {
        PeriodWrites(j);
      }
    }
    SingleFundValues(h, r, ReportingPeriodType, quarter.value);
    SingleFundValues(h, r, ReportingPeriodYear, year.value);
    SingleFundOrder(h, r, 2, 5, quarter, quarter);
    SingleFundOrder(h, r, 2, 5, year, year);
  }

  /** The sub-asset type is written, falling back to OTHR_OTHR. */
  lemma SubAssetTypeInDocument(h: Conversions, r: Types.AnnexIVReport)
    ensures StrElem(SubAssetType, if r.subAssetType != "" then r.subAssetType else "OTHR_OTHR") in SingleFund(h, r)
  {
    PrincipalInLayout(h, r);
    SubAssetTypeFallback(h, r);
    SingleFundHas(h, r, 7, StrElem(SubAssetType, if r.subAssetType != "" then r.subAssetType else "OTHR_OTHR"));
  }

  // ---------------------------------------------------------------------------
  // Shape
  // ---------------------------------------------------------------------------

  /** The document opens with the XML declaration and closes the root element. */
  lemma SingleFundEnds(h: Conversions, r: Types.AnnexIVReport)
    ensures var d := SingleFund(h, r);
      |d| > 0 && d[0] == Declaration && d[|d| - 1] == Close(AIFReportingInfo)
  {
    var ss := Sections(SingleFundLayout, h, r);
    PrologueInLayout(h, r);
    TrailerInLayout(h, r);
    assert ss[0] == SingleFundPrologue(h, r);
    assert ss[17] == TrailerLines(h, r);
    ConcatFirst(ss);
    ConcatLast(ss);
  }

  /** The manager record opens before the fund record, and the fund record
      before its principal information. */
  lemma RecordsInOrder(h: Conversions, r: Types.AnnexIVReport)
    ensures Before(SingleFund(h, r), Open(AIFMRecordInfo), Open(AIFRecordInfo))
    ensures Before(SingleFund(h, r), Open(AIFRecordInfo), Open(AIFPrincipalInfo))
  {
    ManagerHeadInLayout(h, r);
    FundHeadInLayout(h, r);
    PrincipalInLayout(h, r);
    assert ManagerHead(h, r)[0] == Open(AIFMRecordInfo);
    assert FundHead(h, r)[0] == Open(AIFRecordInfo);
    assert PrincipalLines(h, r)[1] == Open(AIFPrincipalInfo);
    SingleFundOrder(h, r, 1, 4, Open(AIFMRecordInfo), Open(AIFRecordInfo));
    SingleFundOrder(h, r, 4, 7, Open(AIFRecordInfo), Open(AIFPrincipalInfo));
  }
}
