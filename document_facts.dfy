/** What the single-fund and aggregate documents contain: which elements,
    how many, in which order and with which values. Every fact here holds for
    any conversions, and so for the ones the serializers call. */
module DocumentFacts {
  import opened Wrappers
  import opened Text
  import opened XmlUtils
  import opened Lines
  import opened Document
  import Types

  // ---------------------------------------------------------------------------
  // Which names each block and section writes
  // ---------------------------------------------------------------------------

  const AssetNames: set<Name> := {MainInstrumentTraded, SubAssetType, InstrumentName, PositionValue, PositionRate}
  const MarketBlockNames: set<Name> := {AIFMPrincipalMarket, MarketIdentification, AggregateValueAmount}
  const InvestorNames: set<Name> := {InvestorBreakdown, InvestorCountry, InvestorCount, InvestorPercentage}
  const TopCounterpartyNames: set<Name> := {TopCounterparty, CounterpartyName, CounterpartyLEI, ExposureRate}
  const BucketNames: set<Name> := {PortfolioLiquidityBucket, BucketPeriod, BucketRate}
  const ToolNames: set<Name> :=
    {LiquidityManagementTools, LiquidityManagementTool, LMTType, LMTActive, LMTDescription}

  /** The element names section k of `SingleFundLayout` writes:
      0 prologue, 1 manager head, 2 manager period, 3 manager description,
      4 fund head, 5 fund period, 6 fund tail, 7 principal information,
      8 investor concentration, 9 principal markets, 10 investor domiciles,
      11 counterparties, 12 leverage, 13 liquidity, 14 operational risk,
      15 depositary, 16 compliance, 17 trailer. */
  function SectionNames(k: nat): set<Name>
  {
    if k == 1 then {AIFMRecordInfo, AIFMNationalCode, AIFMName, AIFMEEAFlag, AIFMNoReportingFlag}
    else if k == 2 || k == 5 then {ReportingPeriodType, ReportingPeriodYear}
    else if k == 3 then {AIFMReportingObligationChangeFrequencyCode, AIFMCompleteDescription, AIFMIdentifier,
      AIFMIdentifierLEI, AIFMReportingCode}
    else if k == 4 then {AIFRecordInfo, AIFNationalCode, AIFName, AIFEEAFlag, AIFReportingCode, AIFDomicile,
      AIFInceptionDate}
    else if k == 6 then {ReportingPeriodStartDate, ReportingPeriodEndDate, AIFMasterFeederStatus,
      AIFBaseCurrencyDescription}
    else if k == 7 then {AIFCompleteDescription, AIFPrincipalInfo, AIFIdentification, MainInstrumentsTraded,
      PredominantAIFType, NetAssetValue, GrossAssetValue, BaseCurrencyDescription,
      MainInstrumentTraded, SubAssetType, InstrumentName, PositionValue, PositionRate}
    else if k == 8 then {InvestorConcentration, ProfessionalInvestorConcentrationRate,
      RetailInvestorConcentrationRate, TopFiveBeneficialOwnersRate}
    else if k == 9 then {AifmPrincipalMarkets, AIFPrincipalInfo,
      AIFMPrincipalMarket, MarketIdentification, AggregateValueAmount}
    else if k == 10 then {AIFIndividualInfo, IndividualExposure,
      InvestorBreakdown, InvestorCountry, InvestorCount, InvestorPercentage}
    else if k == 11 then {CounterpartyRiskProfile, TotalCounterpartyExposure,
      TopCounterparty, CounterpartyName, CounterpartyLEI, ExposureRate}
    else if k == 12 then {AIFLeverageInfo, AIFLeverageArticle242, GrossMethodRate, CommitmentMethodRate,
      RegulatoryLeverageLimits, CommitmentMethodLimit, GrossMethodLimit, LeverageCompliant}
    else if k == 13 then {LiquidityProfile, PortfolioLiquidityProfile, InvestorLiquidityProfile,
      InvestorRedemptionFrequency,
      PortfolioLiquidityBucket, BucketPeriod, BucketRate,
      LiquidityManagementTools, LiquidityManagementTool, LMTType, LMTActive, LMTDescription}
    else if k == 14 then {OperationalRisk, TotalOpenRiskFlags, HighSeverityFlags, AIFIndividualInfo,
      AIFCompleteDescription}
    else if k == 15 then {AIFDepositaryInfo, DepositaryName, DepositaryLEI, DepositaryCountry, DepositaryType}
    else if k == 16 then {CaelithComplianceExtension, KYCCoveragePct, EligibleInvestorPct, RecentViolations,
      LastComplianceCheck}
    else if k == 17 then {GeneratedAt, ReportVersion, AIFRecordInfo, AIFMCompleteDescription, AIFMRecordInfo,
      Disclaimer, AIFReportingInfo}
    else {}
  }

  /** Element n is written by section k of `SingleFundLayout` and by no other. */
  predicate OnlyIn(n: Name, k: nat)
  {
    forall j :: 0 <= j < 18 && j != k ==> n !in SectionNames(j)
  }

  // ---------------------------------------------------------------------------
  // Blocks
  // ---------------------------------------------------------------------------

  lemma AssetBlockFacts(h: Conversions, a: Types.Asset)
    ensures NamesOnly(AssetBlock(h, a), AssetNames)
    ensures Count(AssetBlock(h, a), Open(MainInstrumentTraded)) == 1
    ensures |AssetBlock(h, a)| == 6
  {
    CountLeading(AssetBlock(h, a), Open(MainInstrumentTraded));
  }

  lemma MarketBlockFacts(h: Conversions, g: Types.GeographicExposure)
    ensures NamesOnly(MarketBlock(h, g), MarketBlockNames)
    ensures Count(MarketBlock(h, g), Open(AIFMPrincipalMarket)) == 1
    ensures |MarketBlock(h, g)| == 4
  {
    CountLeading(MarketBlock(h, g), Open(AIFMPrincipalMarket));
  }

  lemma InvestorBlockFacts(h: Conversions, d: Types.DomicileShare)
    ensures NamesOnly(InvestorBlock(h, d), InvestorNames)
    ensures Count(InvestorBlock(h, d), Open(InvestorBreakdown)) == 1
    ensures |InvestorBlock(h, d)| == 5
  {
    CountLeading(InvestorBlock(h, d), Open(InvestorBreakdown));
  }

  lemma CounterpartyBlockFacts(h: Conversions, c: Types.Counterparty)
    ensures NamesOnly(CounterpartyBlock(h, c), TopCounterpartyNames)
    ensures Count(CounterpartyBlock(h, c), Open(TopCounterparty)) == 1
  {
    CountLeading(CounterpartyBlock(h, c), Open(TopCounterparty));
  }

  lemma BucketBlockFacts(h: Conversions, b: Types.LiquidityBucket)
    ensures NamesOnly(BucketBlock(h, b), BucketNames)
    ensures Count(BucketBlock(h, b), Open(PortfolioLiquidityBucket)) == 1
    ensures |BucketBlock(h, b)| == 4
  {
    CountLeading(BucketBlock(h, b), Open(PortfolioLiquidityBucket));
  }

  lemma ToolBlockFacts(h: Conversions, t: Types.LiquidityTool)
    ensures NamesOnly(ToolBlock(h, t), ToolNames)
    ensures Count(ToolBlock(h, t), Open(LiquidityManagementTool)) == 1
    ensures |ToolBlock(h, t)| == 5
  {
    CountLeading(ToolBlock(h, t), Open(LiquidityManagementTool));
  }

  lemma AssetBlocksFacts(h: Conversions, xs: seq<Types.Asset>)
    ensures NamesOnly(Blocks(h, xs, AssetBlock), AssetNames)
    ensures Count(Blocks(h, xs, AssetBlock), Open(MainInstrumentTraded)) == |xs|
  {
    forall i | 0 <= i < |xs| ensures NamesOnly(AssetBlock(h, xs[i]), AssetNames)
      && Count(AssetBlock(h, xs[i]), Open(MainInstrumentTraded)) == 1 {
      AssetBlockFacts(h, xs[i]);
    }
    BlocksNamesOnly(h, xs, AssetBlock, AssetNames);
    BlocksCount(h, xs, AssetBlock, Open(MainInstrumentTraded), 1);
  }

  lemma MarketBlocksFacts(h: Conversions, xs: seq<Types.GeographicExposure>)
    ensures NamesOnly(Blocks(h, xs, MarketBlock), MarketBlockNames)
    ensures Count(Blocks(h, xs, MarketBlock), Open(AIFMPrincipalMarket)) == |xs|
  {
    forall i | 0 <= i < |xs| ensures NamesOnly(MarketBlock(h, xs[i]), MarketBlockNames)
      && Count(MarketBlock(h, xs[i]), Open(AIFMPrincipalMarket)) == 1 {
      MarketBlockFacts(h, xs[i]);
    }
    BlocksNamesOnly(h, xs, MarketBlock, MarketBlockNames);
    BlocksCount(h, xs, MarketBlock, Open(AIFMPrincipalMarket), 1);
  }

  lemma InvestorBlocksFacts(h: Conversions, xs: seq<Types.DomicileShare>)
    ensures NamesOnly(Blocks(h, xs, InvestorBlock), InvestorNames)
    ensures Count(Blocks(h, xs, InvestorBlock), Open(InvestorBreakdown)) == |xs|
  {
    forall i | 0 <= i < |xs| ensures NamesOnly(InvestorBlock(h, xs[i]), InvestorNames)
      && Count(InvestorBlock(h, xs[i]), Open(InvestorBreakdown)) == 1 {
      InvestorBlockFacts(h, xs[i]);
    }
    BlocksNamesOnly(h, xs, InvestorBlock, InvestorNames);
    BlocksCount(h, xs, InvestorBlock, Open(InvestorBreakdown), 1);
  }

  lemma CounterpartyBlocksFacts(h: Conversions, xs: seq<Types.Counterparty>)
    ensures NamesOnly(Blocks(h, xs, CounterpartyBlock), TopCounterpartyNames)
    ensures Count(Blocks(h, xs, CounterpartyBlock), Open(TopCounterparty)) == |xs|
  {
    forall i | 0 <= i < |xs| ensures NamesOnly(CounterpartyBlock(h, xs[i]), TopCounterpartyNames)
      && Count(CounterpartyBlock(h, xs[i]), Open(TopCounterparty)) == 1 {
      CounterpartyBlockFacts(h, xs[i]);
    }
    BlocksNamesOnly(h, xs, CounterpartyBlock, TopCounterpartyNames);
    BlocksCount(h, xs, CounterpartyBlock, Open(TopCounterparty), 1);
  }

  lemma BucketBlocksFacts(h: Conversions, xs: seq<Types.LiquidityBucket>)
    ensures NamesOnly(Blocks(h, xs, BucketBlock), BucketNames)
    ensures Count(Blocks(h, xs, BucketBlock), Open(PortfolioLiquidityBucket)) == |xs|
  {
    forall i | 0 <= i < |xs| ensures NamesOnly(BucketBlock(h, xs[i]), BucketNames)
      && Count(BucketBlock(h, xs[i]), Open(PortfolioLiquidityBucket)) == 1 {
      BucketBlockFacts(h, xs[i]);
    }
    BlocksNamesOnly(h, xs, BucketBlock, BucketNames);
    BlocksCount(h, xs, BucketBlock, Open(PortfolioLiquidityBucket), 1);
  }

  lemma ToolBlocksFacts(h: Conversions, xs: seq<Types.LiquidityTool>)
    ensures NamesOnly(Blocks(h, xs, ToolBlock), ToolNames)
    ensures Count(Blocks(h, xs, ToolBlock), Open(LiquidityManagementTool)) == |xs|
  {
    forall i | 0 <= i < |xs| ensures NamesOnly(ToolBlock(h, xs[i]), ToolNames)
      && Count(ToolBlock(h, xs[i]), Open(LiquidityManagementTool)) == 1 {
      ToolBlockFacts(h, xs[i]);
    }
    BlocksNamesOnly(h, xs, ToolBlock, ToolNames);
    BlocksCount(h, xs, ToolBlock, Open(LiquidityManagementTool), 1);
  }

  // ---------------------------------------------------------------------------
  // Sections with blocks
  // ---------------------------------------------------------------------------

  lemma PrincipalHeadNamesOnly(id: Types.AifIdentification)
    ensures NamesOnly(PrincipalHead(id), SectionNames(7))
  {
  }

  lemma PrincipalTailNamesOnly(h: Conversions, r: Types.AnnexIVReport)
    ensures NamesOnly(PrincipalTail(h, r), SectionNames(7))
  {
  }

  lemma PrincipalNamesOnly(h: Conversions, r: Types.AnnexIVReport)
    ensures NamesOnly(PrincipalLines(h, r), SectionNames(7))
  {
    var xs := Take(r.principalExposures.assetBreakdown, 5);
    var head := PrincipalHead(r.aifIdentification);
    var b := Blocks(h, xs, AssetBlock);
    AssetBlocksFacts(h, xs);
    NamesOnlyWiden(b, AssetNames, SectionNames(7));
    PrincipalHeadNamesOnly(r.aifIdentification);
    PrincipalTailNamesOnly(h, r);
    NamesOnlyAppend(head, b, SectionNames(7));
    NamesOnlyAppend(head + b, PrincipalTail(h, r), SectionNames(7));
  }

  /** One instrument block per asset, for the first five assets. */
  lemma PrincipalAssetCount(h: Conversions, r: Types.AnnexIVReport)
    ensures Count(PrincipalLines(h, r), Open(MainInstrumentTraded)) == |Take(r.principalExposures.assetBreakdown, 5)|
  {
    var xs := Take(r.principalExposures.assetBreakdown, 5);
    AssetBlocksFacts(h, xs);
    CountBetween(PrincipalHead(r.aifIdentification), Blocks(h, xs, AssetBlock), PrincipalTail(h, r),
      Open(MainInstrumentTraded));
  }

  lemma MarketNamesOnly(h: Conversions, r: Types.AnnexIVReport)
    ensures NamesOnly(MarketLines(h, r), SectionNames(9))
  {
    var geo := r.geographicFocus;
    if |geo| > 0 {
      var xs := Take(geo, 5);
      var b := Blocks(h, xs, MarketBlock);
      MarketBlocksFacts(h, xs);
        NamesOnlyWiden(b, MarketBlockNames, SectionNames(9));
      NamesOnlyAppend([Open(AifmPrincipalMarkets)], b, SectionNames(9));
      NamesOnlyAppend([Open(AifmPrincipalMarkets)] + b, [Close(AifmPrincipalMarkets)], SectionNames(9));
      NamesOnlyAppend([Open(AifmPrincipalMarkets)] + b + [Close(AifmPrincipalMarkets)], [Close(AIFPrincipalInfo)], SectionNames(9));
    }
  }

  /** One market block per region, for the first five regions, inside a
      markets block that is present exactly when there is a region. */
  lemma MarketCount(h: Conversions, r: Types.AnnexIVReport)
    ensures Count(MarketLines(h, r), Open(AIFMPrincipalMarket)) == |Take(r.geographicFocus, 5)|
    ensures Open(AifmPrincipalMarkets) in MarketLines(h, r) <==> |r.geographicFocus| > 0
  {
    var geo := r.geographicFocus;
    var l := Open(AIFMPrincipalMarket);
    if |geo| > 0 {
      var xs := Take(geo, 5);
      MarketBlocksFacts(h, xs);
      var b := Blocks(h, xs, MarketBlock);
      assert MarketLines(h, r) == [Open(AifmPrincipalMarkets)] + b + [Close(AifmPrincipalMarkets), Close(AIFPrincipalInfo)];
      CountBetween([Open(AifmPrincipalMarkets)], b, [Close(AifmPrincipalMarkets), Close(AIFPrincipalInfo)], l);
    } else {
      CountZero([Close(AIFPrincipalInfo)], l);
    }
  }

  lemma ExposureNamesOnly(h: Conversions, r: Types.AnnexIVReport)
    ensures NamesOnly(ExposureLines(h, r), SectionNames(10))
  {
    var xs := Take(r.investorConcentration.byDomicile, 10);
    var head := [Open(AIFIndividualInfo), Open(IndividualExposure)];
    var b := Blocks(h, xs, InvestorBlock);
    InvestorBlocksFacts(h, xs);
    NamesOnlyWiden(b, InvestorNames, SectionNames(10));
    NamesOnlyAppend(head, b, SectionNames(10));
    NamesOnlyAppend(head + b, [Close(IndividualExposure)], SectionNames(10));
  }

  /** One breakdown per investor domicile, for the first ten. */
  lemma ExposureCount(h: Conversions, r: Types.AnnexIVReport)
    ensures Count(ExposureLines(h, r), Open(InvestorBreakdown)) == |Take(r.investorConcentration.byDomicile, 10)|
  {
    var xs := Take(r.investorConcentration.byDomicile, 10);
    InvestorBlocksFacts(h, xs);
    CountBetween([Open(AIFIndividualInfo), Open(IndividualExposure)], Blocks(h, xs, InvestorBlock),
      [Close(IndividualExposure)], Open(InvestorBreakdown));
  }

  /** Asset k of the first five is the k-th instrument block of the principal
      information, after its four opening lines. */
  lemma PrincipalAssetAt(h: Conversions, r: Types.AnnexIVReport, k: nat)
    requires k < 5 && k < |r.principalExposures.assetBreakdown|
    ensures var p := PrincipalLines(h, r);
      var at := 4 + 6 * k;
      at + 6 <= |p| && p[at..at + 6] == AssetBlock(h, r.principalExposures.assetBreakdown[k])
  {
    var xs := Take(r.principalExposures.assetBreakdown, 5);
    forall i | 0 <= i < |xs| ensures |AssetBlock(h, xs[i])| == 6 {
      AssetBlockFacts(h, xs[i]);
    }
    FramedBlockAt(PrincipalHead(r.aifIdentification), h, xs, AssetBlock, PrincipalTail(h, r), 6, k);
    assert xs[k] == r.principalExposures.assetBreakdown[k];
  }

  /** Region k of the first five is the k-th market block, after the line
      opening the markets. */
  lemma MarketAt(h: Conversions, r: Types.AnnexIVReport, k: nat)
    requires k < 5 && k < |r.geographicFocus|
    ensures var m := MarketLines(h, r);
      var at := 1 + 4 * k;
      at + 4 <= |m| && m[at..at + 4] == MarketBlock(h, r.geographicFocus[k])
  {
    var xs := Take(r.geographicFocus, 5);
    forall i | 0 <= i < |xs| ensures |MarketBlock(h, xs[i])| == 4 {
      MarketBlockFacts(h, xs[i]);
    }
    var b := Blocks(h, xs, MarketBlock);
    assert MarketLines(h, r) == [Open(AifmPrincipalMarkets)] + b + [Close(AifmPrincipalMarkets), Close(AIFPrincipalInfo)];
    FramedBlockAt([Open(AifmPrincipalMarkets)], h, xs, MarketBlock, [Close(AifmPrincipalMarkets), Close(AIFPrincipalInfo)], 4, k);
    assert xs[k] == r.geographicFocus[k];
  }

  /** Domicile k of the first ten is the k-th investor block, after the two
      lines opening the individual information. */
  lemma InvestorAt(h: Conversions, r: Types.AnnexIVReport, k: nat)
    requires k < 10 && k < |r.investorConcentration.byDomicile|
    ensures var e := ExposureLines(h, r);
      var at := 2 + 5 * k;
      at + 5 <= |e| && e[at..at + 5] == InvestorBlock(h, r.investorConcentration.byDomicile[k])
  {
    var xs := Take(r.investorConcentration.byDomicile, 10);
    forall i | 0 <= i < |xs| ensures |InvestorBlock(h, xs[i])| == 5 {
      InvestorBlockFacts(h, xs[i]);
    }
    FramedBlockAt([Open(AIFIndividualInfo), Open(IndividualExposure)], h, xs, InvestorBlock, [Close(IndividualExposure)], 5, k);
    assert xs[k] == r.investorConcentration.byDomicile[k];
  }

  lemma CounterpartyNamesOnly(h: Conversions, r: Types.AnnexIVReport)
    ensures NamesOnly(CounterpartyLines(h, r), SectionNames(11))
  {
    var cr := r.counterpartyRisk;
    var xs := cr.top5Counterparties;
    if |xs| > 0 {
      var head := [Open(CounterpartyRiskProfile), NumElem(TotalCounterpartyExposure, cr.totalCounterpartyCount)];
      var b := Blocks(h, xs, CounterpartyBlock);
      CounterpartyBlocksFacts(h, xs);
        NamesOnlyWiden(b, TopCounterpartyNames, SectionNames(11));
      NamesOnlyAppend(head, b, SectionNames(11));
      NamesOnlyAppend(head + b, [Close(CounterpartyRiskProfile)], SectionNames(11));
    }
  }

  /** Every counterparty gets a block, with no cap, inside a profile that is
      present exactly when there is a counterparty. */
  lemma CounterpartyCount(h: Conversions, r: Types.AnnexIVReport)
    ensures Count(CounterpartyLines(h, r), Open(TopCounterparty)) == |r.counterpartyRisk.top5Counterparties|
    ensures Open(CounterpartyRiskProfile) in CounterpartyLines(h, r) <==> |r.counterpartyRisk.top5Counterparties| > 0
  {
    var cr := r.counterpartyRisk;
    var xs := cr.top5Counterparties;
    if |xs| > 0 {
      CounterpartyBlocksFacts(h, xs);
      CountBetween([Open(CounterpartyRiskProfile), NumElem(TotalCounterpartyExposure, cr.totalCounterpartyCount)],
        Blocks(h, xs, CounterpartyBlock), [Close(CounterpartyRiskProfile)], Open(TopCounterparty));
    }
  }

  lemma ToolLinesFacts(h: Conversions, tools: seq<Types.LiquidityTool>)
    ensures NamesOnly(ToolLines(h, tools), ToolNames)
    ensures Count(ToolLines(h, tools), Open(LiquidityManagementTool)) == |tools|
    ensures Open(LiquidityManagementTools) in ToolLines(h, tools) <==> |tools| > 0
  {
    if |tools| > 0 {
      var b := Blocks(h, tools, ToolBlock);
      ToolBlocksFacts(h, tools);
      NamesOnlyAppend([Open(LiquidityManagementTools)], b, ToolNames);
      NamesOnlyAppend([Open(LiquidityManagementTools)] + b, [Close(LiquidityManagementTools)], ToolNames);
      CountBetween([Open(LiquidityManagementTools)], b, [Close(LiquidityManagementTools)], Open(LiquidityManagementTool));
    }
  }

  /** The liquidity section as its bucket blocks and its tools block, with
      what comes before, between and after them. */
  lemma LiquiditySplit(h: Conversions, r: Types.AnnexIVReport)
    ensures var liq := r.riskProfile.liquidity;
      var a := [Open(LiquidityProfile), Open(PortfolioLiquidityProfile)];
      var b := Blocks(h, liq.portfolioLiquidityProfile, BucketBlock);
      var c := InvestorLiquidityLines(liq);
      var t := ToolLines(h, liq.liquidityManagementTools);
      var z := [Close(LiquidityProfile)];
      && LiquidityLines(h, r) == a + b + c + t + z
      && LiquidityLines(h, r) == a + b + (c + t + z)
  {
    var liq := r.riskProfile.liquidity;
  }

  lemma InvestorLiquidityNamesOnly(liq: Types.Liquidity)
    ensures NamesOnly(InvestorLiquidityLines(liq), SectionNames(13))
  {
  }

  /** The liquidity lines before the tools only name liquidity elements. */
  lemma LiquidityHeadNamesOnly(h: Conversions, liq: Types.Liquidity)
    ensures NamesOnly([Open(LiquidityProfile), Open(PortfolioLiquidityProfile)]
      + Blocks(h, liq.portfolioLiquidityProfile, BucketBlock) + InvestorLiquidityLines(liq), SectionNames(13))
  {
    var s := SectionNames(13);
    var a := [Open(LiquidityProfile), Open(PortfolioLiquidityProfile)];
    var b := Blocks(h, liq.portfolioLiquidityProfile, BucketBlock);
    BucketBlocksFacts(h, liq.portfolioLiquidityProfile);
    NamesOnlyWiden(b, BucketNames, s);
    InvestorLiquidityNamesOnly(liq);
    NamesOnlyAppend(a, b, s);
    NamesOnlyAppend(a + b, InvestorLiquidityLines(liq), s);
  }

  lemma LiquidityNamesOnly(h: Conversions, r: Types.AnnexIVReport)
    ensures NamesOnly(LiquidityLines(h, r), SectionNames(13))
  {
    var s := SectionNames(13);
    var liq := r.riskProfile.liquidity;
    var head := [Open(LiquidityProfile), Open(PortfolioLiquidityProfile)]
      + Blocks(h, liq.portfolioLiquidityProfile, BucketBlock) + InvestorLiquidityLines(liq);
    var t := ToolLines(h, liq.liquidityManagementTools);
    LiquiditySplit(h, r);
    LiquidityHeadNamesOnly(h, liq);
    ToolLinesFacts(h, liq.liquidityManagementTools);
    NamesOnlyWiden(t, ToolNames, s);
    NamesOnlyAppend(head, t, s);
    NamesOnlyAppend(head + t, [Close(LiquidityProfile)], s);
  }


  lemma ToolLinesHaveNoBucket(h: Conversions, tools: seq<Types.LiquidityTool>)
    ensures Open(PortfolioLiquidityBucket) !in ToolLines(h, tools)
  {
    ToolLinesFacts(h, tools);
    NamesOnlyExcludes(ToolLines(h, tools), ToolNames, PortfolioLiquidityBucket, None);
  }

  lemma BucketsHaveNoTool(h: Conversions, xs: seq<Types.LiquidityBucket>)
    ensures Open(LiquidityManagementTool) !in Blocks(h, xs, BucketBlock)
    ensures Open(LiquidityManagementTools) !in Blocks(h, xs, BucketBlock)
  {
    BucketBlocksFacts(h, xs);
    NamesOnlyExcludes(Blocks(h, xs, BucketBlock), BucketNames, LiquidityManagementTool, None);
    NamesOnlyExcludes(Blocks(h, xs, BucketBlock), BucketNames, LiquidityManagementTools, None);
  }

  /** Every bucket of the portfolio liquidity profile gets a block. */
  lemma LiquidityBucketCount(h: Conversions, r: Types.AnnexIVReport)
    ensures Count(LiquidityLines(h, r), Open(PortfolioLiquidityBucket)) == |r.riskProfile.liquidity.portfolioLiquidityProfile|
  {
    var liq := r.riskProfile.liquidity;
    var b := Blocks(h, liq.portfolioLiquidityProfile, BucketBlock);
    var t := ToolLines(h, liq.liquidityManagementTools);
    LiquiditySplit(h, r);
    BucketBlocksFacts(h, liq.portfolioLiquidityProfile);
    ToolLinesHaveNoBucket(h, liq.liquidityManagementTools);
    CountBetween([Open(LiquidityProfile), Open(PortfolioLiquidityProfile)], b,
      InvestorLiquidityLines(liq) + t + [Close(LiquidityProfile)], Open(PortfolioLiquidityBucket));
  }

  /** Every liquidity management tool gets a block, inside a tools block that
      is present exactly when there is a tool. */
  lemma LiquidityToolCount(h: Conversions, r: Types.AnnexIVReport)
    ensures Count(LiquidityLines(h, r), Open(LiquidityManagementTool)) == |r.riskProfile.liquidity.liquidityManagementTools|
    ensures Open(LiquidityManagementTools) in LiquidityLines(h, r) <==> |r.riskProfile.liquidity.liquidityManagementTools| > 0
  {
    var liq := r.riskProfile.liquidity;
    var b := Blocks(h, liq.portfolioLiquidityProfile, BucketBlock);
    var t := ToolLines(h, liq.liquidityManagementTools);
    LiquiditySplit(h, r);
    ToolLinesFacts(h, liq.liquidityManagementTools);
    BucketsHaveNoTool(h, liq.portfolioLiquidityProfile);
    CountBetween([Open(LiquidityProfile), Open(PortfolioLiquidityProfile)] + b + InvestorLiquidityLines(liq), t,
      [Close(LiquidityProfile)], Open(LiquidityManagementTool));
  }

  // ---------------------------------------------------------------------------
  // Sections without blocks
  // ---------------------------------------------------------------------------

  lemma PrologueNamesOnly(h: Conversions, r: Types.AnnexIVReport)
    ensures NamesOnly(SingleFundPrologue(h, r), SectionNames(0))
  {
  }

  lemma ManagerHeadNamesOnly(h: Conversions, r: Types.AnnexIVReport)
    ensures NamesOnly(ManagerHead(h, r), SectionNames(1))
  {
  }

  lemma PeriodNamesOnly(h: Conversions, r: Types.AnnexIVReport)
    ensures NamesOnly(PeriodLines(h, r), SectionNames(2)) && NamesOnly(PeriodLines(h, r), SectionNames(5))
  {
  }

  lemma ManagerDescriptionNamesOnly(h: Conversions, r: Types.AnnexIVReport)
    ensures NamesOnly(ManagerDescription(h, r), SectionNames(3))
  {
    var id := r.aifIdentification;
    var d := ManagerDescription(h, r);
    var lei := if Truthy(id.aifmLei) then [RawElem(AIFMIdentifierLEI, id.aifmLei.value)] else [];
    assert d == d[..3] + lei + [d[|d| - 1]];
    assert NamesOnly(d[..3], SectionNames(3));
    NamesOnlyAppend(d[..3], lei, SectionNames(3));
    NamesOnlyAppend(d[..3] + lei, [d[|d| - 1]], SectionNames(3));
  }

  lemma FundHeadNamesOnly(h: Conversions, r: Types.AnnexIVReport)
    ensures NamesOnly(FundHead(h, r), SectionNames(4))
  {
  }

  lemma FundTailNamesOnly(h: Conversions, r: Types.AnnexIVReport)
    ensures NamesOnly(FundTail(h, r), SectionNames(6))
  {
  }

  lemma ConcentrationNamesOnly(h: Conversions, r: Types.AnnexIVReport)
    ensures NamesOnly(ConcentrationLines(h, r), SectionNames(8))
  {
  }

  lemma LimitNamesOnly(lev: Types.Leverage)
    ensures NamesOnly(LimitLines(lev), SectionNames(12))
  {
  }

  lemma LeverageNamesOnly(h: Conversions, r: Types.AnnexIVReport)
    ensures NamesOnly(LeverageLines(h, r), SectionNames(12))
  {
    var lev := r.leverage;
    var rates := [ Open(AIFLeverageInfo), Open(AIFLeverageArticle242), OptNumElem(GrossMethodRate, lev.grossMethod),
      OptNumElem(CommitmentMethodRate, lev.commitmentMethod), Close(AIFLeverageArticle242) ];
    assert NamesOnly(rates, SectionNames(12));
    LimitNamesOnly(lev);
    NamesOnlyAppend(rates, LimitLines(lev), SectionNames(12));
    NamesOnlyAppend(rates + LimitLines(lev), [Close(AIFLeverageInfo)], SectionNames(12));
  }

  lemma OperationalNamesOnly(h: Conversions, r: Types.AnnexIVReport)
    ensures NamesOnly(OperationalLines(h, r), SectionNames(14))
  {
  }

  lemma DepositaryNamesOnly(h: Conversions, r: Types.AnnexIVReport)
    ensures NamesOnly(DepositaryLines(h, r), SectionNames(15))
  {
  }

  lemma ComplianceNamesOnly(h: Conversions, r: Types.AnnexIVReport)
    ensures NamesOnly(ComplianceLines(h, r), SectionNames(16))
  {
  }

  lemma TrailerNamesOnly(h: Conversions, r: Types.AnnexIVReport)
    ensures NamesOnly(TrailerLines(h, r), SectionNames(17))
  {
  }

  // ---------------------------------------------------------------------------
  // Values and conditional lines of the sections
  // ---------------------------------------------------------------------------

  /** The manager's national code is its LEI, or PENDING. */
  lemma ManagerNationalCode(h: Conversions, r: Types.AnnexIVReport)
    ensures HasValue(ManagerHead(h, r), AIFMNationalCode, Some(Str(OrElse(r.aifIdentification.aifmLei, "PENDING"))))
  {
  }

  /** The manager's name, or "Not specified". */
  lemma ManagerName(h: Conversions, r: Types.AnnexIVReport)
    ensures HasValue(ManagerHead(h, r), AIFMName, Some(Str(OrElse(r.aifIdentification.aifmName, "Not specified"))))
  {
  }

  /** The manager's EEA flag says whether the fund's domicile is in the EEA. */
  lemma ManagerEeaFlag(h: Conversions, r: Types.AnnexIVReport)
    ensures HasValue(ManagerHead(h, r), AIFMEEAFlag, Some(Str(FlagText(h.isEea(r.aifIdentification.domicile)))))
  {
    var d, v := ManagerHead(h, r), Some(Str(FlagText(h.isEea(r.aifIdentification.domicile))));
    assert d[3] == Elem(AIFMEEAFlag, v);
    forall i | 0 <= i < |d| && d[i].Elem? && d[i].name == AIFMEEAFlag ensures d[i].value == v {
      assert i == 3;
    }
  }

  /** The manager's identifier is its LEI, or the fund's national code. */
  lemma ManagerIdentifier(h: Conversions, r: Types.AnnexIVReport)
    ensures var id := r.aifIdentification;
      HasValue(ManagerDescription(h, r), AIFMIdentifier, Some(Str(OrElse(id.aifmLei, id.aifNationalCode))))
  {
  }

  /** The manager's reporting code: member state, AIFM, national code. */
  lemma ManagerReportingCode(h: Conversions, r: Types.AnnexIVReport)
    ensures var id := r.aifIdentification;
      HasValue(ManagerDescription(h, r), AIFMReportingCode,
        Some(Str(ReportingCode(h.memberState(id.domicile), "AIFM", id.aifNationalCode))))
  {
  }

  /** The LEI line is written exactly when the manager has an LEI. */
  lemma ManagerLeiLine(h: Conversions, r: Types.AnnexIVReport)
    ensures var lei := r.aifIdentification.aifmLei;
      && (Truthy(lei) ==> RawElem(AIFMIdentifierLEI, lei.value) in ManagerDescription(h, r))
      && (!Truthy(lei) ==> forall t :: RawElem(AIFMIdentifierLEI, t) !in ManagerDescription(h, r))
  {
  }

  /** The quarter and the year of the period's end. */
  lemma PeriodValues(h: Conversions, r: Types.AnnexIVReport)
    ensures var p := r.aifIdentification.reportingPeriod;
      && HasValue(PeriodLines(h, r), ReportingPeriodType, Some(Str(PeriodType(p.endMonth))))
      && HasValue(PeriodLines(h, r), ReportingPeriodYear, Some(Str(IntToString(p.endYear))))
  {
  }

  /** The fund's EEA flag says whether its domicile is in the EEA. */
  lemma FundEeaFlag(h: Conversions, r: Types.AnnexIVReport)
    ensures HasValue(FundHead(h, r), AIFEEAFlag, Some(Str(FlagText(h.isEea(r.aifIdentification.domicile)))))
  {
    var d, v := FundHead(h, r), Some(Str(FlagText(h.isEea(r.aifIdentification.domicile))));
    assert d[3] == Elem(AIFEEAFlag, v);
    forall i | 0 <= i < |d| && d[i].Elem? && d[i].name == AIFEEAFlag ensures d[i].value == v {
      assert i == 3;
    }
  }

  /** The fund's reporting code: member state, AIF, national code. */
  lemma FundReportingCode(h: Conversions, r: Types.AnnexIVReport)
    ensures var id := r.aifIdentification;
      HasValue(FundHead(h, r), AIFReportingCode, Some(Str(ReportingCode(h.memberState(id.domicile), "AIF", id.aifNationalCode))))
  {
  }

  /** The inception date, null when none is given. */
  lemma FundInceptionDate(h: Conversions, r: Types.AnnexIVReport)
    ensures HasValue(FundHead(h, r), AIFInceptionDate, InceptionValue(r.aifIdentification.inceptionDate))
  {
  }

  /** The sub-asset type after the instruments falls back to OTHR_OTHR. */
  lemma SubAssetTypeFallback(h: Conversions, r: Types.AnnexIVReport)
    ensures r.subAssetType != "" ==> StrElem(SubAssetType, r.subAssetType) in PrincipalLines(h, r)
    ensures r.subAssetType == "" ==> StrElem(SubAssetType, "OTHR_OTHR") in PrincipalLines(h, r)
  {
    var a := PrincipalHead(r.aifIdentification) + Blocks(h, Take(r.principalExposures.assetBreakdown, 5), AssetBlock);
    var t := PrincipalTail(h, r);
    assert PrincipalLines(h, r) == a + t;
    assert t[2] == StrElem(SubAssetType, if r.subAssetType != "" then r.subAssetType else "OTHR_OTHR");
    assert (a + t)[|a| + 2] == t[2];
  }

  /** The depositary block is written exactly when the depositary has a name. */
  lemma DepositaryPresence(h: Conversions, r: Types.AnnexIVReport)
    ensures Open(AIFDepositaryInfo) in DepositaryLines(h, r) <==> Truthy(r.depositary.name)
  {
  }

  /** The depositary's country falls back to DE. */
  lemma DepositaryCountryValue(h: Conversions, r: Types.AnnexIVReport)
    ensures var dep := r.depositary;
      Truthy(dep.name) ==> HasValue(DepositaryLines(h, r), DepositaryCountry, Some(Str(OrElse(dep.jurisdiction, "DE"))))
  {
  }

  /** The depositary's LEI line is written only when it has a name and an LEI. */
  lemma DepositaryLeiLine(h: Conversions, r: Types.AnnexIVReport)
    ensures var dep := r.depositary;
      && (Truthy(dep.name) && Truthy(dep.lei) ==> StrElem(DepositaryLEI, dep.lei.value) in DepositaryLines(h, r))
      && (!(Truthy(dep.name) && Truthy(dep.lei)) ==> forall v :: Elem(DepositaryLEI, v) !in DepositaryLines(h, r))
  {
  }

  /** The limits block is written exactly when a limit is set; each limit line
      exactly when that limit is set, the commitment limit first. */
  lemma LimitFacts(h: Conversions, r: Types.AnnexIVReport)
    ensures var lev := r.leverage; var l := LeverageLines(h, r);
      && (Open(RegulatoryLeverageLimits) in l <==> lev.commitmentLimit.Some? || lev.grossLimit.Some?)
      && (lev.commitmentLimit.Some? ==> NumElem(CommitmentMethodLimit, lev.commitmentLimit.value) in l)
      && (lev.commitmentLimit.None? ==> forall v :: Elem(CommitmentMethodLimit, v) !in l)
      && (lev.grossLimit.Some? ==> NumElem(GrossMethodLimit, lev.grossLimit.value) in l)
      && (lev.grossLimit.None? ==> forall v :: Elem(GrossMethodLimit, v) !in l)
      && (lev.commitmentLimit.Some? && lev.grossLimit.Some? ==>
            Before(l, NumElem(CommitmentMethodLimit, lev.commitmentLimit.value), NumElem(GrossMethodLimit, lev.grossLimit.value)))
  {
    var lev := r.leverage;
    var l := LeverageLines(h, r);
    if lev.commitmentLimit.Some? && lev.grossLimit.Some? {
      assert l[6] == NumElem(CommitmentMethodLimit, lev.commitmentLimit.value);
      assert l[7] == NumElem(GrossMethodLimit, lev.grossLimit.value);
    }
  }

  // ---------------------------------------------------------------------------
  // The single-fund layout
  // ---------------------------------------------------------------------------

  lemma PrologueInLayout(h: Conversions, r: Types.AnnexIVReport)
    ensures SingleFundLayout[0](h, r) == SingleFundPrologue(h, r)
  {
  }

  lemma ManagerHeadInLayout(h: Conversions, r: Types.AnnexIVReport)
    ensures SingleFundLayout[1](h, r) == ManagerHead(h, r)
  {
  }

  /** The manager block and the fund block carry the same period lines. */
  lemma PeriodInLayout(h: Conversions, r: Types.AnnexIVReport)
    ensures SingleFundLayout[2](h, r) == PeriodLines(h, r)
    ensures SingleFundLayout[5](h, r) == PeriodLines(h, r)
  {
  }

  lemma ManagerDescriptionInLayout(h: Conversions, r: Types.AnnexIVReport)
    ensures SingleFundLayout[3](h, r) == ManagerDescription(h, r)
  {
  }

  lemma FundHeadInLayout(h: Conversions, r: Types.AnnexIVReport)
    ensures SingleFundLayout[4](h, r) == FundHead(h, r)
  {
  }

  lemma FundTailInLayout(h: Conversions, r: Types.AnnexIVReport)
    ensures SingleFundLayout[6](h, r) == FundTail(h, r)
  {
  }

  lemma PrincipalInLayout(h: Conversions, r: Types.AnnexIVReport)
    ensures SingleFundLayout[7](h, r) == PrincipalLines(h, r)
  {
  }

  lemma ConcentrationInLayout(h: Conversions, r: Types.AnnexIVReport)
    ensures SingleFundLayout[8](h, r) == ConcentrationLines(h, r)
  {
  }

  lemma MarketInLayout(h: Conversions, r: Types.AnnexIVReport)
    ensures SingleFundLayout[9](h, r) == MarketLines(h, r)
  {
  }

  lemma ExposureInLayout(h: Conversions, r: Types.AnnexIVReport)
    ensures SingleFundLayout[10](h, r) == ExposureLines(h, r)
  {
  }

  lemma CounterpartyInLayout(h: Conversions, r: Types.AnnexIVReport)
    ensures SingleFundLayout[11](h, r) == CounterpartyLines(h, r)
  {
  }

  lemma LeverageInLayout(h: Conversions, r: Types.AnnexIVReport)
    ensures SingleFundLayout[12](h, r) == LeverageLines(h, r)
  {
  }

  lemma LiquidityInLayout(h: Conversions, r: Types.AnnexIVReport)
    ensures SingleFundLayout[13](h, r) == LiquidityLines(h, r)
  {
  }

  lemma OperationalInLayout(h: Conversions, r: Types.AnnexIVReport)
    ensures SingleFundLayout[14](h, r) == OperationalLines(h, r)
  {
  }

  lemma DepositaryInLayout(h: Conversions, r: Types.AnnexIVReport)
    ensures SingleFundLayout[15](h, r) == DepositaryLines(h, r)
  {
  }

  lemma ComplianceInLayout(h: Conversions, r: Types.AnnexIVReport)
    ensures SingleFundLayout[16](h, r) == ComplianceLines(h, r)
  {
  }

  lemma TrailerInLayout(h: Conversions, r: Types.AnnexIVReport)
    ensures SingleFundLayout[17](h, r) == TrailerLines(h, r)
  {
  }

  /** The first k sections of the single-fund document. */
  function SingleFundUpTo(h: Conversions, r: Types.AnnexIVReport, k: nat): seq<Line>
    requires k <= |SingleFundLayout|
  {
    Concat(Sections(SingleFundLayout, h, r)[..k])
  }

  /** One more section of the single-fund document appends its lines. */
  lemma SingleFundNext(h: Conversions, r: Types.AnnexIVReport, k: nat)
    requires k < |SingleFundLayout|
    ensures SingleFundUpTo(h, r, k + 1) == SingleFundUpTo(h, r, k) + SingleFundLayout[k](h, r)
  {
    ConcatStep(Sections(SingleFundLayout, h, r), k);
  }

  lemma SingleFundUpTo1(h: Conversions, r: Types.AnnexIVReport)
    ensures SingleFundUpTo(h, r, 1) == SingleFundPrologue(h, r)
  {
    var ss := Sections(SingleFundLayout, h, r);
    assert ss[..0] == [];
    SingleFundNext(h, r, 0);
    PrologueInLayout(h, r);
    var p := SingleFundPrologue(h, r);
    assert [] + p == p;
  }

  lemma SingleFundUpTo6(h: Conversions, r: Types.AnnexIVReport)
    ensures SingleFundUpTo(h, r, 6) ==
      SingleFundPrologue(h, r) + ManagerHead(h, r) + PeriodLines(h, r) + ManagerDescription(h, r)
      + FundHead(h, r) + PeriodLines(h, r)
  {
    SingleFundUpTo1(h, r);
    ManagerHeadInLayout(h, r);
    SingleFundNext(h, r, 1);
    PeriodInLayout(h, r);
    SingleFundNext(h, r, 2);
    ManagerDescriptionInLayout(h, r);
    SingleFundNext(h, r, 3);
    FundHeadInLayout(h, r);
    SingleFundNext(h, r, 4);
    SingleFundNext(h, r, 5);
  }

  lemma SingleFundUpTo12(h: Conversions, r: Types.AnnexIVReport)
    ensures SingleFundUpTo(h, r, 12) ==
      SingleFundUpTo(h, r, 6) + FundTail(h, r) + PrincipalLines(h, r) + ConcentrationLines(h, r)
      + MarketLines(h, r) + ExposureLines(h, r) + CounterpartyLines(h, r)
  {
    FundTailInLayout(h, r);
    SingleFundNext(h, r, 6);
    PrincipalInLayout(h, r);
    SingleFundNext(h, r, 7);
    ConcentrationInLayout(h, r);
    SingleFundNext(h, r, 8);
    MarketInLayout(h, r);
    SingleFundNext(h, r, 9);
    ExposureInLayout(h, r);
    SingleFundNext(h, r, 10);
    CounterpartyInLayout(h, r);
    SingleFundNext(h, r, 11);
  }

  lemma SingleFundUpTo18(h: Conversions, r: Types.AnnexIVReport)
    ensures SingleFundUpTo(h, r, 18) ==
      SingleFundUpTo(h, r, 12) + LeverageLines(h, r) + LiquidityLines(h, r) + OperationalLines(h, r)
      + DepositaryLines(h, r) + ComplianceLines(h, r) + TrailerLines(h, r)
  {
    LeverageInLayout(h, r);
    SingleFundNext(h, r, 12);
    LiquidityInLayout(h, r);
    SingleFundNext(h, r, 13);
    OperationalInLayout(h, r);
    SingleFundNext(h, r, 14);
    DepositaryInLayout(h, r);
    SingleFundNext(h, r, 15);
    ComplianceInLayout(h, r);
    SingleFundNext(h, r, 16);
    TrailerInLayout(h, r);
    SingleFundNext(h, r, 17);
  }

  /** The single-fund document is its eighteen sections, one after the other. */
  lemma SingleFundSpelledOut(h: Conversions, r: Types.AnnexIVReport)
    ensures SingleFund(h, r) ==
      SingleFundPrologue(h, r) + ManagerHead(h, r) + PeriodLines(h, r) + ManagerDescription(h, r)
      + FundHead(h, r) + PeriodLines(h, r) + FundTail(h, r) + PrincipalLines(h, r)
      + ConcentrationLines(h, r) + MarketLines(h, r) + ExposureLines(h, r) + CounterpartyLines(h, r)
      + LeverageLines(h, r) + LiquidityLines(h, r) + OperationalLines(h, r) + DepositaryLines(h, r)
      + ComplianceLines(h, r) + TrailerLines(h, r)
  {
    SingleFundUpTo6(h, r);
    SingleFundUpTo12(h, r);
    SingleFundUpTo18(h, r);
    assert Sections(SingleFundLayout, h, r)[..18] == Sections(SingleFundLayout, h, r);
  }

  /** Section j of the single-fund document only names what section j writes. */
  lemma SectionNamesOnly(h: Conversions, r: Types.AnnexIVReport, j: nat)
    requires j < |SingleFundLayout|
    ensures NamesOnly(SingleFundLayout[j](h, r), SectionNames(j))
  {
    if j == 0 { PrologueInLayout(h, r); PrologueNamesOnly(h, r); }
    else if j == 1 { ManagerHeadInLayout(h, r); ManagerHeadNamesOnly(h, r); }
    else if j == 2 || j == 5 { PeriodInLayout(h, r); PeriodNamesOnly(h, r); }
    else if j == 3 { ManagerDescriptionInLayout(h, r); ManagerDescriptionNamesOnly(h, r); }
    else if j == 4 { FundHeadInLayout(h, r); FundHeadNamesOnly(h, r); }
    else if j == 6 { FundTailInLayout(h, r); FundTailNamesOnly(h, r); }
    else if j == 7 { PrincipalInLayout(h, r); PrincipalNamesOnly(h, r); }
    else if j == 8 { ConcentrationInLayout(h, r); ConcentrationNamesOnly(h, r); }
    else if j == 9 { MarketInLayout(h, r); MarketNamesOnly(h, r); }
    else if j == 10 { ExposureInLayout(h, r); ExposureNamesOnly(h, r); }
    else if j == 11 { CounterpartyInLayout(h, r); CounterpartyNamesOnly(h, r); }
    else if j == 12 { LeverageInLayout(h, r); LeverageNamesOnly(h, r); }
    else if j == 13 { LiquidityInLayout(h, r); LiquidityNamesOnly(h, r); }
    else if j == 14 { OperationalInLayout(h, r); OperationalNamesOnly(h, r); }
    else if j == 15 { DepositaryInLayout(h, r); DepositaryNamesOnly(h, r); }
    else if j == 16 { ComplianceInLayout(h, r); ComplianceNamesOnly(h, r); }
    else { TrailerInLayout(h, r); TrailerNamesOnly(h, r); }
  }

  lemma LayoutNamesOnly(h: Conversions, r: Types.AnnexIVReport)
    ensures forall j :: 0 <= j < |SingleFundLayout| ==> NamesOnly(Sections(SingleFundLayout, h, r)[j], SectionNames(j))
  {
    forall j | 0 <= j < |SingleFundLayout| ensures NamesOnly(Sections(SingleFundLayout, h, r)[j], SectionNames(j)) {
      SectionNamesOnly(h, r, j);
    }
  }

  /** A line whose element only section k writes occurs in the document as
      often as in section k. */
  lemma SingleFundLine(h: Conversions, r: Types.AnnexIVReport, k: nat, l: Line)
    requires k < |SingleFundLayout| && NameOf(l).Some? && OnlyIn(NameOf(l).value, k)
    ensures Count(SingleFund(h, r), l) == Count(SingleFundLayout[k](h, r), l)
    ensures l in SingleFund(h, r) <==> l in SingleFundLayout[k](h, r)
  {
    var ss := Sections(SingleFundLayout, h, r);
    LayoutNamesOnly(h, r);
    forall j | 0 <= j < |ss| && j != k ensures l !in ss[j] {
      NamesOnlyExcludes(ss[j], SectionNames(j), NameOf(l).value, None);
    }
    ConcatCount(ss, k, l);
    ConcatIn(ss, l);
  }

  /** When every section that writes element n gives it the value v, every
      element n of the document holds v. */
  lemma SingleFundValues(h: Conversions, r: Types.AnnexIVReport, n: Name, v: Option<Scalar>)
    requires forall j :: 0 <= j < |SingleFundLayout| && n in SectionNames(j) ==> ElemValues(SingleFundLayout[j](h, r), n, v)
    ensures ElemValues(SingleFund(h, r), n, v)
  {
    var ss := Sections(SingleFundLayout, h, r);
    LayoutNamesOnly(h, r);
    forall j | 0 <= j < |ss| ensures ElemValues(ss[j], n, v) {
      if n !in SectionNames(j) {
        NamesOnlyExcludes(ss[j], SectionNames(j), n, v);
      }
    }
    ConcatElemValues(ss, n, v);
  }

  /** A value the only section writing n gives it is the document's value of n. */
  lemma SingleFundHasValue(h: Conversions, r: Types.AnnexIVReport, k: nat, n: Name, v: Option<Scalar>)
    requires k < |SingleFundLayout| && OnlyIn(n, k) && HasValue(SingleFundLayout[k](h, r), n, v)
    ensures HasValue(SingleFund(h, r), n, v)
  {
    SingleFundValues(h, r, n, v);
    SingleFundLine(h, r, k, Elem(n, v));
  }

  /** Every line of a section is a line of the document. */
  lemma SingleFundHas(h: Conversions, r: Types.AnnexIVReport, k: nat, l: Line)
    requires k < |SingleFundLayout| && l in SingleFundLayout[k](h, r)
    ensures l in SingleFund(h, r)
  {
    var ss := Sections(SingleFundLayout, h, r);
    assert l in ss[k];
    ConcatIn(ss, l);
  }

  /** The sections are written in layout order: a line of an earlier section
      comes before a line of a later one. */
  lemma SingleFundOrder(h: Conversions, r: Types.AnnexIVReport, j: nat, k: nat, a: Line, b: Line)
    requires j < k < |SingleFundLayout| && a in SingleFundLayout[j](h, r) && b in SingleFundLayout[k](h, r)
    ensures Before(SingleFund(h, r), a, b)
  {
    var ss := Sections(SingleFundLayout, h, r);
    assert a in ss[j] && b in ss[k];
    ConcatBeforeAcross(ss, j, k, a, b);
  }

  /** Two lines in order in section k are in that order in the document. */
  lemma SingleFundBefore(h: Conversions, r: Types.AnnexIVReport, k: nat, a: Line, b: Line)
    requires k < |SingleFundLayout| && Before(SingleFundLayout[k](h, r), a, b)
    ensures Before(SingleFund(h, r), a, b)
  {
    var ss := Sections(SingleFundLayout, h, r);
    assert ss[k] == SingleFundLayout[k](h, r);
    ConcatBefore(ss, k, a, b);
  }

  /** The w lines at x in section j are the w lines at x after the section's
      start in the document. */
  lemma SingleFundRun(h: Conversions, r: Types.AnnexIVReport, j: nat, x: nat, w: nat, run: seq<Line>)
    requires j < |SingleFundLayout| && x + w <= |SingleFundLayout[j](h, r)|
    requires SingleFundLayout[j](h, r)[x..x + w] == run
    ensures var at := |SingleFundUpTo(h, r, j)| + x; var d := SingleFund(h, r);
      at + w <= |d| && d[at..at + w] == run
  {
    var ss := Sections(SingleFundLayout, h, r);
    assert ss[j] == SingleFundLayout[j](h, r);
    ConcatSliceAt(ss, j, x, w);
    assert |SingleFundUpTo(h, r, j)| == |Concat(ss[..j])|;
    assert SingleFund(h, r) == Concat(ss);
  }
}
