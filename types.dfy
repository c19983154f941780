/** The Annex IV report record (src/types.ts). Nullable fields are `Option`s;
    numbers are integers. The reporting period carries, beside its two date
    strings, the calendar year and month of its end date. */
module Types {
  import opened Wrappers

  /** A calendar month, January = 1. */
  type Month = m: int | 1 <= m <= 12 witness 1

  datatype ReportingPeriod = ReportingPeriod(
    start: string,
    end: string,
    endYear: int,
    endMonth: Month)

  datatype AifIdentification = AifIdentification(
    reportingPeriod: ReportingPeriod,
    aifName: string,
    aifNationalCode: string,
    aifType: string,
    domicile: string,
    inceptionDate: Option<string>,
    aifmName: Option<string>,
    aifmLei: Option<string>,
    reportingObligation: string,
    baseCurrency: string)

  datatype InvestorTypeShare = InvestorTypeShare(investorType: string, count: int, percentageOfNav: int)

  datatype DomicileShare = DomicileShare(domicile: string, count: int, percentageOfNav: int)

  /** `beneficial_owners_concentration.top_5_investors_pct` is held directly. */
  datatype InvestorConcentration = InvestorConcentration(
    totalInvestors: int,
    byType: seq<InvestorTypeShare>,
    byDomicile: seq<DomicileShare>,
    top5InvestorsPct: int)

  datatype Asset = Asset(
    assetName: string,
    assetType: string,
    units: int,
    valueEur: int,
    percentageOfTotal: int)

  datatype PrincipalExposures = PrincipalExposures(
    totalAumUnits: int,
    totalAllocatedUnits: int,
    totalAumEur: int,
    totalNavEur: int,
    utilizationPct: int,
    assetBreakdown: seq<Asset>)

  datatype Depositary = Depositary(
    name: Option<string>,
    lei: Option<string>,
    jurisdiction: Option<string>,
    depositaryType: Option<string>)

  datatype Leverage = Leverage(
    commitmentMethod: Option<int>,
    grossMethod: Option<int>,
    commitmentLimit: Option<int>,
    grossLimit: Option<int>,
    leverageCompliant: bool)

  datatype LiquidityBucket = LiquidityBucket(bucket: string, pct: int)

  datatype LiquidityTool = LiquidityTool(
    toolType: string,
    description: string,
    thresholdPct: Option<int>,
    active: bool)

  datatype Liquidity = Liquidity(
    investorRedemptionFrequency: string,
    portfolioLiquidityProfile: seq<LiquidityBucket>,
    liquidityManagementTools: seq<LiquidityTool>)

  datatype Operational = Operational(totalOpenRiskFlags: int, highSeverityFlags: int)

  datatype RiskProfile = RiskProfile(liquidity: Liquidity, operational: Operational)

  datatype GeographicExposure = GeographicExposure(region: string, pct: int)

  datatype Counterparty = Counterparty(name: string, lei: Option<string>, exposurePct: int)

  datatype CounterpartyRisk = CounterpartyRisk(
    top5Counterparties: seq<Counterparty>,
    totalCounterpartyCount: int)

  datatype ComplianceStatus = ComplianceStatus(
    kycCoveragePct: int,
    eligibleInvestorPct: int,
    recentViolations: int,
    lastComplianceCheck: string)

  datatype AnnexIVReport = AnnexIVReport(
    aifIdentification: AifIdentification,
    investorConcentration: InvestorConcentration,
    principalExposures: PrincipalExposures,
    depositary: Depositary,
    subAssetType: string,
    leverage: Leverage,
    riskProfile: RiskProfile,
    geographicFocus: seq<GeographicExposure>,
    counterpartyRisk: CounterpartyRisk,
    complianceStatus: ComplianceStatus,
    generatedAt: string,
    reportVersion: string,
    disclaimer: string)
}
