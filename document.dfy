/** The line lists the two serializers of src/serializer.ts build.

    The serializers call the conversions of src/helpers (member state, EEA
    test, frequency, fund type, depositary type, asset type, country code,
    investor-type share). The layout is written over a record `Conversions`
    of those functions; `Annex` is the record of the real ones, and the
    serializers produce `SingleFund(Annex, r)` and `Aggregate(Annex, reports)`.
    What the layout guarantees holds for every choice of conversions, and so
    in particular for `Annex`. */
module Document {
  import opened Wrappers
  import opened Text
  import opened XmlUtils
  import opened Lines
  import Eea
  import EsmaCodes
  import Types

  // ---------------------------------------------------------------------------
  // The conversions the serializers call
  // ---------------------------------------------------------------------------

  datatype Conversions = Conversions(
    memberState: string -> string,
    isEea: string -> bool,
    frequency: string -> string,
    predominantType: (string, Option<string>) -> string,
    depositaryType: Option<string> -> string,
    assetType: string -> string,
    countryCode: string -> string,
    typePct: (seq<Types.InvestorTypeShare>, string) -> int)

  /** The conversions of src/helpers/eea.ts and src/helpers/esma-codes.ts. */
  const Annex: Conversions := Conversions(
    Eea.MapDomicileToMemberState,
    Eea.IsEEADomicile,
    EsmaCodes.MapReportingObligationToFrequencyCode,
    EsmaCodes.MapToPredominantAIFType,
    EsmaCodes.MapDepositaryType,
    EsmaCodes.MapAssetType,
    Eea.ToISOCountryCode,
    EsmaCodes.GetTypePct)

  // ---------------------------------------------------------------------------
  // Values computed from the report
  // ---------------------------------------------------------------------------

  /** `Math.ceil(month / 3)`: the quarter of a month. */
  function QuarterOf(month: Types.Month): (q: nat)
    ensures 1 <= q <= 4
    ensures 3 * (q - 1) < month <= 3 * q
  {
    (month + 2) / 3
  }

  /** `Q${quarter}`. */
  function PeriodType(month: Types.Month): (t: string)
    ensures t == "Q1" || t == "Q2" || t == "Q3" || t == "Q4"
    ensures |t| == 2 && t[0] == 'Q' && t[1] as int - '0' as int == QuarterOf(month)
  {
    "Q" + [DigitChar(QuarterOf(month))]
  }

  /** memberState + marker + the national code's first eight characters in
      upper case. */
  function ReportingCode(memberState: string, marker: string, nationalCode: string): (c: string)
    ensures |c| == |memberState| + |marker| + (if |nationalCode| < 8 then |nationalCode| else 8)
    ensures c[..|memberState| + |marker|] == memberState + marker
    ensures forall i :: |memberState| + |marker| <= i < |c| ==>
      c[i] == UpperChar(nationalCode[i - |memberState| - |marker|])
  {
    memberState + marker + Upper(Take(nationalCode, 8))
  }

  /** "true" or "false", as the flags are written. */
  function FlagText(b: bool): (t: string)
    ensures t == "true" <==> b
    ensures t == "false" <==> !b
  {
    if b then "true" else "false"
  }

  /** The inception date element's value: null when no date is given. */
  function InceptionValue(d: Option<string>): (v: Option<Scalar>)
    ensures v.None? <==> !Truthy(d)
  {
    if Truthy(d) then Some(Str(d.value)) else None
  }

  // ---------------------------------------------------------------------------
  // Sections of the single-fund document
  // ---------------------------------------------------------------------------

  /** The XML declaration and the root start tag with its attributes; the
      single-fund document names the schema location, the aggregate does not. */
  function Prologue(memberState: string, withSchemaLocation: bool): seq<Line>
  {
    [Declaration, RootStart, Namespace, SchemaInstanceNamespace]
    + (if withSchemaLocation then [SchemaLocation] else [])
    + [MemberStateAttribute(memberState)]
  }

  /** The prologue of the single-fund document. */
  function SingleFundPrologue(h: Conversions, r: Types.AnnexIVReport): seq<Line>
  {
    Prologue(h.memberState(r.aifIdentification.domicile), true)
  }

  /** The reporting period's quarter and year, written the same way in the
      manager block and in the fund block. */
  function PeriodLines(h: Conversions, r: Types.AnnexIVReport): seq<Line>
  {
    var p := r.aifIdentification.reportingPeriod;
    [ StrElem(ReportingPeriodType, PeriodType(p.endMonth)),
      StrElem(ReportingPeriodYear, IntToString(p.endYear)) ]
  }

  /** The manager record opens: national code (the LEI, or PENDING), name
      (or "Not specified") and the two flags. */
  function ManagerHead(h: Conversions, r: Types.AnnexIVReport): seq<Line>
  {
    var id := r.aifIdentification;
    [ Open(AIFMRecordInfo),
      StrElem(AIFMNationalCode, OrElse(id.aifmLei, "PENDING")),
      StrElem(AIFMName, OrElse(id.aifmName, "Not specified")),
      StrElem(AIFMEEAFlag, FlagText(h.isEea(id.domicile))),
      StrElem(AIFMNoReportingFlag, "false") ]
  }

  /** The frequency code, then the manager description up to the reporting
      code; the LEI line only when the manager has an LEI. */
  function ManagerDescription(h: Conversions, r: Types.AnnexIVReport): seq<Line>
  {
    var id := r.aifIdentification;
    [ StrElem(AIFMReportingObligationChangeFrequencyCode, h.frequency(id.reportingObligation)),
      Open(AIFMCompleteDescription),
      StrElem(AIFMIdentifier, OrElse(id.aifmLei, id.aifNationalCode)) ]
    + (if Truthy(id.aifmLei) then [RawElem(AIFMIdentifierLEI, id.aifmLei.value)] else [])
    + [StrElem(AIFMReportingCode, ReportingCode(h.memberState(id.domicile), "AIFM", id.aifNationalCode))]
  }

  /** The fund record opens: codes, name, EEA flag, domicile and inception date. */
  function FundHead(h: Conversions, r: Types.AnnexIVReport): seq<Line>
  {
    var id := r.aifIdentification;
    [ Open(AIFRecordInfo),
      StrElem(AIFNationalCode, id.aifNationalCode),
      StrElem(AIFName, id.aifName),
      StrElem(AIFEEAFlag, FlagText(h.isEea(id.domicile))),
      StrElem(AIFReportingCode, ReportingCode(h.memberState(id.domicile), "AIF", id.aifNationalCode)),
      StrElem(AIFDomicile, id.domicile),
      Elem(AIFInceptionDate, InceptionValue(id.inceptionDate)) ]
  }

  /** The period dates, the master-feeder status and the base currency. */
  function FundTail(h: Conversions, r: Types.AnnexIVReport): seq<Line>
  {
    var id := r.aifIdentification;
    [ StrElem(ReportingPeriodStartDate, id.reportingPeriod.start),
      StrElem(ReportingPeriodEndDate, id.reportingPeriod.end),
      StrElem(AIFMasterFeederStatus, "NONE"),
      StrElem(AIFBaseCurrencyDescription, id.baseCurrency) ]
  }

  /** One traded instrument. */
  function AssetBlock(h: Conversions, a: Types.Asset): seq<Line>
  {
    [ Open(MainInstrumentTraded),
      StrElem(SubAssetType, h.assetType(a.assetType)),
      StrElem(InstrumentName, a.assetName),
      NumElem(PositionValue, a.valueEur),
      NumElem(PositionRate, a.percentageOfTotal),
      Close(MainInstrumentTraded) ]
  }

  /** The principal information opens; the instruments list opens. */
  function PrincipalHead(id: Types.AifIdentification): seq<Line>
  {
    [ Open(AIFCompleteDescription),
      Open(AIFPrincipalInfo),
      StrElem(AIFIdentification, id.aifNationalCode),
      Open(MainInstrumentsTraded) ]
  }

  /** After the instruments: the fund type, the sub-asset type (OTHR_OTHR when
      the report has none), the asset values and the base currency. */
  function PrincipalTail(h: Conversions, r: Types.AnnexIVReport): seq<Line>
  {
    var id := r.aifIdentification;
    var pe := r.principalExposures;
    [ Close(MainInstrumentsTraded),
      StrElem(PredominantAIFType, h.predominantType(id.aifType, Some(id.aifName))),
      StrElem(SubAssetType, if r.subAssetType != "" then r.subAssetType else "OTHR_OTHR"),
      NavComment,
      NumElem(NetAssetValue, pe.totalNavEur),
      NumElem(GrossAssetValue, pe.totalAumEur),
      StrElem(BaseCurrencyDescription, id.baseCurrency) ]
  }

  /** The principal information up to the base currency: at most five assets. */
  function PrincipalLines(h: Conversions, r: Types.AnnexIVReport): seq<Line>
  {
    PrincipalHead(r.aifIdentification)
    + Blocks(h, Take(r.principalExposures.assetBreakdown, 5), AssetBlock)
    + PrincipalTail(h, r)
  }

  /** The professional and retail shares and the top-five share. */
  function ConcentrationLines(h: Conversions, r: Types.AnnexIVReport): seq<Line>
  {
    var ic := r.investorConcentration;
    [ Open(InvestorConcentration),
      NumElem(ProfessionalInvestorConcentrationRate, h.typePct(ic.byType, "professional")),
      NumElem(RetailInvestorConcentrationRate, h.typePct(ic.byType, "retail")),
      NumElem(TopFiveBeneficialOwnersRate, ic.top5InvestorsPct),
      Close(InvestorConcentration) ]
  }

  /** One principal market, identified by its country code. */
  function MarketBlock(h: Conversions, g: Types.GeographicExposure): seq<Line>
  {
    [ Open(AIFMPrincipalMarket),
      StrElem(MarketIdentification, h.countryCode(g.region)),
      NumElem(AggregateValueAmount, g.pct),
      Close(AIFMPrincipalMarket) ]
  }

  /** The principal markets, only when there is a geographic focus; at most
      five. The principal information closes after them. */
  function MarketLines(h: Conversions, r: Types.AnnexIVReport): seq<Line>
  {
    var geo := r.geographicFocus;
    (if |geo| > 0 then [Open(AifmPrincipalMarkets)] + Blocks(h, Take(geo, 5), MarketBlock) + [Close(AifmPrincipalMarkets)]
     else [])
    + [Close(AIFPrincipalInfo)]
  }

  /** One investor domicile. */
  function InvestorBlock(h: Conversions, d: Types.DomicileShare): seq<Line>
  {
    [ Open(InvestorBreakdown),
      StrElem(InvestorCountry, d.domicile),
      NumElem(InvestorCount, d.count),
      NumElem(InvestorPercentage, d.percentageOfNav),
      Close(InvestorBreakdown) ]
  }

  /** The individual information opens with at most ten investor domiciles. */
  function ExposureLines(h: Conversions, r: Types.AnnexIVReport): seq<Line>
  {
    [Open(AIFIndividualInfo), Open(IndividualExposure)]
    + Blocks(h, Take(r.investorConcentration.byDomicile, 10), InvestorBlock)
    + [Close(IndividualExposure)]
  }

  /** A counterparty; its LEI only when it has one. */
  function CounterpartyBlock(h: Conversions, c: Types.Counterparty): seq<Line>
  {
    [Open(TopCounterparty), StrElem(CounterpartyName, c.name)]
    + (if Truthy(c.lei) then [StrElem(CounterpartyLEI, c.lei.value)] else [])
    + [NumElem(ExposureRate, c.exposurePct), Close(TopCounterparty)]
  }

  /** The counterparty profile, only when there is a counterparty; all of them. */
  function CounterpartyLines(h: Conversions, r: Types.AnnexIVReport): seq<Line>
  {
    var cr := r.counterpartyRisk;
    if |cr.top5Counterparties| > 0 then
      [Open(CounterpartyRiskProfile), NumElem(TotalCounterpartyExposure, cr.totalCounterpartyCount)]
      + Blocks(h, cr.top5Counterparties, CounterpartyBlock)
      + [Close(CounterpartyRiskProfile)]
    else []
  }

  /** The limits block, present when either limit is set: commitment limit
      before gross limit, each only when set, then the compliance flag. */
  function LimitLines(lev: Types.Leverage): seq<Line>
  {
    if lev.grossLimit.Some? || lev.commitmentLimit.Some? then
      [Open(RegulatoryLeverageLimits)]
      + (if lev.commitmentLimit.Some? then [NumElem(CommitmentMethodLimit, lev.commitmentLimit.value)] else [])
      + (if lev.grossLimit.Some? then [NumElem(GrossMethodLimit, lev.grossLimit.value)] else [])
      + [Elem(LeverageCompliant, Some(Bool(lev.leverageCompliant))), Close(RegulatoryLeverageLimits)]
    else []
  }

  /** Leverage: both rates (null when unknown), then the limits. */
  function LeverageLines(h: Conversions, r: Types.AnnexIVReport): seq<Line>
  {
    var lev := r.leverage;
    [ Open(AIFLeverageInfo),
      Open(AIFLeverageArticle242),
      OptNumElem(GrossMethodRate, lev.grossMethod),
      OptNumElem(CommitmentMethodRate, lev.commitmentMethod),
      Close(AIFLeverageArticle242) ]
    + LimitLines(lev)
    + [Close(AIFLeverageInfo)]
  }

  /** One bucket of the portfolio liquidity profile. */
  function BucketBlock(h: Conversions, b: Types.LiquidityBucket): seq<Line>
  {
    [ Open(PortfolioLiquidityBucket),
      StrElem(BucketPeriod, b.bucket),
      NumElem(BucketRate, b.pct),
      Close(PortfolioLiquidityBucket) ]
  }

  /** One liquidity management tool. */
  function ToolBlock(h: Conversions, t: Types.LiquidityTool): seq<Line>
  {
    [ Open(LiquidityManagementTool),
      StrElem(LMTType, t.toolType),
      Elem(LMTActive, Some(Bool(t.active))),
      StrElem(LMTDescription, t.description),
      Close(LiquidityManagementTool) ]
  }

  /** The tools block, only when there is a tool; all of them. */
  function ToolLines(h: Conversions, tools: seq<Types.LiquidityTool>): seq<Line>
  {
    if |tools| > 0 then
      [Open(LiquidityManagementTools)] + Blocks(h, tools, ToolBlock) + [Close(LiquidityManagementTools)]
    else []
  }

  /** The portfolio profile closes; the investor profile holds the redemption
      frequency. */
  function InvestorLiquidityLines(liq: Types.Liquidity): seq<Line>
  {
    [ Close(PortfolioLiquidityProfile), Open(InvestorLiquidityProfile),
      StrElem(InvestorRedemptionFrequency, liq.investorRedemptionFrequency), Close(InvestorLiquidityProfile) ]
  }

  /** Liquidity: every bucket, the redemption frequency, then the tools. */
  function LiquidityLines(h: Conversions, r: Types.AnnexIVReport): seq<Line>
  {
    var liq := r.riskProfile.liquidity;
    [Open(LiquidityProfile), Open(PortfolioLiquidityProfile)]
    + Blocks(h, liq.portfolioLiquidityProfile, BucketBlock)
    + InvestorLiquidityLines(liq)
    + ToolLines(h, liq.liquidityManagementTools)
    + [Close(LiquidityProfile)]
  }

  /** Operational risk; the individual information and the fund description
      close after it. */
  function OperationalLines(h: Conversions, r: Types.AnnexIVReport): seq<Line>
  {
    var op := r.riskProfile.operational;
    [ Open(OperationalRisk),
      NumElem(TotalOpenRiskFlags, op.totalOpenRiskFlags),
      NumElem(HighSeverityFlags, op.highSeverityFlags),
      Close(OperationalRisk),
      Close(AIFIndividualInfo),
      Close(AIFCompleteDescription) ]
  }

  /** The depositary, only when it has a name; its LEI only when it has one;
      its country DE when none is given. */
  function DepositaryLines(h: Conversions, r: Types.AnnexIVReport): seq<Line>
  {
    var dep := r.depositary;
    if Truthy(dep.name) then
      [Open(AIFDepositaryInfo), StrElem(DepositaryName, dep.name.value)]
      + (if Truthy(dep.lei) then [StrElem(DepositaryLEI, dep.lei.value)] else [])
      + [ StrElem(DepositaryCountry, OrElse(dep.jurisdiction, "DE")),
          StrElem(DepositaryType, h.depositaryType(dep.depositaryType)),
          Close(AIFDepositaryInfo) ]
    else []
  }

  /** The compliance extension. */
  function ComplianceLines(h: Conversions, r: Types.AnnexIVReport): seq<Line>
  {
    var cs := r.complianceStatus;
    [ Open(CaelithComplianceExtension),
      NumElem(KYCCoveragePct, cs.kycCoveragePct),
      NumElem(EligibleInvestorPct, cs.eligibleInvestorPct),
      NumElem(RecentViolations, cs.recentViolations),
      StrElem(LastComplianceCheck, cs.lastComplianceCheck),
      Close(CaelithComplianceExtension) ]
  }

  /** The closing lines of the single-fund document. */
  function TrailerLines(h: Conversions, r: Types.AnnexIVReport): seq<Line>
  {
    [ StrElem(GeneratedAt, r.generatedAt),
      StrElem(ReportVersion, r.reportVersion),
      Close(AIFRecordInfo),
      Close(AIFMCompleteDescription),
      Close(AIFMRecordInfo),
      StrElem(Disclaimer, r.disclaimer),
      Close(AIFReportingInfo) ]
  }

  // ---------------------------------------------------------------------------
  // The two documents
  // ---------------------------------------------------------------------------

  /** A section of the single-fund document: its lines for a report. */
  type Section = (Conversions, Types.AnnexIVReport) -> seq<Line>

  /** The sections of the single-fund document, in the order they are pushed. */
  const SingleFundLayout: seq<Section> := [
    SingleFundPrologue, ManagerHead, PeriodLines, ManagerDescription, FundHead, PeriodLines, FundTail,
    PrincipalLines, ConcentrationLines, MarketLines, ExposureLines, CounterpartyLines, LeverageLines,
    LiquidityLines, OperationalLines, DepositaryLines, ComplianceLines, TrailerLines ]

  /** The lines of each section of a layout. */
  function Sections(layout: seq<Section>, h: Conversions, r: Types.AnnexIVReport): (ss: seq<seq<Line>>)
    ensures |ss| == |layout|
    ensures forall j :: 0 <= j < |layout| ==> ss[j] == layout[j](h, r)
  {
    seq(|layout|, j requires 0 <= j < |layout| => layout[j](h, r))
  }

  /** Everything the single-fund serializer pushes, in order. */
  function SingleFund(h: Conversions, r: Types.AnnexIVReport): seq<Line>
  {
    Concat(Sections(SingleFundLayout, h, r))
  }

  /** One fund of the aggregate: a comment with its name, then its name and code. */
  function FundEntry(h: Conversions, r: Types.AnnexIVReport): seq<Line>
  {
    var id := r.aifIdentification;
    [FundComment(id.aifName), StrElem(AIFRecordInfoFundName, id.aifName), StrElem(AIFRecordInfoFundCode, id.aifNationalCode)]
  }

  /** The closing lines of the aggregate, with the given disclaimer. */
  function AggregateTrailer(disclaimer: string): seq<Line>
  {
    [Close(AIFMCompleteDescription), Close(AIFMRecordInfo), StrElem(Disclaimer, disclaimer), Close(AIFReportingInfo)]
  }

  /** A section of the aggregate document: its lines for the first report
      and the whole list. */
  type AggregateSection = (Conversions, Types.AnnexIVReport, seq<Types.AnnexIVReport>) -> seq<Line>

  /** The sections of the aggregate, in the order they are pushed: the
      manager block of the first report, one entry per report, the first
      report's disclaimer. */
  const AggregateLayout: seq<AggregateSection> := [
    (h: Conversions, first: Types.AnnexIVReport, reports) =>
      Prologue(h.memberState(first.aifIdentification.domicile), false),
    (h, first, reports) => ManagerHead(h, first),
    (h, first, reports) => PeriodLines(h, first),
    (h, first, reports) => ManagerDescription(h, first),
    (h, first, reports) => Blocks(h, reports, FundEntry),
    (h, first: Types.AnnexIVReport, reports) => AggregateTrailer(first.disclaimer) ]

  /** The lines of each section of the aggregate of a non-empty list. */
  function AggregateSections(h: Conversions, reports: seq<Types.AnnexIVReport>): (ss: seq<seq<Line>>)
    requires |reports| > 0
    ensures |ss| == |AggregateLayout|
    ensures forall j :: 0 <= j < |AggregateLayout| ==> ss[j] == AggregateLayout[j](h, reports[0], reports)
  {
    seq(|AggregateLayout|, j requires 0 <= j < |AggregateLayout| => AggregateLayout[j](h, reports[0], reports))
  }

  /** Everything the aggregate serializer pushes for a non-empty list. */
  function Aggregate(h: Conversions, reports: seq<Types.AnnexIVReport>): seq<Line>
    requires |reports| > 0
  {
    Concat(AggregateSections(h, reports))
  }
}
