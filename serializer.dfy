/** The two serializers of src/serializer.ts. Each pushes rendered lines onto
    a list, one `lines.push` at a time, and joins the list with newlines.
    Every push method states the text it adds as the rendering of the
    matching part of `SingleFund` or `Aggregate`. What is proved about those
    documents therefore holds for the text the serializers return. */
module Serializer {
  import opened Wrappers
  import opened Text
  import opened XmlUtils
  import opened Lines
  import opened Document
  import opened DocumentFacts
  import opened SingleFundFacts
  import opened AggregateFacts
  import Types

  // ---------------------------------------------------------------------------
  // Pushing lines
  // ---------------------------------------------------------------------------

  /** A run of `lines.push` calls: each line is rendered and appended in turn. */
  method PushLines(lines: seq<string>, ls: seq<Line>) returns (out: seq<string>)
    ensures out == lines + RenderAll(ls)
  {
    out := lines;
    for i := 0 to |ls|
      invariant out == lines + RenderAll(ls[..i])
    {
      RenderAllSnoc(ls, i);
      out := out + [Render(ls[i])];
    }
    assert ls[..|ls|] == ls;
  }

  /** A `for (const x of xs)` loop whose body pushes the block `f(h, x)`. */
  method PushBlocks<T>(h: Conversions, lines: seq<string>, xs: seq<T>, f: (Conversions, T) -> seq<Line>) returns (out: seq<string>)
    ensures out == lines + RenderAll(Blocks(h, xs, f))
  {
    out := lines;
    for i := 0 to |xs|
      invariant out == lines + RenderAll(Blocks(h, xs[..i], f))
    {
      ghost var done := Blocks(h, xs[..i], f);
      out := PushLines(out, f(h, xs[i]));
      Then(lines, done, f(h, xs[i]));
      BlocksSnoc(h, xs, f, i);
    }
    assert xs[..|xs|] == xs;
  }

  /** Appending two runs of lines renders as the two renderings appended. */
  lemma Then(lines: seq<string>, a: seq<Line>, b: seq<Line>)
    ensures lines + RenderAll(a) + RenderAll(b) == lines + RenderAll(a + b)
  {
    RenderAllAppend(a, b);
  }

  // ---------------------------------------------------------------------------
  // Sections with a condition or a loop
  // ---------------------------------------------------------------------------

  /** The frequency code and the manager description; the LEI line is pushed
      only when the manager has a non-empty LEI. */
  method PushManagerDescription(h: Conversions, lines: seq<string>, r: Types.AnnexIVReport) returns (out: seq<string>)
    ensures out == lines + RenderAll(ManagerDescription(h, r))
  {
    var id := r.aifIdentification;
    var head := [ StrElem(AIFMReportingObligationChangeFrequencyCode, h.frequency(id.reportingObligation)),
                  Open(AIFMCompleteDescription),
                  StrElem(AIFMIdentifier, OrElse(id.aifmLei, id.aifNationalCode)) ];
    var lei: seq<Line> := if Truthy(id.aifmLei) then [RawElem(AIFMIdentifierLEI, id.aifmLei.value)] else [];
    var code := [StrElem(AIFMReportingCode, ReportingCode(h.memberState(id.domicile), "AIFM", id.aifNationalCode))];
    out := PushLines(lines, head);
    if Truthy(id.aifmLei) {
      out := PushLines(out, lei);
    }
    Then(lines, head, lei);
    out := PushLines(out, code);
    Then(lines, head + lei, code);
  }

  /** The principal information: at most five traded instruments between the
      head and the tail. */
  method PushPrincipal(h: Conversions, lines: seq<string>, r: Types.AnnexIVReport) returns (out: seq<string>)
    ensures out == lines + RenderAll(PrincipalLines(h, r))
  {
    var head := PrincipalHead(r.aifIdentification);
    out := PushLines(lines, head);
    var assets := Blocks(h, Take(r.principalExposures.assetBreakdown, 5), AssetBlock);
    out := PushBlocks(h, out, Take(r.principalExposures.assetBreakdown, 5), AssetBlock);
    Then(lines, head, assets);
    out := PushLines(out, PrincipalTail(h, r));
    Then(lines, head + assets, PrincipalTail(h, r));
  }

  /** The principal markets, only when there is a geographic focus, at most
      five; then the principal information closes. */
  method PushMarkets(h: Conversions, lines: seq<string>, r: Types.AnnexIVReport) returns (out: seq<string>)
    ensures out == lines + RenderAll(MarketLines(h, r))
  {
    var geo := r.geographicFocus;
    ghost var markets: seq<Line> := [];
    out := lines;
    if |geo| > 0 {
      out := PushLines(out, [Open(AifmPrincipalMarkets)]);
      out := PushBlocks(h, out, Take(geo, 5), MarketBlock);
      Then(lines, [Open(AifmPrincipalMarkets)], Blocks(h, Take(geo, 5), MarketBlock));
      out := PushLines(out, [Close(AifmPrincipalMarkets)]);
      markets := [Open(AifmPrincipalMarkets)] + Blocks(h, Take(geo, 5), MarketBlock) + [Close(AifmPrincipalMarkets)];
      Then(lines, [Open(AifmPrincipalMarkets)] + Blocks(h, Take(geo, 5), MarketBlock), [Close(AifmPrincipalMarkets)]);
    }
    out := PushLines(out, [Close(AIFPrincipalInfo)]);
    Then(lines, markets, [Close(AIFPrincipalInfo)]);
  }

  /** The individual information opens with at most ten investor domiciles. */
  method PushExposure(h: Conversions, lines: seq<string>, r: Types.AnnexIVReport) returns (out: seq<string>)
    ensures out == lines + RenderAll(ExposureLines(h, r))
  {
    var head := [Open(AIFIndividualInfo), Open(IndividualExposure)];
    var investors := Blocks(h, Take(r.investorConcentration.byDomicile, 10), InvestorBlock);
    out := PushLines(lines, head);
    out := PushBlocks(h, out, Take(r.investorConcentration.byDomicile, 10), InvestorBlock);
    Then(lines, head, investors);
    out := PushLines(out, [Close(IndividualExposure)]);
    Then(lines, head + investors, [Close(IndividualExposure)]);
  }

  /** One counterparty; its LEI line only when it has a non-empty LEI. */
  method PushCounterparty(h: Conversions, lines: seq<string>, c: Types.Counterparty) returns (out: seq<string>)
    ensures out == lines + RenderAll(CounterpartyBlock(h, c))
  {
    var head := [Open(TopCounterparty), StrElem(CounterpartyName, c.name)];
    var lei: seq<Line> := if Truthy(c.lei) then [StrElem(CounterpartyLEI, c.lei.value)] else [];
    var tail := [NumElem(ExposureRate, c.exposurePct), Close(TopCounterparty)];
    out := PushLines(lines, head);
    if Truthy(c.lei) {
      out := PushLines(out, lei);
    }
    Then(lines, head, lei);
    out := PushLines(out, tail);
    Then(lines, head + lei, tail);
  }

  /** The loop over every counterparty, in order. */
  method PushCounterpartyBlocks(h: Conversions, lines: seq<string>, cps: seq<Types.Counterparty>) returns (out: seq<string>)
    ensures out == lines + RenderAll(Blocks(h, cps, CounterpartyBlock))
  {
    out := lines;
    for i := 0 to |cps|
      invariant out == lines + RenderAll(Blocks(h, cps[..i], CounterpartyBlock))
    {
      ghost var done := Blocks(h, cps[..i], CounterpartyBlock);
      out := PushCounterparty(h, out, cps[i]);
      Then(lines, done, CounterpartyBlock(h, cps[i]));
      BlocksSnoc(h, cps, CounterpartyBlock, i);
    }
    assert cps[..|cps|] == cps;
  }

  /** The counterparty profile, only when there is a counterparty, with every
      counterparty in order. */
  method PushCounterparties(h: Conversions, lines: seq<string>, r: Types.AnnexIVReport) returns (out: seq<string>)
    ensures out == lines + RenderAll(CounterpartyLines(h, r))
  {
    var cr := r.counterpartyRisk;
    out := lines;
    if |cr.top5Counterparties| > 0 {
      var head := [Open(CounterpartyRiskProfile), NumElem(TotalCounterpartyExposure, cr.totalCounterpartyCount)];
      var blocks := Blocks(h, cr.top5Counterparties, CounterpartyBlock);
      out := PushLines(out, head);
      out := PushCounterpartyBlocks(h, out, cr.top5Counterparties);
      Then(lines, head, blocks);
      out := PushLines(out, [Close(CounterpartyRiskProfile)]);
      Then(lines, head + blocks, [Close(CounterpartyRiskProfile)]);
    }
  }

  /** The limits block when either limit is set: the commitment limit, then
      the gross limit, each only when set, then the compliance flag. */
  method PushLimits(h: Conversions, lines: seq<string>, lev: Types.Leverage) returns (out: seq<string>)
    ensures out == lines + RenderAll(LimitLines(lev))
  {
    out := lines;
    if lev.grossLimit.Some? || lev.commitmentLimit.Some? {
      var commitment: seq<Line> := if lev.commitmentLimit.Some? then [NumElem(CommitmentMethodLimit, lev.commitmentLimit.value)] else [];
      var gross: seq<Line> := if lev.grossLimit.Some? then [NumElem(GrossMethodLimit, lev.grossLimit.value)] else [];
      var tail := [Elem(LeverageCompliant, Some(Bool(lev.leverageCompliant))), Close(RegulatoryLeverageLimits)];
      out := PushLines(out, [Open(RegulatoryLeverageLimits)]);
      if lev.commitmentLimit.Some? {
        out := PushLines(out, commitment);
      }
      Then(lines, [Open(RegulatoryLeverageLimits)], commitment);
      if lev.grossLimit.Some? {
        out := PushLines(out, gross);
      }
      Then(lines, [Open(RegulatoryLeverageLimits)] + commitment, gross);
      out := PushLines(out, tail);
      Then(lines, [Open(RegulatoryLeverageLimits)] + commitment + gross, tail);
    }
  }

  /** Leverage: both rates, then the limits, then the leverage block closes. */
  method PushLeverage(h: Conversions, lines: seq<string>, r: Types.AnnexIVReport) returns (out: seq<string>)
    ensures out == lines + RenderAll(LeverageLines(h, r))
  {
    var lev := r.leverage;
    var head := [ Open(AIFLeverageInfo), Open(AIFLeverageArticle242),
                  OptNumElem(GrossMethodRate, lev.grossMethod),
                  OptNumElem(CommitmentMethodRate, lev.commitmentMethod),
                  Close(AIFLeverageArticle242) ];
    out := PushLines(lines, head);
    out := PushLimits(h, out, lev);
    Then(lines, head, LimitLines(lev));
    out := PushLines(out, [Close(AIFLeverageInfo)]);
    Then(lines, head + LimitLines(lev), [Close(AIFLeverageInfo)]);
  }

  /** The tools block, only when there is a tool, with every tool in order. */
  method PushTools(h: Conversions, lines: seq<string>, tools: seq<Types.LiquidityTool>) returns (out: seq<string>)
    ensures out == lines + RenderAll(ToolLines(h, tools))
  {
    out := lines;
    if |tools| > 0 {
      out := PushLines(out, [Open(LiquidityManagementTools)]);
      out := PushBlocks(h, out, tools, ToolBlock);
      Then(lines, [Open(LiquidityManagementTools)], Blocks(h, tools, ToolBlock));
      out := PushLines(out, [Close(LiquidityManagementTools)]);
      Then(lines, [Open(LiquidityManagementTools)] + Blocks(h, tools, ToolBlock), [Close(LiquidityManagementTools)]);
    }
  }

  /** Liquidity: the buckets (under a length test that changes nothing, as in
      the source), the redemption frequency, the tools. */
  method PushLiquidity(h: Conversions, lines: seq<string>, r: Types.AnnexIVReport) returns (out: seq<string>)
    ensures out == lines + RenderAll(LiquidityLines(h, r))
  {
    var liq := r.riskProfile.liquidity;
    var head := [Open(LiquidityProfile), Open(PortfolioLiquidityProfile)];
    var buckets := Blocks(h, liq.portfolioLiquidityProfile, BucketBlock);
    out := PushLines(lines, head);
    if |liq.portfolioLiquidityProfile| > 0 {
      out := PushBlocks(h, out, liq.portfolioLiquidityProfile, BucketBlock);
    }
    Then(lines, head, buckets);
    out := PushLines(out, InvestorLiquidityLines(liq));
    Then(lines, head + buckets, InvestorLiquidityLines(liq));
    out := PushTools(h, out, liq.liquidityManagementTools);
    Then(lines, head + buckets + InvestorLiquidityLines(liq), ToolLines(h, liq.liquidityManagementTools));
    out := PushLines(out, [Close(LiquidityProfile)]);
    Then(lines, head + buckets + InvestorLiquidityLines(liq) + ToolLines(h, liq.liquidityManagementTools), [Close(LiquidityProfile)]);
  }

  /** The depositary, only when it has a non-empty name; its LEI line only
      when it has a non-empty LEI. */
  method PushDepositary(h: Conversions, lines: seq<string>, r: Types.AnnexIVReport) returns (out: seq<string>)
    ensures out == lines + RenderAll(DepositaryLines(h, r))
  {
    var dep := r.depositary;
    out := lines;
    if Truthy(dep.name) {
      var head := [Open(AIFDepositaryInfo), StrElem(DepositaryName, dep.name.value)];
      var lei: seq<Line> := if Truthy(dep.lei) then [StrElem(DepositaryLEI, dep.lei.value)] else [];
      var tail := [ StrElem(DepositaryCountry, OrElse(dep.jurisdiction, "DE")),
                    StrElem(DepositaryType, h.depositaryType(dep.depositaryType)),
                    Close(AIFDepositaryInfo) ];
      out := PushLines(out, head);
      if Truthy(dep.lei) {
        out := PushLines(out, lei);
      }
      Then(lines, head, lei);
      out := PushLines(out, tail);
      Then(lines, head + lei, tail);
    }
  }

  // ---------------------------------------------------------------------------
  // The two serializers
  // ---------------------------------------------------------------------------

  lemma DeclarationText()
    ensures Render(Declaration) == "<?xml version=\"1.0\" encoding=\"UTF-8\"?>"
  {
  }

  lemma RootEndText()
    ensures Render(Close(AIFReportingInfo)) == "</AIFReportingInfo>"
  {
  }

  /** The XML text of a document that opens with the declaration starts with it. */
  lemma JoinedStart(lines: seq<string>, doc: seq<Line>)
    requires lines == RenderAll(doc)
    requires |doc| > 0 && doc[0] == Declaration
    ensures "<?xml version=\"1.0\" encoding=\"UTF-8\"?>" <= Join(lines, "\n")
  {
    RenderAllAt(doc, 0);
    DeclarationText();
  }

  /** The XML text of a document that ends by closing the root ends with the
      root's end tag. */
  lemma JoinedEnd(lines: seq<string>, doc: seq<Line>)
    requires lines == RenderAll(doc)
    requires |doc| > 0 && doc[|doc| - 1] == Close(AIFReportingInfo)
    ensures var xml := Join(lines, "\n");
      |xml| >= 19 && xml[|xml| - 19..] == "</AIFReportingInfo>"
  {
    JoinEndsWithLast(lines, "\n");
    RenderAllAt(doc, |doc| - 1);
    RootEndText();
  }

  /** Every line of a document appears, rendered, in its XML text. */
  lemma LineInText(doc: seq<Line>, l: Line)
    requires l in doc
    ensures Contains(Join(RenderAll(doc), "\n"), Render(l))
  {
    var k :| 0 <= k < |doc| && doc[k] == l;
    RenderAllAt(doc, k);
    JoinContainsPart(RenderAll(doc), "\n", k);
  }

  /** Every line of the single-fund document, pushed section by section in
      the order of the source. */
  method PushSingleFund(h: Conversions, r: Types.AnnexIVReport) returns (lines: seq<string>)
    ensures lines == RenderAll(SingleFund(h, r))
  {
    lines := PushLines([], SingleFundPrologue(h, r));
    ghost var doc := SingleFundPrologue(h, r);
    assert [] + RenderAll(doc) == RenderAll(doc);
    lines := PushLines(lines, ManagerHead(h, r));
    RenderAllAppend(doc, ManagerHead(h, r));
    doc := doc + ManagerHead(h, r);
    lines := PushLines(lines, PeriodLines(h, r));
    RenderAllAppend(doc, PeriodLines(h, r));
    doc := doc + PeriodLines(h, r);
    lines := PushManagerDescription(h, lines, r);
    RenderAllAppend(doc, ManagerDescription(h, r));
    doc := doc + ManagerDescription(h, r);
    lines := PushLines(lines, FundHead(h, r));
    RenderAllAppend(doc, FundHead(h, r));
    doc := doc + FundHead(h, r);
    lines := PushLines(lines, PeriodLines(h, r));
    RenderAllAppend(doc, PeriodLines(h, r));
    doc := doc + PeriodLines(h, r);
    lines := PushLines(lines, FundTail(h, r));
    RenderAllAppend(doc, FundTail(h, r));
    doc := doc + FundTail(h, r);
    lines := PushPrincipal(h, lines, r);
    RenderAllAppend(doc, PrincipalLines(h, r));
    doc := doc + PrincipalLines(h, r);
    lines := PushLines(lines, ConcentrationLines(h, r));
    RenderAllAppend(doc, ConcentrationLines(h, r));
    doc := doc + ConcentrationLines(h, r);
    lines := PushMarkets(h, lines, r);
    RenderAllAppend(doc, MarketLines(h, r));
    doc := doc + MarketLines(h, r);
    lines := PushExposure(h, lines, r);
    RenderAllAppend(doc, ExposureLines(h, r));
    doc := doc + ExposureLines(h, r);
    lines := PushCounterparties(h, lines, r);
    RenderAllAppend(doc, CounterpartyLines(h, r));
    doc := doc + CounterpartyLines(h, r);
    lines := PushLeverage(h, lines, r);
    RenderAllAppend(doc, LeverageLines(h, r));
    doc := doc + LeverageLines(h, r);
    lines := PushLiquidity(h, lines, r);
    RenderAllAppend(doc, LiquidityLines(h, r));
    doc := doc + LiquidityLines(h, r);
    lines := PushLines(lines, OperationalLines(h, r));
    RenderAllAppend(doc, OperationalLines(h, r));
    doc := doc + OperationalLines(h, r);
    lines := PushDepositary(h, lines, r);
    RenderAllAppend(doc, DepositaryLines(h, r));
    doc := doc + DepositaryLines(h, r);
    lines := PushLines(lines, ComplianceLines(h, r));
    RenderAllAppend(doc, ComplianceLines(h, r));
    doc := doc + ComplianceLines(h, r);
    lines := PushLines(lines, TrailerLines(h, r));
    RenderAllAppend(doc, TrailerLines(h, r));
    doc := doc + TrailerLines(h, r);
    SingleFundSpelledOut(h, r);
  }

  /** `serializeAnnexIVToXml`: the single-fund document joined with newlines.
      It opens with the XML declaration and ends with the root's end tag. */
  method SerializeAnnexIVToXml(r: Types.AnnexIVReport) returns (xml: string)
    ensures xml == Join(RenderAll(SingleFund(Annex, r)), "\n")
    ensures "<?xml version=\"1.0\" encoding=\"UTF-8\"?>" <= xml
    ensures |xml| >= 19 && xml[|xml| - 19..] == "</AIFReportingInfo>"
  {
    var lines := PushSingleFund(Annex, r);
    xml := Join(lines, "\n");
    SingleFundEnds(Annex, r);
    JoinedStart(lines, SingleFund(Annex, r));
    JoinedEnd(lines, SingleFund(Annex, r));
  }

  /** Every line of the aggregate document: the first report's manager
      lines, one entry per report in order, then the closing lines. */
  method PushAggregate(h: Conversions, reports: seq<Types.AnnexIVReport>) returns (lines: seq<string>)
    requires |reports| > 0
    ensures lines == RenderAll(Aggregate(h, reports))
  {
    var first := reports[0];
    var prologue := Prologue(h.memberState(first.aifIdentification.domicile), false);
    lines := PushLines([], prologue);
    ghost var doc := prologue;
    assert [] + RenderAll(doc) == RenderAll(doc);
    lines := PushLines(lines, ManagerHead(h, first));
    RenderAllAppend(doc, ManagerHead(h, first));
    doc := doc + ManagerHead(h, first);
    lines := PushLines(lines, PeriodLines(h, first));
    RenderAllAppend(doc, PeriodLines(h, first));
    doc := doc + PeriodLines(h, first);
    lines := PushManagerDescription(h, lines, first);
    RenderAllAppend(doc, ManagerDescription(h, first));
    doc := doc + ManagerDescription(h, first);
    lines := PushBlocks(h, lines, reports, FundEntry);
    RenderAllAppend(doc, Blocks(h, reports, FundEntry));
    doc := doc + Blocks(h, reports, FundEntry);
    lines := PushLines(lines, AggregateTrailer(first.disclaimer));
    RenderAllAppend(doc, AggregateTrailer(first.disclaimer));
    doc := doc + AggregateTrailer(first.disclaimer);
    AggregateSpelledOut(h, reports);
  }

  /** `serializeAggregateAnnexIVToXml`: the empty string for no report;
      otherwise the aggregate document joined with newlines, which opens with
      the XML declaration and ends with the root's end tag. */
  method SerializeAggregateAnnexIVToXml(reports: seq<Types.AnnexIVReport>) returns (xml: string)
    ensures |reports| == 0 ==> xml == ""
    ensures |reports| > 0 ==> xml == Join(RenderAll(Aggregate(Annex, reports)), "\n")
    ensures |reports| > 0 ==> "<?xml version=\"1.0\" encoding=\"UTF-8\"?>" <= xml
    ensures |reports| > 0 ==> |xml| >= 19 && xml[|xml| - 19..] == "</AIFReportingInfo>"
  {
    if |reports| == 0 {
      return "";
    }
    var lines := PushAggregate(Annex, reports);
    xml := Join(lines, "\n");
    AggregateEnds(Annex, reports);
    JoinedStart(lines, Aggregate(Annex, reports));
    JoinedEnd(lines, Aggregate(Annex, reports));
  }
}
