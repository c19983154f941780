/** The lines of an Annex IV XML document (src/serializer.ts). Each line is
    kept as a structured record (which element, with which value) and is
    turned into text by `Render`, the `tag` call the serializer makes when it
    pushes the line. Leading indentation is not modelled. */
module Lines {
  import opened Wrappers
  import opened XmlUtils

  // ---------------------------------------------------------------------------
  // Element names and lines
  // ---------------------------------------------------------------------------

  /** The element names the serializers write. */
  datatype Name =
    | AIFReportingInfo | AIFMRecordInfo | AIFMNationalCode | AIFMName | AIFMEEAFlag
    | AIFMNoReportingFlag | ReportingPeriodType | ReportingPeriodYear
    | AIFMReportingObligationChangeFrequencyCode | AIFMCompleteDescription | AIFMIdentifier
    | AIFMIdentifierLEI | AIFMReportingCode
    | AIFRecordInfo | AIFNationalCode | AIFName | AIFEEAFlag | AIFReportingCode | AIFDomicile
    | AIFInceptionDate | ReportingPeriodStartDate | ReportingPeriodEndDate | AIFMasterFeederStatus
    | AIFBaseCurrencyDescription
    | AIFCompleteDescription | AIFPrincipalInfo | AIFIdentification | MainInstrumentsTraded
    | MainInstrumentTraded | SubAssetType | InstrumentName | PositionValue | PositionRate
    | PredominantAIFType | NetAssetValue | GrossAssetValue | BaseCurrencyDescription
    | InvestorConcentration | ProfessionalInvestorConcentrationRate | RetailInvestorConcentrationRate
    | TopFiveBeneficialOwnersRate
    | AifmPrincipalMarkets | AIFMPrincipalMarket | MarketIdentification | AggregateValueAmount
    | AIFIndividualInfo | IndividualExposure | InvestorBreakdown | InvestorCountry | InvestorCount
    | InvestorPercentage
    | CounterpartyRiskProfile | TotalCounterpartyExposure | TopCounterparty | CounterpartyName
    | CounterpartyLEI | ExposureRate
    | AIFLeverageInfo | AIFLeverageArticle242 | GrossMethodRate | CommitmentMethodRate
    | RegulatoryLeverageLimits | CommitmentMethodLimit | GrossMethodLimit | LeverageCompliant
    | LiquidityProfile | PortfolioLiquidityProfile | PortfolioLiquidityBucket | BucketPeriod | BucketRate
    | InvestorLiquidityProfile | InvestorRedemptionFrequency | LiquidityManagementTools
    | LiquidityManagementTool | LMTType | LMTActive | LMTDescription
    | OperationalRisk | TotalOpenRiskFlags | HighSeverityFlags
    | AIFDepositaryInfo | DepositaryName | DepositaryLEI | DepositaryCountry | DepositaryType
    | CaelithComplianceExtension | KYCCoveragePct | EligibleInvestorPct | RecentViolations
    | LastComplianceCheck
    | GeneratedAt | ReportVersion | Disclaimer
    | AIFRecordInfoFundName | AIFRecordInfoFundCode

  /** The text of an element name. */
  function NameText(n: Name): string
  {
    match n
    case AIFReportingInfo => "AIFReportingInfo"
    case AIFMRecordInfo => "AIFMRecordInfo"
    case AIFMNationalCode => "AIFMNationalCode"
    case AIFMName => "AIFMName"
    case AIFMEEAFlag => "AIFMEEAFlag"
    case AIFMNoReportingFlag => "AIFMNoReportingFlag"
    case ReportingPeriodType => "ReportingPeriodType"
    case ReportingPeriodYear => "ReportingPeriodYear"
    case AIFMReportingObligationChangeFrequencyCode => "AIFMReportingObligationChangeFrequencyCode"
    case AIFMCompleteDescription => "AIFMCompleteDescription"
    case AIFMIdentifier => "AIFMIdentifier"
    case AIFMIdentifierLEI => "AIFMIdentifierLEI"
    case AIFMReportingCode => "AIFMReportingCode"
    case AIFRecordInfo => "AIFRecordInfo"
    case AIFNationalCode => "AIFNationalCode"
    case AIFName => "AIFName"
    case AIFEEAFlag => "AIFEEAFlag"
    case AIFReportingCode => "AIFReportingCode"
    case AIFDomicile => "AIFDomicile"
    case AIFInceptionDate => "AIFInceptionDate"
    case ReportingPeriodStartDate => "ReportingPeriodStartDate"
    case ReportingPeriodEndDate => "ReportingPeriodEndDate"
    case AIFMasterFeederStatus => "AIFMasterFeederStatus"
    case AIFBaseCurrencyDescription => "AIFBaseCurrencyDescription"
    case AIFCompleteDescription => "AIFCompleteDescription"
    case AIFPrincipalInfo => "AIFPrincipalInfo"
    case AIFIdentification => "AIFIdentification"
    case MainInstrumentsTraded => "MainInstrumentsTraded"
    case MainInstrumentTraded => "MainInstrumentTraded"
    case SubAssetType => "SubAssetType"
    case InstrumentName => "InstrumentName"
    case PositionValue => "PositionValue"
    case PositionRate => "PositionRate"
    case PredominantAIFType => "PredominantAIFType"
    case NetAssetValue => "NetAssetValue"
    case GrossAssetValue => "GrossAssetValue"
    case BaseCurrencyDescription => "BaseCurrencyDescription"
    case InvestorConcentration => "InvestorConcentration"
    case ProfessionalInvestorConcentrationRate => "ProfessionalInvestorConcentrationRate"
    case RetailInvestorConcentrationRate => "RetailInvestorConcentrationRate"
    case TopFiveBeneficialOwnersRate => "TopFiveBeneficialOwnersRate"
    case AifmPrincipalMarkets => "AifmPrincipalMarkets"
    case AIFMPrincipalMarket => "AIFMPrincipalMarket"
    case MarketIdentification => "MarketIdentification"
    case AggregateValueAmount => "AggregateValueAmount"
    case AIFIndividualInfo => "AIFIndividualInfo"
    case IndividualExposure => "IndividualExposure"
    case InvestorBreakdown => "InvestorBreakdown"
    case InvestorCountry => "InvestorCountry"
    case InvestorCount => "InvestorCount"
    case InvestorPercentage => "InvestorPercentage"
    case CounterpartyRiskProfile => "CounterpartyRiskProfile"
    case TotalCounterpartyExposure => "TotalCounterpartyExposure"
    case TopCounterparty => "TopCounterparty"
    case CounterpartyName => "CounterpartyName"
    case CounterpartyLEI => "CounterpartyLEI"
    case ExposureRate => "ExposureRate"
    case AIFLeverageInfo => "AIFLeverageInfo"
    case AIFLeverageArticle242 => "AIFLeverageArticle242"
    case GrossMethodRate => "GrossMethodRate"
    case CommitmentMethodRate => "CommitmentMethodRate"
    case RegulatoryLeverageLimits => "RegulatoryLeverageLimits"
    case CommitmentMethodLimit => "CommitmentMethodLimit"
    case GrossMethodLimit => "GrossMethodLimit"
    case LeverageCompliant => "LeverageCompliant"
    case LiquidityProfile => "LiquidityProfile"
    case PortfolioLiquidityProfile => "PortfolioLiquidityProfile"
    case PortfolioLiquidityBucket => "PortfolioLiquidityBucket"
    case BucketPeriod => "BucketPeriod"
    case BucketRate => "BucketRate"
    case InvestorLiquidityProfile => "InvestorLiquidityProfile"
    case InvestorRedemptionFrequency => "InvestorRedemptionFrequency"
    case LiquidityManagementTools => "LiquidityManagementTools"
    case LiquidityManagementTool => "LiquidityManagementTool"
    case LMTType => "LMTType"
    case LMTActive => "LMTActive"
    case LMTDescription => "LMTDescription"
    case OperationalRisk => "OperationalRisk"
    case TotalOpenRiskFlags => "TotalOpenRiskFlags"
    case HighSeverityFlags => "HighSeverityFlags"
    case AIFDepositaryInfo => "AIFDepositaryInfo"
    case DepositaryName => "DepositaryName"
    case DepositaryLEI => "DepositaryLEI"
    case DepositaryCountry => "DepositaryCountry"
    case DepositaryType => "DepositaryType"
    case CaelithComplianceExtension => "CaelithComplianceExtension"
    case KYCCoveragePct => "KYCCoveragePct"
    case EligibleInvestorPct => "EligibleInvestorPct"
    case RecentViolations => "RecentViolations"
    case LastComplianceCheck => "LastComplianceCheck"
    case GeneratedAt => "GeneratedAt"
    case ReportVersion => "ReportVersion"
    case Disclaimer => "Disclaimer"
    case AIFRecordInfoFundName => "AIFRecordInfo_FundName"
    case AIFRecordInfoFundCode => "AIFRecordInfo_FundCode"
  }

  /** One pushed line. The root start tag is spread over several lines
      (name, namespace attributes, member-state attribute). `RawElem` is an
      element written out by hand rather than through `tag`. */
  datatype Line =
    | Declaration
    | RootStart
    | Namespace
    | SchemaInstanceNamespace
    | SchemaLocation
    | MemberStateAttribute(memberState: string)
    | Open(name: Name)
    | Close(name: Name)
    | Elem(name: Name, value: Option<Scalar>)
    | RawElem(name: Name, text: string)
    | NavComment
    | FundComment(fundName: string)

  /** The text of a line. */
  function Render(l: Line): string
  {
    match l
    case Declaration => "<?xml version=\"1.0\" encoding=\"UTF-8\"?>"
    case RootStart => "<AIFReportingInfo"
    case Namespace => "xmlns=\"urn:esma:xsd:aifmd-reporting\""
    case SchemaInstanceNamespace => "xmlns:xsi=\"http://www.w3.org/2001/XMLSchema-instance\""
    case SchemaLocation => "xsi:schemaLocation=\"urn:esma:xsd:aifmd-reporting AIFMD_Reporting_DataTypes.xsd\""
    case MemberStateAttribute(ms) => "ReportingMemberState=\"" + EscapeXml(ms) + "\">"
    case Open(n) => "<" + NameText(n) + ">"
    case Close(n) => "</" + NameText(n) + ">"
    case Elem(n, v) => Tag(NameText(n), v, None)
    case RawElem(n, t) => "<" + NameText(n) + ">" + EscapeXml(t) + "</" + NameText(n) + ">"
    case NavComment => "<!-- NAV and GAV in EUR as required by ESMA Annex IV -->"
    case FundComment(name) => "<!-- Fund: " + EscapeXml(name) + " -->"
  }

  /** The texts of a list of lines. */
  function RenderAll(doc: seq<Line>): (r: seq<string>)
    ensures |r| == |doc|
    decreases |doc|
  {
    if |doc| == 0 then [] else RenderAll(doc[..|doc| - 1]) + [Render(doc[|doc| - 1])]
  }

  /** Rendering one more line appends its text. */
  lemma RenderAllSnoc(ls: seq<Line>, i: nat)
    requires i < |ls|
    ensures RenderAll(ls[..i + 1]) == RenderAll(ls[..i]) + [Render(ls[i])]
  {
    assert ls[..i + 1][..i] == ls[..i];
  }

  /** The i-th rendered line is the rendering of the i-th line. */
  lemma {:induction false} RenderAllAt(doc: seq<Line>, i: nat)
    requires i < |doc|
    ensures RenderAll(doc)[i] == Render(doc[i])
    decreases |doc|
  {
    if i < |doc| - 1 {
      RenderAllAt(doc[..|doc| - 1], i);
    }
  }

  /** Rendering distributes over concatenation. */
  lemma {:induction false} RenderAllAppend(a: seq<Line>, b: seq<Line>)
    ensures RenderAll(a + b) == RenderAll(a) + RenderAll(b)
    decreases |b|
  {
    if |b| == 0 {
      assert a + b == a;
    } else {
      var b' := b[..|b| - 1];
      assert (a + b)[..|a + b| - 1] == a + b';
      assert (a + b)[|a + b| - 1] == b[|b| - 1];
      RenderAllAppend(a, b');
      calc {
        RenderAll(a + b);
        RenderAll(a + b') + [Render(b[|b| - 1])];
        RenderAll(a) + RenderAll(b') + [Render(b[|b| - 1])];
        RenderAll(a) + RenderAll(b);
      }
    }
  }

  /** A hand-written element is the element `tag` would have written. */
  lemma RawElemIsTag(n: Name, t: string)
    ensures Render(RawElem(n, t)) == Render(Elem(n, Some(Str(t))))
  {
    assert Render(Elem(n, Some(Str(t)))) == Tag(NameText(n), Some(Str(t)), None);
    TagText(NameText(n), t);
  }

  /** A string element's content is its text escaped exactly once: it is
      escaped text, and undoing the escapes once gives the value back. */
  lemma ElementContentDecodes(n: Name, t: string)
    ensures var e := EscapeXml(t);
      && Render(Elem(n, Some(Str(t)))) == "<" + NameText(n) + ">" + e + "</" + NameText(n) + ">"
      && IsEscapedText(e) && Unescape(e) == t
  {
    assert Render(Elem(n, Some(Str(t)))) == Tag(NameText(n), Some(Str(t)), None);
    TagText(NameText(n), t);
    EscapeXmlIsEscapedText(t);
    UnescapeEscapeXml(t);
  }

  /** A null value is written as an empty element, never as text. */
  lemma NullElementIsEmpty(n: Name)
    ensures Render(Elem(n, None)) == "<" + NameText(n) + "/>"
  {
  }

  /** A text element. */
  function StrElem(n: Name, s: string): Line
  {
    Elem(n, Some(Str(s)))
  }

  /** A number element. */
  function NumElem(n: Name, i: int): Line
  {
    Elem(n, Some(Num(i)))
  }

  /** A number element whose value may be null. */
  function OptNumElem(n: Name, i: Option<int>): Line
  {
    Elem(n, if i.Some? then Some(Num(i.value)) else None)
  }

  /** The element name of a line, if it has one. */
  function NameOf(l: Line): Option<Name>
  {
    match l
    case Open(n) => Some(n)
    case Close(n) => Some(n)
    case Elem(n, _) => Some(n)
    case RawElem(n, _) => Some(n)
    case _ => None
  }

  /** Every named line of doc names one of s. */
  predicate NamesOnly(doc: seq<Line>, s: set<Name>)
  {
    forall i :: 0 <= i < |doc| && NameOf(doc[i]).Some? ==> NameOf(doc[i]).value in s
  }

  /** Every element n of doc holds the value v. */
  predicate ElemValues(doc: seq<Line>, n: Name, v: Option<Scalar>)
  {
    forall i :: 0 <= i < |doc| && doc[i].Elem? && doc[i].name == n ==> doc[i].value == v
  }

  /** doc has an element n holding v, and every element n of doc holds v. */
  predicate HasValue(doc: seq<Line>, n: Name, v: Option<Scalar>)
  {
    Elem(n, v) in doc && ElemValues(doc, n, v)
  }

  lemma ElemValuesAppend(a: seq<Line>, b: seq<Line>, n: Name, v: Option<Scalar>)
    requires ElemValues(a, n, v) && ElemValues(b, n, v)
    ensures ElemValues(a + b, n, v)
  {
    var d := a + b;
    forall i | 0 <= i < |d| && d[i].Elem? && d[i].name == n ensures d[i].value == v {
      if i < |a| {
        assert d[i] == a[i];
      } else {
        assert d[i] == b[i - |a|];
      }
    }
  }

  /** Line a occurs in doc at an earlier position than line b. */
  predicate Before(doc: seq<Line>, a: Line, b: Line)
  {
    exists i, j :: 0 <= i < j < |doc| && doc[i] == a && doc[j] == b
  }

  lemma BeforeAppend(p: seq<Line>, d: seq<Line>, q: seq<Line>, a: Line, b: Line)
    requires Before(d, a, b)
    ensures Before(p + d + q, a, b)
  {
    var i, j :| 0 <= i < j < |d| && d[i] == a && d[j] == b;
    assert (p + d + q)[|p| + i] == a && (p + d + q)[|p| + j] == b;
  }

  /** A name outside s does not occur in doc: no line with it, and so no element
      with any other value. */
  lemma NamesOnlyExcludes(doc: seq<Line>, s: set<Name>, n: Name, v: Option<Scalar>)
    requires NamesOnly(doc, s) && n !in s
    ensures Open(n) !in doc && Close(n) !in doc && Elem(n, v) !in doc
    ensures forall t :: RawElem(n, t) !in doc
    ensures ElemValues(doc, n, v)
  {
  }

  lemma NamesOnlyAppend(a: seq<Line>, b: seq<Line>, s: set<Name>)
    requires NamesOnly(a, s) && NamesOnly(b, s)
    ensures NamesOnly(a + b, s)
  {
    var d := a + b;
    forall i | 0 <= i < |d| && NameOf(d[i]).Some? ensures NameOf(d[i]).value in s {
      if i < |a| {
        assert d[i] == a[i];
      } else {
        assert d[i] == b[i - |a|];
      }
    }
  }

  lemma NamesOnlyWiden(doc: seq<Line>, s: set<Name>, t: set<Name>)
    requires NamesOnly(doc, s) && s <= t
    ensures NamesOnly(doc, t)
  {
  }

  // ---------------------------------------------------------------------------
  // Counting lines
  // ---------------------------------------------------------------------------

  /** How many times a line occurs in a list of lines. */
  function Count(doc: seq<Line>, l: Line): (n: nat)
    ensures n <= |doc|
    decreases |doc|
  {
    if |doc| == 0 then 0 else (if doc[0] == l then 1 else 0) + Count(doc[1..], l)
  }

  lemma {:induction false} CountAppend(a: seq<Line>, b: seq<Line>, l: Line)
    ensures Count(a + b, l) == Count(a, l) + Count(b, l)
    decreases |a|
  {
    if |a| > 0 {
      assert (a + b)[1..] == a[1..] + b;
      CountAppend(a[1..], b, l);
    } else {
      assert a + b == b;
    }
  }

  /** A line is counted zero times exactly when it does not occur. */
  lemma {:induction false} CountZero(doc: seq<Line>, l: Line)
    ensures Count(doc, l) == 0 <==> l !in doc
    decreases |doc|
  {
    if |doc| > 0 {
      CountZero(doc[1..], l);
      assert doc == [doc[0]] + doc[1..];
    }
  }

  /** A list whose first line is l and that has no other l counts it once. */
  lemma CountLeading(doc: seq<Line>, l: Line)
    requires |doc| > 0 && doc[0] == l && l !in doc[1..]
    ensures Count(doc, l) == 1
  {
    CountZero(doc[1..], l);
  }

  /** A line absent from a head and a tail is counted only in what lies between. */
  lemma CountBetween(a: seq<Line>, b: seq<Line>, c: seq<Line>, l: Line)
    requires l !in a && l !in c
    ensures Count(a + b + c, l) == Count(b, l)
  {
    CountAppend(a + b, c, l);
    CountAppend(a, b, l);
    CountZero(a, l);
    CountZero(c, l);
  }

  // ---------------------------------------------------------------------------
  // Lists of blocks, one per input entry
  // ---------------------------------------------------------------------------

  /** The blocks of the entries of xs, in order: the lines a `for` loop
      pushes. Each block is built by f from the entry and a context c. */
  function Blocks<C, T>(c: C, xs: seq<T>, f: (C, T) -> seq<Line>): (d: seq<Line>)
    ensures |xs| == 0 ==> d == []
    decreases |xs|
  {
    if |xs| == 0 then [] else Blocks(c, xs[..|xs| - 1], f) + f(c, xs[|xs| - 1])
  }

  /** One more loop iteration appends one more block. */
  lemma BlocksSnoc<C, T>(c: C, xs: seq<T>, f: (C, T) -> seq<Line>, i: nat)
    requires i < |xs|
    ensures Blocks(c, xs[..i + 1], f) == Blocks(c, xs[..i], f) + f(c, xs[i])
  {
    assert xs[..i + 1][..i] == xs[..i];
  }

  /** When every block holds l exactly k times, the blocks hold it k times per entry. */
  lemma {:induction false} BlocksCount<C, T>(c: C, xs: seq<T>, f: (C, T) -> seq<Line>, l: Line, k: nat)
    requires forall i :: 0 <= i < |xs| ==> Count(f(c, xs[i]), l) == k
    ensures Count(Blocks(c, xs, f), l) == k * |xs|
    decreases |xs|
  {
    if |xs| > 0 {
      var init := xs[..|xs| - 1];
      forall i | 0 <= i < |init| ensures Count(f(c, init[i]), l) == k {
        assert init[i] == xs[i];
      }
      BlocksCount(c, init, f, l, k);
      CountAppend(Blocks(c, init, f), f(c, xs[|xs| - 1]), l);
      MulSucc(k, |init|);
    }
  }

  lemma MulSucc(k: nat, n: nat)
    ensures k * (n + 1) == k * n + k
  {
  }

  /** Blocks that only name names of s, together, only name names of s. */
  lemma {:induction false} BlocksNamesOnly<C, T>(c: C, xs: seq<T>, f: (C, T) -> seq<Line>, s: set<Name>)
    requires forall i :: 0 <= i < |xs| ==> NamesOnly(f(c, xs[i]), s)
    ensures NamesOnly(Blocks(c, xs, f), s)
    decreases |xs|
  {
    if |xs| > 0 {
      var init := xs[..|xs| - 1];
      forall i | 0 <= i < |init| ensures NamesOnly(f(c, init[i]), s) {
        assert init[i] == xs[i];
      }
      BlocksNamesOnly(c, init, f, s);
    }
  }

  /** When every block has w lines, the block of entry k sits at lines
      w * k .. w * (k + 1): the entries are written in input order. */
  lemma {:induction false} BlockAt<C, T>(c: C, xs: seq<T>, f: (C, T) -> seq<Line>, w: nat, k: nat)
    requires forall i :: 0 <= i < |xs| ==> |f(c, xs[i])| == w
    requires k < |xs|
    ensures |Blocks(c, xs, f)| == w * |xs|
    ensures w * (k + 1) <= |Blocks(c, xs, f)| && Blocks(c, xs, f)[w * k..w * (k + 1)] == f(c, xs[k])
    decreases |xs|
  {
    BlocksLength(c, xs, f, w);
    var init := xs[..|xs| - 1];
    forall i | 0 <= i < |init| ensures |f(c, init[i])| == w {
      assert init[i] == xs[i];
    }
    var p, last := Blocks(c, init, f), f(c, xs[|xs| - 1]);
    assert Blocks(c, xs, f) == p + last;
    if k == |xs| - 1 {
      BlocksLength(c, init, f, w);
      assert w * (k + 1) == w * k + w;
      assert (p + last)[|p|..|p| + |last|] == last;
    } else {
      BlockAt(c, init, f, w, k);
      assert init[k] == xs[k];
      MulMonotone(w, k + 1, |init|);
      assert (p + last)[w * k..w * (k + 1)] == p[w * k..w * (k + 1)];
    }
  }

  /** When part j of a concatenation is a list of blocks of width w, the k-th
      block sits w * k lines after the start of part j. */
  lemma ConcatBlockAt<C, T>(ss: seq<seq<Line>>, j: nat, c: C, xs: seq<T>, f: (C, T) -> seq<Line>, w: nat, k: nat)
    requires j < |ss| && ss[j] == Blocks(c, xs, f)
    requires forall i :: 0 <= i < |xs| ==> |f(c, xs[i])| == w
    requires k < |xs|
    ensures var o := |Concat(ss[..j])|; var d := Concat(ss);
      o + w * (k + 1) <= |d| && d[o + w * k..o + w * (k + 1)] == f(c, xs[k])
  {
    var o, d, b := |Concat(ss[..j])|, Concat(ss), ss[j];
    var x, y := w * k, w * (k + 1);
    MulMonotone(w, 0, k);
    MulMonotone(w, k, k + 1);
    BlockAt(c, xs, f, w, k);
    assert y <= |b| && b[x..y] == f(c, xs[k]);
    ConcatAt(ss, j);
    assert o + |b| <= |d| && d[o..o + |b|] == b;
    SliceWithin(d, o, b, x, y);
  }

  /** Blocks between a head and a tail: the k-th block sits |head| + w * k
      lines in, so a section that frames a loop keeps the loop's order. */
  lemma FramedBlockAt<C, T>(head: seq<Line>, c: C, xs: seq<T>, f: (C, T) -> seq<Line>, tail: seq<Line>, w: nat, k: nat)
    requires forall i :: 0 <= i < |xs| ==> |f(c, xs[i])| == w
    requires k < |xs|
    ensures var d := head + Blocks(c, xs, f) + tail;
      |head| + w * (k + 1) <= |d| && d[|head| + w * k..|head| + w * (k + 1)] == f(c, xs[k])
  {
    var b := Blocks(c, xs, f);
    var d := head + b + tail;
    BlockAt(c, xs, f, w, k);
    MulMonotone(w, k, k + 1);
    assert d[|head|..|head| + |b|] == b;
    SliceWithin(d, |head|, b, w * k, w * (k + 1));
  }

  lemma MulMonotone(w: nat, a: nat, b: nat)
    requires a <= b
    ensures w * a <= w * b
  {
  }

  lemma {:induction false} BlocksLength<C, T>(c: C, xs: seq<T>, f: (C, T) -> seq<Line>, w: nat)
    requires forall i :: 0 <= i < |xs| ==> |f(c, xs[i])| == w
    ensures |Blocks(c, xs, f)| == w * |xs|
    decreases |xs|
  {
    if |xs| > 0 {
      var init := xs[..|xs| - 1];
      forall i | 0 <= i < |init| ensures |f(c, init[i])| == w {
        assert init[i] == xs[i];
      }
      BlocksLength(c, init, f, w);
      MulSucc(w, |init|);
    }
  }

  // ---------------------------------------------------------------------------
  // Documents made of sections
  // ---------------------------------------------------------------------------

  /** The sections one after the other. */
  function Concat(ss: seq<seq<Line>>): (d: seq<Line>)
    ensures |ss| == 0 ==> d == []
    decreases |ss|
  {
    if |ss| == 0 then [] else Concat(ss[..|ss| - 1]) + ss[|ss| - 1]
  }

  /** A line is in the document exactly when it is in one of its sections. */
  lemma {:induction false} ConcatIn(ss: seq<seq<Line>>, l: Line)
    ensures l in Concat(ss) <==> exists j :: 0 <= j < |ss| && l in ss[j]
    decreases |ss|
  {
    if |ss| > 0 {
      var init := ss[..|ss| - 1];
      ConcatIn(init, l);
      if exists j :: 0 <= j < |ss| && l in ss[j] {
        var j :| 0 <= j < |ss| && l in ss[j];
        if j < |init| {
          assert init[j] == ss[j];
        }
      }
      if exists j :: 0 <= j < |init| && l in init[j] {
        var j :| 0 <= j < |init| && l in init[j];
        assert init[j] == ss[j];
      }
    }
  }

  /** A line that occurs in no section but section k is counted in the
      document as often as in section k. */
  lemma {:induction false} ConcatCount(ss: seq<seq<Line>>, k: nat, l: Line)
    requires k < |ss|
    requires forall j :: 0 <= j < |ss| && j != k ==> l !in ss[j]
    ensures Count(Concat(ss), l) == Count(ss[k], l)
    decreases |ss|
  {
    var init := ss[..|ss| - 1];
    var last := ss[|ss| - 1];
    CountAppend(Concat(init), last, l);
    if k == |ss| - 1 {
      ConcatIn(init, l);
      CountZero(Concat(init), l);
    } else {
      forall j | 0 <= j < |init| && j != k ensures l !in init[j] {
        assert init[j] == ss[j];
      }
      ConcatCount(init, k, l);
      assert init[k] == ss[k];
      CountZero(last, l);
    }
  }

  /** When every element n of every section holds v, so does every element n
      of the document. */
  lemma {:induction false} ConcatElemValues(ss: seq<seq<Line>>, n: Name, v: Option<Scalar>)
    requires forall j :: 0 <= j < |ss| ==> ElemValues(ss[j], n, v)
    ensures ElemValues(Concat(ss), n, v)
    decreases |ss|
  {
    if |ss| > 0 {
      var init := ss[..|ss| - 1];
      forall j | 0 <= j < |init| ensures ElemValues(init[j], n, v) {
        assert init[j] == ss[j];
      }
      ConcatElemValues(init, n, v);
      ElemValuesAppend(Concat(init), ss[|ss| - 1], n, v);
    }
  }

  /** The document starts with the first line of its first section. */
  lemma {:induction false} ConcatFirst(ss: seq<seq<Line>>)
    requires |ss| > 0 && |ss[0]| > 0
    ensures |Concat(ss)| > 0 && Concat(ss)[0] == ss[0][0]
    decreases |ss|
  {
    if |ss| > 1 {
      var init := ss[..|ss| - 1];
      assert init[0] == ss[0];
      ConcatFirst(init);
    }
  }

  /** The document ends with the last line of its last section. */
  lemma ConcatLast(ss: seq<seq<Line>>)
    requires |ss| > 0 && |ss[|ss| - 1]| > 0
    ensures var d := Concat(ss); var last := ss[|ss| - 1];
      |d| > 0 && d[|d| - 1] == last[|last| - 1]
  {
  }

  /** Two lines in order in section k are in that order in the document. */
  lemma {:induction false} ConcatBefore(ss: seq<seq<Line>>, k: nat, a: Line, b: Line)
    requires k < |ss| && Before(ss[k], a, b)
    ensures Before(Concat(ss), a, b)
    decreases |ss|
  {
    var init := ss[..|ss| - 1];
    if k == |ss| - 1 {
      BeforeAppend(Concat(init), ss[k], [], a, b);
      assert Concat(init) + ss[k] + [] == Concat(ss);
    } else {
      assert init[k] == ss[k];
      ConcatBefore(init, k, a, b);
      BeforeAppend([], Concat(init), ss[|ss| - 1], a, b);
      assert [] + Concat(init) + ss[|ss| - 1] == Concat(ss);
    }
  }

  /** The sections before m make up the start of the document. */
  lemma {:induction false} ConcatPrefix(ss: seq<seq<Line>>, m: nat)
    requires m <= |ss|
    ensures Concat(ss[..m]) <= Concat(ss)
    decreases |ss|
  {
    if m < |ss| {
      var init := ss[..|ss| - 1];
      ConcatPrefix(init, m);
      assert init[..m] == ss[..m];
    } else {
      assert ss[..m] == ss;
    }
  }

  /** Concatenating one more part appends it. */
  lemma ConcatStep(ss: seq<seq<Line>>, k: nat)
    requires k < |ss|
    ensures Concat(ss[..k + 1]) == Concat(ss[..k]) + ss[k]
  {
    assert ss[..k + 1][..k] == ss[..k];
  }

  /** Section k follows the sections before it at the start of the document. */
  lemma ConcatUpTo(ss: seq<seq<Line>>, k: nat)
    requires k < |ss|
    ensures Concat(ss[..k]) + ss[k] <= Concat(ss)
  {
    var p := ss[..k + 1];
    assert p[..k] == ss[..k] && p[k] == ss[k];
    ConcatPrefix(ss, k + 1);
  }

  /** A line of an earlier section comes before a line of a later one. */
  lemma ConcatBeforeAcross(ss: seq<seq<Line>>, j: nat, k: nat, a: Line, b: Line)
    requires j < k < |ss| && a in ss[j] && b in ss[k]
    ensures Before(Concat(ss), a, b)
  {
    var init := ss[..k];
    assert init[j] == ss[j];
    ConcatIn(init, a);
    var c := Concat(init);
    var i :| 0 <= i < |c| && c[i] == a;
    var i2 :| 0 <= i2 < |ss[k]| && ss[k][i2] == b;
    ConcatUpTo(ss, k);
    PrefixIndex(Concat(ss), c, ss[k], i, i2);
  }

  /** Positions in the two parts of a prefix c + x of d are positions in d. */
  lemma PrefixIndex(d: seq<Line>, c: seq<Line>, x: seq<Line>, i: nat, i2: nat)
    requires c + x <= d && i < |c| && i2 < |x|
    ensures |c| + i2 < |d| && d[i] == c[i] && d[|c| + i2] == x[i2]
  {
    var e := c + x;
    assert e[i] == c[i];
    assert e[|c| + i2] == x[i2];
  }

  /** Section k sits in the document right after the sections before it. */
  lemma ConcatAt(ss: seq<seq<Line>>, k: nat)
    requires k < |ss|
    ensures var o := |Concat(ss[..k])|; var d := Concat(ss);
      o + |ss[k]| <= |d| && d[o..o + |ss[k]|] == ss[k]
  {
    var head := Concat(ss[..k]);
    ConcatUpTo(ss, k);
    assert (head + ss[k])[|head|..] == ss[k];
  }

  /** A piece of a piece of the document is a piece of the document. */
  /** The w lines at x in part j of a concatenation are the w lines at x
      after the start of part j in the whole. */
  lemma ConcatSliceAt(ss: seq<seq<Line>>, j: nat, x: nat, w: nat)
    requires j < |ss| && x + w <= |ss[j]|
    ensures var at := |Concat(ss[..j])| + x; var d := Concat(ss);
      at + w <= |d| && d[at..at + w] == ss[j][x..x + w]
  {
    ConcatAt(ss, j);
    SliceWithin(Concat(ss), |Concat(ss[..j])|, ss[j], x, x + w);
  }

  lemma SliceWithin(d: seq<Line>, o: nat, b: seq<Line>, x: nat, y: nat)
    requires o + |b| <= |d| && d[o..o + |b|] == b && x <= y <= |b|
    ensures d[o + x..o + y] == b[x..y]
  {
    forall i | 0 <= i < y - x ensures d[o + x..o + y][i] == b[x..y][i] {
      assert d[o..o + |b|][x + i] == d[o + x + i];
    }
  }
}
