/** Facts about the aggregate document: one manager block from the first
    report, one entry per report in input order, the first report's
    disclaimer. */
module AggregateFacts {
  import opened Wrappers
  import opened Text
  import opened XmlUtils
  import opened Lines
  import opened Document
  import opened DocumentFacts
  import Types

  // ---------------------------------------------------------------------------
  // The sections of the aggregate
  // ---------------------------------------------------------------------------

  lemma PrologueAt(h: Conversions, reports: seq<Types.AnnexIVReport>)
    requires |reports| > 0
    ensures AggregateSections(h, reports)[0] == Prologue(h.memberState(reports[0].aifIdentification.domicile), false)
  {
  }

  lemma ManagerHeadAt(h: Conversions, reports: seq<Types.AnnexIVReport>)
    requires |reports| > 0
    ensures AggregateSections(h, reports)[1] == ManagerHead(h, reports[0])
  {
  }

  lemma PeriodAt(h: Conversions, reports: seq<Types.AnnexIVReport>)
    requires |reports| > 0
    ensures AggregateSections(h, reports)[2] == PeriodLines(h, reports[0])
  {
  }

  lemma ManagerDescriptionAt(h: Conversions, reports: seq<Types.AnnexIVReport>)
    requires |reports| > 0
    ensures AggregateSections(h, reports)[3] == ManagerDescription(h, reports[0])
  {
  }

  lemma EntriesAt(h: Conversions, reports: seq<Types.AnnexIVReport>)
    requires |reports| > 0
    ensures AggregateSections(h, reports)[4] == Blocks(h, reports, FundEntry)
  {
  }

  lemma TrailerAt(h: Conversions, reports: seq<Types.AnnexIVReport>)
    requires |reports| > 0
    ensures AggregateSections(h, reports)[5] == AggregateTrailer(reports[0].disclaimer)
  {
  }

  // ---------------------------------------------------------------------------
  // Names and values
  // ---------------------------------------------------------------------------

  /** The element names section j of `AggregateSections` writes. */
  function AggregateNames(j: nat): set<Name>
  {
    if j == 1 || j == 2 || j == 3 then SectionNames(j)
    else if j == 4 then {AIFRecordInfoFundName, AIFRecordInfoFundCode}
    else if j == 5 then {AIFMCompleteDescription, AIFMRecordInfo, Disclaimer, AIFReportingInfo}
    else {}
  }

  lemma FundEntriesNamesOnly(h: Conversions, reports: seq<Types.AnnexIVReport>)
    ensures NamesOnly(Blocks(h, reports, FundEntry), AggregateNames(4))
  {
    forall i | 0 <= i < |reports| ensures NamesOnly(FundEntry(h, reports[i]), AggregateNames(4)) {
    }
    BlocksNamesOnly(h, reports, FundEntry, AggregateNames(4));
  }

  /** Section j of the aggregate only names what section j writes. */
  lemma AggregateNamesOnly(h: Conversions, reports: seq<Types.AnnexIVReport>, j: nat)
    requires |reports| > 0 && j < 6
    ensures NamesOnly(AggregateSections(h, reports)[j], AggregateNames(j))
  {
    var first := reports[0];
    if j == 0 { PrologueAt(h, reports); }
    else if j == 1 { ManagerHeadAt(h, reports); ManagerHeadNamesOnly(h, first); }
    else if j == 2 { PeriodAt(h, reports); PeriodNamesOnly(h, first); }
    else if j == 3 { ManagerDescriptionAt(h, reports); ManagerDescriptionNamesOnly(h, first); }
    else if j == 4 { EntriesAt(h, reports); FundEntriesNamesOnly(h, reports); }
    else { TrailerAt(h, reports); }
  }

  /** A value that section k alone gives element n is the aggregate's value of n. */
  lemma AggregateHasValue(h: Conversions, reports: seq<Types.AnnexIVReport>, k: nat, n: Name, v: Option<Scalar>)
    requires |reports| > 0 && k < 6
    requires forall j :: 0 <= j < 6 && j != k ==> n !in AggregateNames(j)
    requires HasValue(AggregateSections(h, reports)[k], n, v)
    ensures HasValue(Aggregate(h, reports), n, v)
  {
    var ss := AggregateSections(h, reports);
    forall j | 0 <= j < 6 ensures ElemValues(ss[j], n, v) {
      if j != k {
        AggregateNamesOnly(h, reports, j);
        NamesOnlyExcludes(ss[j], AggregateNames(j), n, v);
      }
    }
    ConcatElemValues(ss, n, v);
    ConcatIn(ss, Elem(n, v));
  }

  lemma ManagerValuesAt(h: Conversions, reports: seq<Types.AnnexIVReport>)
    requires |reports| > 0
    ensures var id := reports[0].aifIdentification; var ss := AggregateSections(h, reports);
      && HasValue(ss[1], AIFMNationalCode, Some(Str(OrElse(id.aifmLei, "PENDING"))))
      && HasValue(ss[1], AIFMName, Some(Str(OrElse(id.aifmName, "Not specified"))))
      && HasValue(ss[2], ReportingPeriodType, Some(Str(PeriodType(id.reportingPeriod.endMonth))))
  {
    ManagerHeadAt(h, reports);
    PeriodAt(h, reports);
    ManagerNationalCode(h, reports[0]);
    ManagerName(h, reports[0]);
    PeriodValues(h, reports[0]);
  }

  lemma ManagerWrites()
    ensures forall j :: 0 <= j < 6 && j != 1 ==> AIFMNationalCode !in AggregateNames(j) && AIFMName !in AggregateNames(j)
    ensures forall j :: 0 <= j < 6 && j != 2 ==> ReportingPeriodType !in AggregateNames(j)
  {
    forall j | 0 <= j < 6 ensures j != 1 ==> AIFMNationalCode !in AggregateNames(j) && AIFMName !in AggregateNames(j) {
      if j == 0 {} else if j == 1 {} else if j == 2 {} else if j == 3 {} else if j == 4 {} else {}
    }
    forall j | 0 <= j < 6 ensures j != 2 ==> ReportingPeriodType !in AggregateNames(j) {
      if j == 0 {} else if j == 1 {} else if j == 2 {} else if j == 3 {} else if j == 4 {} else {}
    }
  }

  /** The manager's national code and name and the reporting period come
      from the first report. */
  lemma AggregateManager(h: Conversions, reports: seq<Types.AnnexIVReport>)
    requires |reports| > 0
    ensures var id := reports[0].aifIdentification; var d := Aggregate(h, reports);
      && HasValue(d, AIFMNationalCode, Some(Str(OrElse(id.aifmLei, "PENDING"))))
      && HasValue(d, AIFMName, Some(Str(OrElse(id.aifmName, "Not specified"))))
      && HasValue(d, ReportingPeriodType, Some(Str(PeriodType(id.reportingPeriod.endMonth))))
  {
    var id := reports[0].aifIdentification;
    ManagerValuesAt(h, reports);
    ManagerWrites();
    AggregateHasValue(h, reports, 1, AIFMNationalCode, Some(Str(OrElse(id.aifmLei, "PENDING"))));
    AggregateHasValue(h, reports, 1, AIFMName, Some(Str(OrElse(id.aifmName, "Not specified"))));
    AggregateHasValue(h, reports, 2, ReportingPeriodType, Some(Str(PeriodType(id.reportingPeriod.endMonth))));
  }

  lemma DisclaimerAt(h: Conversions, reports: seq<Types.AnnexIVReport>)
    requires |reports| > 0
    ensures HasValue(AggregateSections(h, reports)[5], Disclaimer, Some(Str(reports[0].disclaimer)))
  {
    TrailerAt(h, reports);
    var t := AggregateTrailer(reports[0].disclaimer);
    assert t[2] == Elem(Disclaimer, Some(Str(reports[0].disclaimer)));
  }

  lemma DisclaimerWrites()
    ensures forall j :: 0 <= j < 6 && j != 5 ==> Disclaimer !in AggregateNames(j)
  {
    forall j | 0 <= j < 6 && j != 5 ensures Disclaimer !in AggregateNames(j) {
      if j == 0 {} else if j == 1 {} else if j == 2 {} else if j == 3 {} else {}
    }
  }

  /** The disclaimer is the first report's. */
  lemma AggregateDisclaimer(h: Conversions, reports: seq<Types.AnnexIVReport>)
    requires |reports| > 0
    ensures HasValue(Aggregate(h, reports), Disclaimer, Some(Str(reports[0].disclaimer)))
  {
    DisclaimerAt(h, reports);
    DisclaimerWrites();
    AggregateHasValue(h, reports, 5, Disclaimer, Some(Str(reports[0].disclaimer)));
  }

  // ---------------------------------------------------------------------------
  // Entries and shape
  // ---------------------------------------------------------------------------

  /** After the manager block come the funds' entries, three lines each, in
      input order: entry k sits 3 * k lines after the first entry. */
  lemma AggregateEntries(h: Conversions, reports: seq<Types.AnnexIVReport>, k: nat)
    requires k < |reports|
    ensures var d := Aggregate(h, reports); var o := |Concat(AggregateSections(h, reports)[..4])|;
      && o + 3 * (k + 1) <= |d|
      && d[o + 3 * k..o + 3 * (k + 1)] == FundEntry(h, reports[k])
  {
    EntriesAt(h, reports);
    ConcatBlockAt(AggregateSections(h, reports), 4, h, reports, FundEntry, 3, k);
  }

  /** The aggregate document is its six sections, one after the other. */
  lemma AggregateSpelledOut(h: Conversions, reports: seq<Types.AnnexIVReport>)
    requires |reports| > 0
    ensures var first := reports[0];
      Aggregate(h, reports) ==
        Prologue(h.memberState(first.aifIdentification.domicile), false) + ManagerHead(h, first)
        + PeriodLines(h, first) + ManagerDescription(h, first) + Blocks(h, reports, FundEntry)
        + AggregateTrailer(first.disclaimer)
  {
    var ss := AggregateSections(h, reports);
    assert ss[..0] == [];
    ConcatStep(ss, 0);
    PrologueAt(h, reports);
    var p := ss[0];
    assert [] + p == p;
    ConcatStep(ss, 1);
    ManagerHeadAt(h, reports);
    ConcatStep(ss, 2);
    PeriodAt(h, reports);
    ConcatStep(ss, 3);
    ManagerDescriptionAt(h, reports);
    ConcatStep(ss, 4);
    EntriesAt(h, reports);
    ConcatStep(ss, 5);
    TrailerAt(h, reports);
    assert ss[..6] == ss;
  }

  /** The aggregate opens with the XML declaration and closes the root element. */
  lemma AggregateEnds(h: Conversions, reports: seq<Types.AnnexIVReport>)
    requires |reports| > 0
    ensures var d := Aggregate(h, reports);
      |d| > 0 && d[0] == Declaration && d[|d| - 1] == Close(AIFReportingInfo)
  {
    var ss := AggregateSections(h, reports);
    PrologueAt(h, reports);
    TrailerAt(h, reports);
    ConcatFirst(ss);
    ConcatLast(ss);
  }

  lemma NoSchemaLocationInEntries(h: Conversions, reports: seq<Types.AnnexIVReport>)
    ensures SchemaLocation !in Blocks(h, reports, FundEntry)
  {
    forall i | 0 <= i < |reports| ensures Count(FundEntry(h, reports[i]), SchemaLocation) == 0 {
      CountZero(FundEntry(h, reports[i]), SchemaLocation);
    }
    BlocksCount(h, reports, FundEntry, SchemaLocation, 0);
    CountZero(Blocks(h, reports, FundEntry), SchemaLocation);
  }


  lemma NotInParts<T>(x: T, a: seq<T>, b: seq<T>, c: seq<T>, d: seq<T>, e: seq<T>, f: seq<T>)
    requires x !in a && x !in b && x !in c && x !in d && x !in e && x !in f
    ensures x !in a + b + c + d + e + f
  {
  }

  lemma NoSchemaLocationInHead(h: Conversions, r: Types.AnnexIVReport, memberState: string)
    ensures SchemaLocation !in Prologue(memberState, false)
    ensures SchemaLocation !in ManagerHead(h, r)
    ensures SchemaLocation !in PeriodLines(h, r)
  {
  }

  lemma NoSchemaLocationInTail(h: Conversions, r: Types.AnnexIVReport)
    ensures SchemaLocation !in ManagerDescription(h, r)
    ensures SchemaLocation !in AggregateTrailer(r.disclaimer)
  {
  }

  /** Unlike the single-fund document, the aggregate names no schema location. */
  lemma AggregateHasNoSchemaLocation(h: Conversions, reports: seq<Types.AnnexIVReport>)
    requires |reports| > 0
    ensures SchemaLocation !in Aggregate(h, reports)
  {
    var first := reports[0];
    var ms := h.memberState(first.aifIdentification.domicile);
    AggregateSpelledOut(h, reports);
    NoSchemaLocationInHead(h, first, ms);
    NoSchemaLocationInTail(h, first);
    NoSchemaLocationInEntries(h, reports);
    NotInParts(SchemaLocation, Prologue(ms, false), ManagerHead(h, first), PeriodLines(h, first),
      ManagerDescription(h, first), Blocks(h, reports, FundEntry), AggregateTrailer(first.disclaimer));
  }

  /** The single-fund document does name the schema location. */
  lemma SingleFundSchemaLocation(h: Conversions, r: Types.AnnexIVReport)
    ensures SchemaLocation in SingleFund(h, r)
  {
    PrologueInLayout(h, r);
    assert SingleFundPrologue(h, r)[4] == SchemaLocation;
    SingleFundHas(h, r, 0, SchemaLocation);
  }
}
