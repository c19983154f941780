# AIFMD Annex IV XML generator: a Dafny model

This project models the core of open-annex-iv in Dafny. That repository turns an
`AnnexIVReport` record into the AIFMD Annex IV XML that an alternative investment fund
manager files with its regulator under ESMA/2013/1358. The model has four parts:

- **XML escaping and the element builder** (`XmlUtils`). `escapeXml` is a chain of five
  global replacements. The model proves that this chain acts character by character,
  distributes over concatenation, and never shortens its input. It also proves that the
  output is well-escaped text which decodes back to the input. `tag` writes a self-closing
  element for a null value and an open and close tag around the escaped text for any other
  value.
- **EEA and country tables** (`Eea`). The EEA name and code lists, the
  name-to-member-state table and the region tables are finite ordered lists. Each lookup
  takes the first entry whose key matches. No table lists a key twice
  (`Eea.EeaNamesDistinct`, `Eea.AggregatesDistinct`, `Eea.ExtraDistinct`), so the first
  match is also the only one, as in a JavaScript object. The modelled operations are:
  - `isEEADomicile`;
  - `mapDomicileToMemberState`, with its two-character fallback;
  - `toISOCountryCode`, with its pass-through, aggregate, member-state, extra and `XS`
    tiers.
- **ESMA code mappings** (`EsmaCodes`). The four classifiers are of two kinds.
  - `mapToPredominantAIFType` and `mapAssetType` are ordered chains of substring tests on
    lower-cased text, in which the first hit wins. Beside each chain stands an independent
    rule table, and a lemma shows that the chain is the first-match rule over that table.
  - `mapReportingObligationToFrequencyCode` tests the obligation as given, without
    lower-casing; `EsmaCodes.FrequencyCodeMeaning` states when each code results.
    `mapDepositaryType` is an exact `switch` on two values, stated by the
    if-and-only-if clauses of `EsmaCodes.MapDepositaryType`.
- **The two serializers** (`Serializer`). Both are imperative methods. Each pushes
  rendered lines onto a `seq<string>` one section at a time, using loops with invariants,
  and then joins the lines with newlines.
  - Every push method is proved to append the rendering of one part of a reference
    document: `Document.SingleFund` or `Document.Aggregate`.
  - A reference document is a list of structured `Line` values (which element, with which
    value).
  - `DocumentFacts`, `SingleFundFacts` and `AggregateFacts` prove what those documents
    contain: which elements, how many, in which order and with which values.

In the "states" column, "the X is v" for an element X of a document means two things. The
document holds an X element with the value v, and every X element in it holds v
(`Lines.HasValue`).

The serializers call the conversions in src/helpers through a record, `Document.Conversions`.
The layout lemmas hold for any conversions. The two entry points use `Document.Annex`, the
record of the real conversions.

Modules: `Wrappers`, `Text`, `Types`, `XmlUtils`, `Eea`, `EsmaCodes`, `Lines`, `Document`,
`DocumentFacts`, `SingleFundFacts`, `AggregateFacts`, `Serializer`. There is one file per
module.

## Model

| member | source | states |
|---|---|---|
| Wrappers.OrElse | src/serializer.ts:38-39 | `x \|\| fallback` on a nullable string: the fallback for null or the empty string, otherwise the value itself |
| Text.Take | src/helpers/eea.ts:38 | `substring(0, n)` and `slice(0, n)` (src/serializer.ts:74) give a prefix of length min(n, length) |
| Text.UpperIdempotent | src/helpers/eea.ts:33 | upper-casing twice is upper-casing once |
| Text.Join | src/serializer.ts:217 | `join` of no parts is empty, and the joined text starts with the first part |
| Text.JoinEndsWithLast | src/serializer.ts:217 | the joined text ends with the last part |
| Text.JoinContainsPart | src/serializer.ts:217 | every part occurs in the joined text |
| Text.NatToStringValue | src/serializer.ts:22 | the decimal text of a number reads back as that number |
| Text.IntToString | src/helpers/xml-utils.ts:17 | `String(i)` is non-empty; it starts with a minus exactly when the integer is negative, and every other character is a digit |
| Text.IntToStringValue | src/helpers/xml-utils.ts:17 | `String(i)` names i: a non-negative integer's text is all digits and reads back as i; a negative one's is a minus followed by digits reading back as -i |
| XmlUtils.EscapeXml | src/helpers/xml-utils.ts:5-12 | the five global replacements, `&` first; what they amount to is stated by XmlUtils.EscapeXmlIsCharwise, EscapeXmlAppend, EscapeXmlLength, EscapeXmlIsEscapedText and UnescapeEscapeXml below |
| XmlUtils.EscapeChar | src/helpers/xml-utils.ts:7-11 | a character is left as itself exactly when it is not one of the five reserved characters |
| XmlUtils.EscapeXmlIsCharwise | src/helpers/xml-utils.ts:5-12 | the ampersand-first chain of replacements equals escaping each character on its own |
| XmlUtils.EscapeXmlOneChar | src/helpers/xml-utils.ts:7-11 | the chain maps each single character to its entity, or to itself |
| XmlUtils.EscapeXmlAppend | src/helpers/xml-utils.ts:5-12 | escape(a + b) == escape(a) + escape(b) |
| XmlUtils.EscapeXmlLength | src/helpers/xml-utils.ts:5-12 | the output is never shorter; it has the same length iff the input has no reserved character, and then it is the input; '' maps to '' |
| XmlUtils.EscapeXmlIsEscapedText | src/helpers/xml-utils.ts:7-11 | the output has no raw `<`, `>`, `"` or `'`, and every `&` in it begins one of the five entities |
| XmlUtils.UnescapeEscapeXml | src/helpers/xml-utils.ts:7-11 | decoding the entities once gives the input back, so no character is escaped twice |
| XmlUtils.EscapeXmlInjective | src/helpers/xml-utils.ts:5-12 | different inputs give different outputs |
| XmlUtils.ReplaceAllAbsent | src/helpers/xml-utils.ts:7 | a global replace of a character that does not occur changes nothing |
| XmlUtils.Tag | src/helpers/xml-utils.ts:14-18 | a null value gives `<name/>`; a present value gives text longer than the name plus the brackets |
| XmlUtils.TagNullIgnoresAttributes | src/helpers/xml-utils.ts:15 | a null value gives exactly `<name/>` whatever attributes are passed |
| XmlUtils.TagPresentIsNotSelfClosing | src/helpers/xml-utils.ts:15-17 | any present value, including '', 0 and false, gives text other than the self-closing form |
| XmlUtils.TagContentDecodes | src/helpers/xml-utils.ts:16-17 | the element is the opening tag with its attribute string, escaped text that decodes to `String(value)`, and the closing tag |
| XmlUtils.AttributeDecodes | src/helpers/xml-utils.ts:16 | an attribute is `k="escape(v)"`; the escaped value has no raw quote and decodes to v |
| XmlUtils.AttrStringLeadingSpace | src/helpers/xml-utils.ts:16 | the attribute string is empty exactly when no attribute record is supplied, and otherwise starts with a space |
| XmlUtils.TagText | src/helpers/xml-utils.ts:17 | a text value without attributes is `<name>` + escape(text) + `</name>` |
| XmlUtils.TagZero | src/helpers/xml-utils.ts:15-17 | 0 is written as `<name>0</name>`, not as null |
| XmlUtils.TagEmptyString | src/helpers/xml-utils.ts:15-17 | '' is written as `<name></name>`, not as null |
| XmlUtils.TagFalse | src/helpers/xml-utils.ts:15-17 | false is written as `<name>false</name>`, not as null |
| Eea.FindKey | src/helpers/eea.ts:38 | the position found holds the key and no earlier entry does, or the key is absent |
| Eea.Lookup | src/helpers/eea.ts:57-60 | `table[key]` is absent exactly when no entry has the key, and is otherwise the value of an entry with that key |
| Eea.LookupDistinct | src/helpers/eea.ts:20-29 | in a table without repeated keys, each entry is the one found for its key |
| Eea.TablesConsistent | src/helpers/eea.ts:5-29 | the member-state table pairs the i-th EEA name with the i-th EEA code, for all 30 entries |
| Eea.EeaNamesDistinct | src/helpers/eea.ts:20-29 | no key of the member-state table is listed twice |
| Eea.DomicilesAreCodes | src/helpers/eea.ts:20-29 | every value of the member-state table is two upper-case letters |
| Eea.AggregatesAreCodes | src/helpers/eea.ts:48-56 | every value of the aggregate-region table is two upper-case letters |
| Eea.ExtraAreCodes | src/helpers/eea.ts:62-68 | every value of the extra table is two upper-case letters |
| Eea.AggregatesDistinct | src/helpers/eea.ts:48-56 | no key of the aggregate table is listed twice, so its first match is the object's only entry |
| Eea.ExtraDistinct | src/helpers/eea.ts:62-68 | no key of the extra table is listed twice |
| Eea.EeaCodesAreCodes | src/helpers/eea.ts:13-17 | every EEA code is two upper-case letters |
| Eea.IsEEADomicile | src/helpers/eea.ts:32-34 | an exact EEA name, or a code in either case; stated by Eea.EeaNamesAndCodesAccepted, IsEEADomicileByLength and the rejection lemmas below |
| Eea.EeaNamesAndCodesAccepted | src/helpers/eea.ts:32-34 | each of the 30 names, spelled exactly, is accepted, and so is each code in upper or lower case |
| Eea.IsEEADomicileByLength | src/helpers/eea.ts:32-34 | a domicile whose length is not 2 is accepted iff it is one of the names |
| Eea.NamesAreCaseSensitive | src/helpers/eea.ts:33 | "GERMANY" is rejected: names must match exactly |
| Eea.EmptyRejected | src/helpers/eea.ts:32-34 | '' is not an EEA domicile |
| Eea.UsaRejected | src/helpers/eea.ts:32-34 | "USA" is not an EEA domicile |
| Eea.UnitedKingdomRejected | src/helpers/eea.ts:32-34 | "United Kingdom" is not an EEA domicile |
| Eea.SwitzerlandRejected | src/helpers/eea.ts:32-34 | "Switzerland" is not an EEA domicile |
| Eea.CaymanIslandsRejected | src/helpers/eea.ts:32-34 | "Cayman Islands" is not an EEA domicile |
| Eea.MapDomicileToMemberState | src/helpers/eea.ts:37-39 | a domicile that is not a key of the table maps to its first two characters, upper-cased |
| Eea.MapEeaName | src/helpers/eea.ts:37-39 | each EEA name maps to the code beside it, and that code is itself an accepted EEA domicile |
| Eea.MapOtherDomicile | src/helpers/eea.ts:38 | any other domicile maps to its first two characters upper-cased, fewer when it is shorter |
| Eea.MapXanadu | src/helpers/eea.ts:38 | "Xanadu" maps to "XA" |
| Eea.MapZzLand | src/helpers/eea.ts:38 | "ZZ-land" maps to "ZZ" |
| Eea.ToISOCountryCode | src/helpers/eea.ts:45-70 | a string of exactly two upper-case letters is returned unchanged |
| Eea.ClassifyRegion | src/helpers/eea.ts:45-70 | over any tables, a two-letter upper-case region passes through before any lookup |
| Eea.ClassifyRegionTiers | src/helpers/eea.ts:45-70 | over tables of codes, the tiers decide in order (pass-through, aggregates, member-state keys, extra, XS), and the result is always two upper-case letters |
| Eea.ToISOCountryCodeTiers | src/helpers/eea.ts:45-70 | the tiers in order over the real tables (member-state keys match exactly, as `in` does); the result is always two upper-case letters |
| Eea.ToISOCountryCodeIdempotent | src/helpers/eea.ts:45-70 | converting a converted code again changes nothing |
| Eea.UKPassesThrough | src/helpers/eea.ts:46 | "UK" passes through unchanged |
| Eea.UKInExtra | src/helpers/eea.ts:63 | the extra table maps "UK" to GB; by Eea.UKPassesThrough that entry is never reached |
| Eea.ToISONorthAmerica | src/helpers/eea.ts:53 | "North America" gives US |
| Eea.GermanyIsAnEeaKey | src/helpers/eea.ts:60 | the member-state table maps "Germany" to DE |
| Eea.DeutschlandIsAnExtraKey | src/helpers/eea.ts:67 | the extra table maps "Deutschland" to DE (Eea.NotAnEeaKey: the member-state table does not have it) |
| Eea.NotAnEeaKey | src/helpers/eea.ts:60 | "Deutschland" and "Atlantis" are not member-state keys |
| Eea.ToISOAtlantis | src/helpers/eea.ts:69 | "Atlantis", a region no table knows, gives XS |
| Eea.ToISOGermany | src/helpers/eea.ts:57-60 | "Germany" gives DE through the member-state tier |
| Eea.ToISODeutschland | src/helpers/eea.ts:62-68 | "Deutschland" gives DE through the extra tier |
| EsmaCodes.FirstMatch | src/helpers/esma-codes.ts:21-27 | an empty rule table matches nothing |
| EsmaCodes.FirstMatchWins | src/helpers/esma-codes.ts:21-27 | the first rule that fires gives the code, whatever later rules say |
| EsmaCodes.FirstMatchNone | src/helpers/esma-codes.ts:28-30 | when no rule fires there is no code, and the fallback decides |
| EsmaCodes.MapReportingObligationToFrequencyCode | src/helpers/esma-codes.ts:9-13 | the code is Q, H or Y |
| EsmaCodes.FrequencyCodeMeaning | src/helpers/esma-codes.ts:9-13 | Q iff the text contains "24(4)"; H iff it contains "24(2)" but not "24(4)"; Y iff it contains neither |
| EsmaCodes.NameAndForm | src/helpers/esma-codes.ts:20 | the text searched is lower(name or '') + ' ' + lower(legal form) |
| EsmaCodes.LegalFormFallback | src/helpers/esma-codes.ts:28-30 | the fallback is PEQF exactly when the lower-cased legal form contains "pe" and not "spezial", and OTHR otherwise |
| EsmaCodes.MapToPredominantAIFType | src/helpers/esma-codes.ts:19-31 | the result is one of the eight predominant-type codes |
| EsmaCodes.FamilyHitMeans | src/helpers/esma-codes.ts:21-27 | rule k of the table fires exactly when the source's k-th keyword test holds |
| EsmaCodes.PredominantTable | src/helpers/esma-codes.ts:21-27 | the first-match rule over the table gives the code of the first family whose test holds |
| EsmaCodes.PredominantTypeIsFirstMatch | src/helpers/esma-codes.ts:19-31 | the classifier equals the first-match rule over the table, with the legal-form fallback when no family fires |
| EsmaCodes.SpezialIsNotPrivateEquity | src/helpers/esma-codes.ts:29 | "Spezial_AIF" is not taken for private equity |
| EsmaCodes.SpezialMissesRealEstate | src/helpers/esma-codes.ts:21 | " spezial_aif" triggers no real-estate keyword |
| EsmaCodes.SpezialMissesMiddleFamilies | src/helpers/esma-codes.ts:22-24 | " spezial_aif" triggers neither the hedge, private-equity nor fund-of-funds family |
| EsmaCodes.SpezialMissesLastFamilies | src/helpers/esma-codes.ts:25-27 | " spezial_aif" triggers neither the venture, infrastructure nor commodity family |
| EsmaCodes.UnnamedSpezialIsOther | src/helpers/esma-codes.ts:19-31 | an unnamed Spezial_AIF is OTHR |
| EsmaCodes.GenericSpezialIsOther | src/helpers/esma-codes.ts:19-31 | a Spezial_AIF named "Generic Fund" matches no family and is OTHR |
| EsmaCodes.NoFamilyWithoutKeyLetters | src/helpers/esma-codes.ts:21-27 | no keyword family fires on a text without the letters m, t, o, h and v |
| EsmaCodes.MapDepositaryType | src/helpers/esma-codes.ts:34-40 | CDPS iff exactly credit_institution, INVF iff exactly investment_firm, OTHR for anything else including null |
| EsmaCodes.MapAssetType | src/helpers/esma-codes.ts:43-52 | the result is one of the six sub-asset-type codes |
| EsmaCodes.AssetTypeIgnoresCase | src/helpers/esma-codes.ts:44 | inputs that agree up to case get the same code |
| EsmaCodes.AssetTypeOfUpper | src/helpers/esma-codes.ts:44 | upper-casing the input does not change the code |
| EsmaCodes.AssetHitMeans | src/helpers/esma-codes.ts:45-50 | rule k of the asset table fires exactly when the source's k-th test holds |
| EsmaCodes.AssetTable | src/helpers/esma-codes.ts:45-50 | the first-match rule over the asset table gives the code of the first test that holds |
| EsmaCodes.AssetTypeIsFirstMatch | src/helpers/esma-codes.ts:43-52 | the classifier equals the first-match rule over the table, with NTA_NTA_NOTA when no rule fires |
| EsmaCodes.AssetTypeOfEmpty | src/helpers/esma-codes.ts:44-51 | '' gives NTA_NTA_NOTA |
| EsmaCodes.AssetTypeOfFund | src/helpers/esma-codes.ts:45 | exactly "fund", in any case, gives SEC_LEQ_IFIN |
| EsmaCodes.GetTypePct | src/helpers/esma-codes.ts:55-57 | the share of the first entry of the type; 0 when there is none |
| Lines.Render | src/serializer.ts:29-215 | the text of one pushed line: a literal, or the `tag` call for an element; stated by Lines.RawElemIsTag, ElementContentDecodes and NullElementIsEmpty below |
| Lines.RenderAllAppend | src/serializer.ts:28-217 | rendering a list of lines distributes over concatenation |
| Lines.RawElemIsTag | src/serializer.ts:48 | the hand-written LEI element is the text `tag` would have written |
| Lines.ElementContentDecodes | src/serializer.ts:38-65 | a text element holds its value escaped exactly once: well-escaped text that decodes to the value |
| Lines.NullElementIsEmpty | src/serializer.ts:59 | a null value is written as `<name/>`, never as text |
| Lines.BlocksCount | src/serializer.ts:74-81 | a loop whose every block holds a line k times holds it k times per entry |
| Lines.BlockAt | src/serializer.ts:74-81 | with blocks of w lines, entry k's block is lines w*k to w*(k+1): input order is kept |
| Document.QuarterOf | src/serializer.ts:23 | the quarter is 1 to 4, and the month lies in it |
| Document.PeriodType | src/serializer.ts:24 | the period type is Q1..Q4, the digit being the quarter of the end month |
| Document.ReportingCode | src/serializer.ts:50 | the member state, the marker, then the national code's first eight characters, upper-cased |
| Document.FlagText | src/serializer.ts:40 | "true" iff the flag holds, "false" iff it does not |
| Document.InceptionValue | src/serializer.ts:59 | the inception element is null exactly when no date is given |
| Document.SingleFund | src/serializer.ts:28-215 | every line `serializeAnnexIVToXml` pushes, in order; stated by DocumentFacts.SingleFundSpelledOut and the DocumentFacts and SingleFundFacts lemmas below |
| Document.Aggregate | src/serializer.ts:236-265 | every line `serializeAggregateAnnexIVToXml` pushes, in order; stated by AggregateFacts.AggregateSpelledOut and the AggregateFacts lemmas below |
| DocumentFacts.AssetBlockFacts | src/serializer.ts:75-80 | an instrument block has six lines, one instrument start tag, and only instrument elements |
| DocumentFacts.PrincipalAssetCount | src/serializer.ts:74-81 | the principal section has one instrument block per asset of `slice(0, 5)` |
| DocumentFacts.MarketCount | src/serializer.ts:98-107 | one market block per region of `slice(0, 5)`, inside a markets block present iff there is a region |
| DocumentFacts.ExposureCount | src/serializer.ts:114-122 | one investor block per domicile of `slice(0, 10)` |
| DocumentFacts.PrincipalAssetAt | src/serializer.ts:74-81 | asset k of `slice(0, 5)` is the k-th instrument block, six lines each after the four opening lines: the blocks keep input order |
| DocumentFacts.MarketAt | src/serializer.ts:99-105 | region k of `slice(0, 5)` is the k-th market block, four lines each after the markets' opening line |
| DocumentFacts.InvestorAt | src/serializer.ts:115-121 | domicile k of `slice(0, 10)` is the k-th investor block, five lines each after the two opening lines |
| DocumentFacts.CounterpartyCount | src/serializer.ts:125-136 | one block per counterparty, uncapped, inside a profile present iff there is a counterparty |
| DocumentFacts.ToolLinesFacts | src/serializer.ts:168-178 | one block per tool, uncapped, inside a tools block present iff there is a tool |
| DocumentFacts.LiquidityBucketCount | src/serializer.ts:156-163 | the liquidity section has one block per bucket, uncapped |
| DocumentFacts.LiquidityToolCount | src/serializer.ts:168-178 | the liquidity section has one block per tool, with the tools block present iff there is a tool |
| DocumentFacts.ManagerNationalCode | src/serializer.ts:38 | the manager's national code is the LEI, or PENDING |
| DocumentFacts.ManagerName | src/serializer.ts:39 | the manager's name, or "Not specified" |
| DocumentFacts.ManagerEeaFlag | src/serializer.ts:40 | the manager's EEA flag is the EEA test of the fund's domicile |
| DocumentFacts.ManagerIdentifier | src/serializer.ts:46 | the identifier is the LEI, or the fund's national code |
| DocumentFacts.ManagerReportingCode | src/serializer.ts:50 | the manager reporting code is member state + AIFM + code |
| DocumentFacts.ManagerLeiLine | src/serializer.ts:47-49 | the LEI line is written iff the LEI is non-empty |
| DocumentFacts.PeriodValues | src/serializer.ts:42-43 | the period lines give the quarter and the year of the period's end |
| DocumentFacts.FundEeaFlag | src/serializer.ts:56 | the fund's EEA flag is the EEA test of its domicile |
| DocumentFacts.FundReportingCode | src/serializer.ts:57 | the fund reporting code is member state + AIF + code |
| DocumentFacts.FundInceptionDate | src/serializer.ts:59 | the inception date, null when none is given |
| DocumentFacts.SubAssetTypeFallback | src/serializer.ts:84 | the sub-asset type, or OTHR_OTHR when it is empty |
| DocumentFacts.DepositaryPresence | src/serializer.ts:192 | the depositary block is written iff the name is non-empty |
| DocumentFacts.DepositaryCountryValue | src/serializer.ts:196 | the depositary country is the jurisdiction, or DE |
| DocumentFacts.DepositaryLeiLine | src/serializer.ts:195 | the depositary LEI line is written iff there is a name and a non-empty LEI |
| DocumentFacts.LimitFacts | src/serializer.ts:144-150 | the limits block is written iff a limit is set; each limit iff it is set; commitment before gross |
| DocumentFacts.SingleFundSpelledOut | src/serializer.ts:28-215 | the single-fund document is its eighteen sections in push order |
| DocumentFacts.SingleFundLine | src/serializer.ts:28-215 | a line whose element only one section writes occurs in the document as often as in that section |
| DocumentFacts.SingleFundOrder | src/serializer.ts:28-215 | a line of an earlier section precedes a line of a later one |
| SingleFundFacts.ManagerHeadWrites | src/serializer.ts:37-41 | only the manager head writes the manager's code, name and EEA flag |
| SingleFundFacts.ManagerDescriptionWrites | src/serializer.ts:45-50 | only the manager description writes the identifier, its LEI and the reporting code |
| SingleFundFacts.FundHeadWrites | src/serializer.ts:53-59 | only the fund head writes the fund's EEA flag, reporting code and inception date |
| SingleFundFacts.PeriodWrites | src/serializer.ts:42-43 | only the two period sections write the period's quarter and year |
| SingleFundFacts.AssetCountInDocument | src/serializer.ts:74-81 | the document has min(5, assets) instrument blocks |
| SingleFundFacts.MarketsInDocument | src/serializer.ts:98-107 | min(5, regions) market blocks; the markets block is present iff there is a region |
| SingleFundFacts.InvestorCountInDocument | src/serializer.ts:115-121 | min(10, domiciles) investor blocks |
| SingleFundFacts.AssetsInOrder | src/serializer.ts:74-81 | in the whole document, the six lines at a fixed start plus 6k are asset k's block, for each of the first five assets |
| SingleFundFacts.MarketsInOrder | src/serializer.ts:99-105 | in the whole document, the four lines at a fixed start plus 4k are region k's block, for each of the first five regions |
| SingleFundFacts.InvestorsInOrder | src/serializer.ts:115-121 | in the whole document, the five lines at a fixed start plus 5k are domicile k's block, for each of the first ten domiciles |
| SingleFundFacts.CounterpartiesInDocument | src/serializer.ts:125-136 | one block per counterparty, uncapped; the profile is present iff there is a counterparty |
| SingleFundFacts.BucketCountInDocument | src/serializer.ts:156-163 | one block per liquidity bucket, uncapped |
| SingleFundFacts.ToolsInDocument | src/serializer.ts:168-178 | one block per tool, uncapped; the tools block is present iff there is a tool |
| SingleFundFacts.DepositaryInDocument | src/serializer.ts:191-199 | the depositary block iff a name is given; country falls back to DE; LEI line iff name and LEI |
| SingleFundFacts.LimitsInDocument | src/serializer.ts:144-150 | limits block iff a limit is set; each limit iff set; commitment before gross |
| SingleFundFacts.ManagerInDocument | src/serializer.ts:38-40 | the document's manager code is the LEI or PENDING, its name falls back to "Not specified", its EEA flag is the domicile's |
| SingleFundFacts.ManagerIdentifierInDocument | src/serializer.ts:46 | the document's identifier is the LEI, or the national code |
| SingleFundFacts.ManagerReportingCodeInDocument | src/serializer.ts:50 | the document's manager reporting code is member state + AIFM + code |
| SingleFundFacts.ManagerLeiInDocument | src/serializer.ts:47-49 | the LEI line is in the document iff the LEI is non-empty |
| SingleFundFacts.FundInDocument | src/serializer.ts:56-59 | the document's fund EEA flag, fund reporting code and inception date |
| SingleFundFacts.PeriodInDocument | src/serializer.ts:42-43 | every period type and year element holds the end's quarter and year, and each is written twice (manager and fund level) |
| SingleFundFacts.SubAssetTypeInDocument | src/serializer.ts:84 | the sub-asset type is written, falling back to OTHR_OTHR |
| SingleFundFacts.SingleFundEnds | src/serializer.ts:29-215 | the document opens with the XML declaration and closes the root element |
| SingleFundFacts.RecordsInOrder | src/serializer.ts:37-71 | the manager record opens before the fund record, and that before the principal information |
| AggregateFacts.AggregateManager | src/serializer.ts:242-246 | the manager's code, name and period come from the first report |
| AggregateFacts.AggregateDisclaimer | src/serializer.ts:264 | the disclaimer is the first report's |
| AggregateFacts.AggregateEntries | src/serializer.ts:256-260 | entry k (comment, fund name, fund code) sits 3*k lines after the first entry: one per report, in input order |
| AggregateFacts.AggregateSpelledOut | src/serializer.ts:236-265 | the aggregate is the first report's manager block, the entries and the closing lines |
| AggregateFacts.AggregateEnds | src/serializer.ts:236-265 | the aggregate opens with the declaration and closes the root element |
| AggregateFacts.AggregateHasNoSchemaLocation | src/serializer.ts:237-240 | the aggregate names no schema location |
| AggregateFacts.SingleFundSchemaLocation | src/serializer.ts:33 | the single-fund document does name it |
| Serializer.PushLines | src/serializer.ts:28-217 | a loop of pushes appends the rendering of every line, in order |
| Serializer.PushBlocks | src/serializer.ts:74-81 | a `for` loop appends the rendering of every entry's block, in input order |
| Serializer.PushManagerDescription | src/serializer.ts:44-50 | appends exactly the rendered `Document.ManagerDescription`, whose LEI line DocumentFacts.ManagerLeiLine describes |
| Serializer.PushPrincipal | src/serializer.ts:71-88 | appends exactly the rendered `Document.PrincipalLines`: one instrument block per asset of `slice(0, 5)` (DocumentFacts.PrincipalAssetCount) |
| Serializer.PushMarkets | src/serializer.ts:98-108 | appends exactly the rendered `Document.MarketLines`: at most five markets, in a block present iff there is a region (DocumentFacts.MarketCount) |
| Serializer.PushExposure | src/serializer.ts:111-122 | appends exactly the rendered `Document.ExposureLines`: at most ten domiciles (DocumentFacts.ExposureCount) |
| Serializer.PushCounterparty | src/serializer.ts:129-133 | appends exactly the rendering of one counterparty's block |
| Serializer.PushCounterpartyBlocks | src/serializer.ts:128-134 | appends the rendering of every counterparty's block, in input order |
| Serializer.PushCounterparties | src/serializer.ts:125-136 | appends exactly the rendered `Document.CounterpartyLines`, a profile present iff there is a counterparty (DocumentFacts.CounterpartyCount) |
| Serializer.PushLimits | src/serializer.ts:144-150 | appends exactly the rendered limits block, which DocumentFacts.LimitFacts describes |
| Serializer.PushLeverage | src/serializer.ts:139-151 | appends exactly the rendered `Document.LeverageLines` |
| Serializer.PushTools | src/serializer.ts:168-178 | appends exactly the rendered tools block: every tool, in a block present iff there is one (DocumentFacts.ToolLinesFacts) |
| Serializer.PushLiquidity | src/serializer.ts:154-179 | appends exactly the rendered `Document.LiquidityLines`: every bucket and every tool (DocumentFacts.LiquidityBucketCount, LiquidityToolCount) |
| Serializer.PushDepositary | src/serializer.ts:191-199 | appends exactly the rendered `Document.DepositaryLines`, present iff the depositary has a name (DocumentFacts.DepositaryPresence) |
| Serializer.JoinedStart | src/serializer.ts:29 | the text of a document that opens with the declaration starts with it |
| Serializer.JoinedEnd | src/serializer.ts:215-217 | the text of a document that closes the root ends with `</AIFReportingInfo>` |
| Serializer.LineInText | src/serializer.ts:217 | every line of a document appears, rendered, in its joined text |
| Serializer.PushSingleFund | src/serializer.ts:28-215 | the pushed lines are exactly the rendering of the single-fund document |
| Serializer.SerializeAnnexIVToXml | src/serializer.ts:13-218 | the output is the single-fund document joined with newlines; it starts with the XML declaration and ends with `</AIFReportingInfo>` |
| Serializer.PushAggregate | src/serializer.ts:235-265 | the pushed lines are exactly the rendering of the aggregate document |
| Serializer.SerializeAggregateAnnexIVToXml | src/serializer.ts:224-267 | '' for no report; otherwise the aggregate joined with newlines, starting with the declaration and ending with the root end tag |

## Left out

- Dates (src/serializer.ts:21-24, :59). Parsing with `new Date` and reading local time
  depend on the time zone, and are not modelled. This leaves three behaviours out:
  - The reporting period's end is given as an integer year and a month 1 to 12
    (`Types.ReportingPeriod.endYear`/`endMonth`). A period end that does not parse makes
    the source write the year "NaN" and the period type "QNaN". The `Types.Month` range
    rules that input out.
  - The inception date is an optional string assumed to be already in the YYYY-MM-DD form
    that `toISOString().split('T')[0]` produces. The model writes it as given, and does
    not model the source turning a timestamp or any other parseable date into that form.
  - A non-empty inception date that does not parse, such as "n/a", makes `toISOString`
    throw a RangeError, so `serializeAnnexIVToXml` throws. The model writes
    `<AIFInceptionDate>n/a</AIFInceptionDate>` instead and has no error path for it.
- Text.Take: counts Unicode scalar values, where JavaScript's `substring` counts UTF-16
  code units. The two agree on text made only of characters in the Basic Multilingual
  Plane. For a character outside it, the source can take half a surrogate pair, or the pair
  alone, where the model takes the whole character plus the next one. This affects
  `Eea.MapDomicileToMemberState` (`substring(0, 2)`, src/helpers/eea.ts:38) and
  `Document.ReportingCode` (`substring(0, 8)`, src/serializer.ts:50 and :57).
- XmlUtils.ScalarText: numbers are integers. JavaScript's formatting of non-integral
  numbers (`String(68.5)`) is floating point and is not modelled.
- Text.Upper, Text.Lower: ASCII case folding only; Unicode case mapping is not modelled.
- Eea.Lookup: a table is a finite ordered list. The object-prototype keys of a JavaScript
  record, such as `constructor`, are not modelled. The regular expression `^[A-Z]{2}$` is
  the predicate `Eea.IsTwoUpper`.
- Leading indentation: every line is rendered without its leading spaces, which carry no
  content.
- Lines are kept as structured `Lines.Line` values and rendered when pushed. The text of
  a pushed line is the `tag` call, or the literal, that the source pushes at that point.
- `undefined` and `null` are one value (`None`). Optional strings follow JavaScript
  truthiness: the empty string counts as absent where the source tests with `||` or `if`.
- The depositary object itself is never null in src/types.ts, so the `dep &&` part of the
  test at src/serializer.ts:192 is not modelled.
- src/index.ts (re-exports only) and src/types.ts (shape only, modelled as `Types`) have
  no behaviour of their own. The tests under tests/ are not part of this model.
- The assertion at tests/serializer.test.ts:175 expects `<AIFRecordInfo>` and
  `AIFNationalCode` in the aggregate output. src/serializer.ts:237-266 writes neither, and
  the model follows the code.
- XSD validation and well-formedness of the fund comment (src/serializer.ts:257): the
  source checks neither. The model escapes the name exactly as the source does.
