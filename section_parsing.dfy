/**
 * The section stage of the FDA 510(k) pipeline
 * (BioLLM/fda_data_parsing/section_parsing.py): which records have a summary
 * text, the fallbacks for those that do not, and the cutting of a summary
 * into its four sections.
 *
 * The regular expressions are kept as text; `re.search`, the heading
 * removal of the numbered pass and `clean_section_text` are given functions,
 * and the two pattern tables are given with them (a `Stage`), their values
 * in the script being `SectionPatterns` and `SectionNumberPatterns`.
 */
module SectionParsing {
  import opened TextUtil
  import opened SeqUtil
  import opened FdaRecord
  import opened Regex

  // ---------------------------------------------------------------------
  // check_summary_availability
  // ---------------------------------------------------------------------

  predicate LacksSummary(r: Record)
  {
    !HasSummary(r)
  }

  /** Python `check_summary_availability`: the records with a summary text, and the others. */
  method CheckSummaryAvailability(records: seq<Record>)
    returns (withSummary: seq<Record>, withoutSummary: seq<Record>)
    ensures withSummary == Filter(records, HasSummary)
    ensures withoutSummary == Filter(records, LacksSummary)
  {
    withSummary := [];
    withoutSummary := [];
    for i := 0 to |records|
      invariant withSummary == Filter(records[..i], HasSummary)
      invariant withoutSummary == Filter(records[..i], LacksSummary)
    {
      assert records[..i + 1][..i] == records[..i];
      var data := records[i];
      var summary := Get(data.summaryText);
      if summary.Some? && |summary.value| > 0 && |Strip(summary.value)| > 0 {
        withSummary := withSummary + [data];
      } else {
        withoutSummary := withoutSummary + [data];
      }
    }
    assert records[..|records|] == records;
  }

  /**
   * Every record lands in exactly one of the two lists: the first holds, in
   * input order, those whose summary text is not blank, the second the rest.
   */
  lemma SummaryPartition(records: seq<Record>)
    ensures |Filter(records, HasSummary)| + |Filter(records, LacksSummary)| == |records|
    ensures forall r :: r in Filter(records, HasSummary) <==> r in records && HasSummary(r)
    ensures forall r :: r in Filter(records, LacksSummary) <==> r in records && !HasSummary(r)
    ensures SubsequenceOf(Filter(records, HasSummary), records)
  {
    FilterSplit(records, HasSummary, LacksSummary);
    FilterMembers(records, HasSummary);
    FilterMembers(records, LacksSummary);
    FilterIsSubsequence(records, HasSummary);
  }

  // ---------------------------------------------------------------------
  // get_summary_alternatives
  // ---------------------------------------------------------------------

  function CrawlEntry(link: string): string
  {
    "크롤링 가능: " + link
  }

  function ApiEntry(k: string): string
  {
    "FDA API: https://api.fda.gov/device/510k.json?search=k_number:" + k
  }

  function PdfEntry(k: string): string
  {
    "직접 PDF: https://www.accessdata.fda.gov/cdrh_docs/pdf" + PySlice(k, 1, 3) + "/" + k + ".pdf"
  }

  /**
   * Python `get_summary_alternatives`; `None` stands for the `TypeError` of
   * `k_number[1:3]` when the record has no K-number.
   */
  function SummaryAlternatives(r: Record): Option<seq<string>>
  {
    var link := Get(r.detailLink);
    var k := Get(r.kNumber);
    var crawl := if Truthy(link) then [CrawlEntry(link.value)] else [];
    if k.None? then None
    else
      var api := if Truthy(k) then [ApiEntry(k.value)] else [];
      Some(crawl + api + [PdfEntry(k.value)])
  }

  /**
   * The alternatives: a crawl entry first exactly when there is a detail
   * link, an API entry exactly when the K-number is not empty, and always,
   * last, the direct PDF address; one to three entries. Without a K-number
   * the call raises.
   */
  lemma SummaryAlternativesShape(r: Record)
    ensures SummaryAlternatives(r).None? <==> Get(r.kNumber).None?
    ensures SummaryAlternatives(r).Some? ==>
      var alts := SummaryAlternatives(r).value;
      var link := Get(r.detailLink);
      var k := Get(r.kNumber).value;
      && |alts| == 1 + (if Truthy(link) then 1 else 0) + (if |k| > 0 then 1 else 0)
      && 1 <= |alts| <= 3
      && alts[|alts| - 1] == PdfEntry(k)
      && (Truthy(link) ==> alts[0] == CrawlEntry(link.value))
      && (|k| > 0 ==> alts[|alts| - 2] == ApiEntry(k))
  {
  }

  // ---------------------------------------------------------------------
  // find_section_text
  // ---------------------------------------------------------------------

  /** `SECTION_PATTERNS`: the heading patterns of each section, in order. */
  const SectionPatterns: seq<(string, seq<string>)> := [
    (DeviceDescription, DescriptionPatterns),
    (IndicationsForUse, IndicationPatterns),
    (DeviceComparison, ComparisonPatterns),
    (PerformanceData, PerformancePatterns)
  ]

  /** The heading patterns of the device description section. */
  const DescriptionPatterns: seq<string> := [
    "1\\.4\\s+Device Description",
    "Device Description Summary",
    "DEVICE\\s+DESCRIPTION\\s+SUMMARY",
    "1\\.4.*Device.*Description",
    "Subject Device.*is composed of",
    "DEVICE\\s+DESCRIPTION",
    "Description\\s+of\\s+the\\s+Device"
  ]

  /** The heading patterns of the indications for use section. */
  const IndicationPatterns: seq<string> := [
    "1\\.5\\s+Intended Use/Indication for Use",
    "1\\.5.*Intended.*Use",
    "Indications for Use \\(Describe\\)",
    "INDICATIONS\\s+FOR\\s+USE.*intended.*to.*be.*surgically.*placed",
    "NobelZygoma.*TiUltra.*implants.*are.*endosseous",
    "INDICATIONS\\s+FOR\\s+USE",
    "Intended\\s+Use.*Indication"
  ]

  /** The heading patterns of the device comparison section. */
  const ComparisonPatterns: seq<string> := [
    "1\\.7\\s+Technological Comparison",
    "1\\.7.*Technological.*Comparison",
    "Substantial Equivalence Table",
    "COMPARISON.*PREDICATE",
    "Subject Device.*Primary Predicate Device",
    "SUBSTANTIAL\\s+EQUIVALENCE",
    "Device\\s+Comparison"
  ]

  /** The heading patterns of the performance data section. */
  const PerformancePatterns: seq<string> := [
    "1\\.8\\s+Non-Clinical.*Tests Summary",
    "1\\.8.*Non-Clinical.*Tests",
    "Summary of Non-Clinical Testing",
    "Non-clinical testing was performed",
    "PERFORMANCE\\s+DATA",
    "NON-CLINICAL\\s+RESULTS",
    "BIOCOMPATIBILITY.*testing",
    "fatigue performance.*was evaluated"
  ]

  /** The numbered-section pattern of each section, searched across lines and ignoring case. */
  const SectionNumberPatterns: seq<(string, string)> := [
    (DeviceDescription, "1\\.4.*?(?=1\\.5|1\\.6|1\\.7|$)"),
    (IndicationsForUse, "1\\.5.*?(?=1\\.6|1\\.7|$)"),
    (DeviceComparison, "1\\.7.*?(?=1\\.8|2\\.|$)"),
    (PerformanceData, "1\\.8.*?(?=2\\.|3\\.|Conclusion|$)")
  ]

  /**
   * What the section stage runs with: `re.search` with `re.IGNORECASE`
   * (`search`) and with `re.DOTALL | re.IGNORECASE` (`searchNumbered`), the
   * removal of numbered headings
   * (`re.sub(r'^1\.\d+[^\n]*\n?', '', s, flags=re.MULTILINE)`),
   * `clean_section_text`, and the heading and numbered-section tables.
   */
  datatype Stage = Stage(
    search: Search,
    searchNumbered: Search,
    dropHeading: string -> string,
    clean: string -> string,
    sections: seq<(string, seq<string>)>,
    numbered: seq<(string, string)>)

  /** The stage as the script sets it up. */
  predicate ScriptTables(st: Stage)
  {
    st.sections == SectionPatterns && st.numbered == SectionNumberPatterns
  }

  /** The sections of a table are the four record keys, in their order. */
  predicate StandardKeys(sections: seq<(string, seq<string>)>)
  {
    |sections| == |SectionKeys| && forall j :: 0 <= j < |sections| ==> sections[j].0 == SectionKeys[j]
  }

  lemma ScriptKeys()
    ensures StandardKeys(SectionPatterns)
  {
  }

  function PatternList(entry: (string, seq<string>)): seq<string>
  {
    entry.1
  }

  /** Every heading pattern of every section, in table order. */
  function AllPatterns(sections: seq<(string, seq<string>)>): seq<string>
  {
    Flatten(sections, PatternList)
  }

  /** A pattern as the numbered pass reads it: lower-cased, `\s+` as a space, `.*` removed. */
  function Munged(p: string): string
  {
    ReplaceAll(ReplaceAll(Lower(p), "\\s+", " "), ".*", "")
  }

  /** The numbered pass tries section `key` for `patterns` when one of them mentions the key. */
  predicate Mentioned(key: string, patterns: seq<string>)
  {
    exists j :: 0 <= j < |patterns| && Contains(Munged(patterns[j]), ReplaceAll(key, "_", ""))
  }

  /** The body of the numbered section matched by `np`, kept only when longer than 50 characters. */
  function NumberedBody(text: string, np: string, st: Stage): (r: Option<string>)
    ensures r.Some? ==> |r.value| > 50
  {
    match st.searchNumbered(np, text)
    case None => None
    case Some(m) =>
      var body := Strip(st.dropHeading(Strip(Group0(text, m))));
      if |body| > 50 then Some(body) else None
  }

  /** The numbered pass from the `i`-th section on: the first section that is mentioned and long enough. */
  function NumberedFrom(text: string, patterns: seq<string>, st: Stage, i: nat): Option<string>
    decreases |st.numbered| - i
  {
    if i >= |st.numbered| then None
    else
      var key := st.numbered[i].0;
      var body := if Mentioned(key, patterns) then NumberedBody(text, st.numbered[i].1, st) else None;
      if body.Some? then Some(st.clean(body.value)) else NumberedFrom(text, patterns, st, i + 1)
  }

  /** The heading patterns of the other sections: all patterns not among `patterns`, in order. */
  function OtherPatterns(sections: seq<(string, seq<string>)>, patterns: seq<string>): seq<string>
  {
    Filter(AllPatterns(sections), p => p !in patterns)
  }

  /**
   * `end_pos` after the first `n` other patterns: the text length, lowered to
   * each match start (counted from `start_pos`) that is smaller.
   */
  function EndPosUpTo(text: string, startPos: int, others: seq<string>, search: Search, n: nat): int
    requires n <= |others|
  {
    if n == 0 then |text|
    else
      var e := EndPosUpTo(text, startPos, others, search, n - 1);
      match search(others[n - 1], PySlice(text, startPos, |text|))
      case None => e
      case Some(m) => if startPos + m.start < e then startPos + m.start else e
  }

  /** The loop of `find_section_text` that finds the nearest next section. */
  method NearestBoundary(text: string, startPos: int, others: seq<string>, search: Search)
    returns (endPos: int)
    ensures endPos == EndPosUpTo(text, startPos, others, search, |others|)
  {
    endPos := |text|;
    for i := 0 to |others|
      invariant endPos == EndPosUpTo(text, startPos, others, search, i)
    {
      var nextMatch := search(others[i], PySlice(text, startPos, |text|));
      if nextMatch.Some? {
        var potentialEnd := startPos + nextMatch.value.start;
        if potentialEnd < endPos {
          endPos := potentialEnd;
        }
      }
    }
  }

  /**
   * `end_pos` is the smallest start, counted from `start_pos`, of a match of
   * another section's pattern after `start_pos`, or the text length when
   * there is none; so `start_pos <= end_pos <= len(text)`.
   */
  lemma {:induction false} EndPosNearest(text: string, startPos: int, others: seq<string>, search: Search, n: nat)
    requires Sound(search) && 0 <= startPos <= |text| && n <= |others|
    ensures var e := EndPosUpTo(text, startPos, others, search, n);
      var rest := text[startPos..];
      && startPos <= e <= |text|
      && (forall j :: 0 <= j < n && search(others[j], rest).Some? ==> e <= startPos + search(others[j], rest).value.start)
      && (e == |text| || exists j :: 0 <= j < n && search(others[j], rest).Some? && e == startPos + search(others[j], rest).value.start)
  {
    var rest := text[startPos..];
    assert PySlice(text, startPos, |text|) == rest;
    if n > 0 {
      EndPosNearest(text, startPos, others, search, n - 1);
      var m := search(others[n - 1], rest);
      if m.Some? {
        assert 0 <= m.value.start <= |rest|;
      }
    }
  }

  /** The other patterns are exactly the patterns of `SECTION_PATTERNS` not among the section's own. */
  lemma OtherPatternsExcludeOwn(sections: seq<(string, seq<string>)>, patterns: seq<string>)
    ensures forall p :: p in OtherPatterns(sections, patterns) <==> p in AllPatterns(sections) && p !in patterns
  {
    FilterMembers(AllPatterns(sections), p => p !in patterns);
  }

  /**
   * The keyword pass for one pattern: the stripped text from the end of its
   * match to the nearest other section, when not empty.
   */
  function KeywordBody(text: string, pattern: string, patterns: seq<string>, st: Stage): (r: Option<string>)
    ensures r.Some? ==> |r.value| > 0
  {
    match st.search(pattern, text)
    case None => None
    case Some(m) =>
      var others := OtherPatterns(st.sections, patterns);
      var body := Strip(PySlice(text, m.end, EndPosUpTo(text, m.end, others, st.search, |others|)));
      if |body| > 0 then Some(body) else None
  }

  /** The keyword pass from the `i`-th pattern on: the first pattern that yields text. */
  function KeywordFrom(text: string, patterns: seq<string>, st: Stage, i: nat): Option<string>
    decreases |patterns| - i
  {
    if i >= |patterns| then None
    else
      var body := KeywordBody(text, patterns[i], patterns, st);
      if body.Some? then Some(st.clean(body.value)) else KeywordFrom(text, patterns, st, i + 1)
  }

  /** What `find_section_text` returns: the numbered pass, else the keyword pass. */
  function SectionText(text: string, patterns: seq<string>, st: Stage): Option<string>
  {
    var numbered := NumberedFrom(text, patterns, st, 0);
    if numbered.Some? then numbered else KeywordFrom(text, patterns, st, 0)
  }

  /** Python `find_section_text(summary_text, patterns)`. */
  method FindSectionText(text: string, patterns: seq<string>, st: Stage) returns (r: Option<string>)
    ensures r == SectionText(text, patterns, st)
  {
    for i := 0 to |st.numbered|
      invariant NumberedFrom(text, patterns, st, 0) == NumberedFrom(text, patterns, st, i)
    {
      var sectionKey := st.numbered[i].0;
      var numberPattern := st.numbered[i].1;
      if Mentioned(sectionKey, patterns) {
        var numberMatch := st.searchNumbered(numberPattern, text);
        if numberMatch.Some? {
          var sectionText := Strip(PySlice(text, numberMatch.value.start, numberMatch.value.end));
          sectionText := Strip(st.dropHeading(sectionText));
          if |sectionText| > 50 {
            return Some(st.clean(sectionText));
          }
        }
      }
    }
    for i := 0 to |patterns|
      invariant KeywordFrom(text, patterns, st, 0) == KeywordFrom(text, patterns, st, i)
    {
      var startMatch := st.search(patterns[i], text);
      if startMatch.Some? {
        var startPos := startMatch.value.end;
        var allOtherPatterns := OtherPatterns(st.sections, patterns);
        var endPos := NearestBoundary(text, startPos, allOtherPatterns, st.search);
        var sectionText := Strip(PySlice(text, startPos, endPos));
        if |sectionText| > 0 {
          return Some(st.clean(sectionText));
        }
      }
    }
    return None;
  }

  /** The numbered pass yields text only for a mentioned section whose body exceeds 50 characters. */
  lemma {:induction false} NumberedFromAccepted(text: string, patterns: seq<string>, st: Stage, i: nat)
    requires NumberedFrom(text, patterns, st, i).Some?
    ensures exists j ::
      && i <= j < |st.numbered|
      && Mentioned(st.numbered[j].0, patterns)
      && NumberedBody(text, st.numbered[j].1, st).Some?
      && |NumberedBody(text, st.numbered[j].1, st).value| > 50
      && NumberedFrom(text, patterns, st, i) == Some(st.clean(NumberedBody(text, st.numbered[j].1, st).value))
    decreases |st.numbered| - i
  {
    var key := st.numbered[i].0;
    var body := if Mentioned(key, patterns) then NumberedBody(text, st.numbered[i].1, st) else None;
    if body.None? {
      NumberedFromAccepted(text, patterns, st, i + 1);
    }
  }

  /** The keyword pass yields nothing exactly when no remaining pattern yields non-empty text. */
  lemma {:induction false} KeywordFromNone(text: string, patterns: seq<string>, st: Stage, i: nat)
    ensures KeywordFrom(text, patterns, st, i).None? <==>
      forall j :: i <= j < |patterns| ==> KeywordBody(text, patterns[j], patterns, st).None?
    decreases |patterns| - i
  {
    if i < |patterns| {
      KeywordFromNone(text, patterns, st, i + 1);
    }
  }

  /**
   * `find_section_text` returns `None` exactly when the numbered pass finds
   * nothing and no pattern yields non-empty text.
   */
  lemma SectionTextNone(text: string, patterns: seq<string>, st: Stage)
    ensures SectionText(text, patterns, st).None? <==>
      NumberedFrom(text, patterns, st, 0).None?
      && forall j :: 0 <= j < |patterns| ==> KeywordBody(text, patterns[j], patterns, st).None?
  {
    KeywordFromNone(text, patterns, st, 0);
  }

  // ---------------------------------------------------------------------
  // extract_sections_from_summary
  // ---------------------------------------------------------------------

  /** The dictionary before any section is searched: every key `None`. */
  const NoSections: Sections :=
    map[DeviceDescription := None, IndicationsForUse := None, DeviceComparison := None, PerformanceData := None]

  /** The dictionary after the first `n` sections have been searched. */
  function SectionsUpTo(text: string, st: Stage, n: nat): Sections
    requires n <= |st.sections|
  {
    if n == 0 then NoSections
    else SectionsUpTo(text, st, n - 1)[st.sections[n - 1].0 := SectionText(text, st.sections[n - 1].1, st)]
  }

  /** What `extract_sections_from_summary` returns. */
  function SummarySections(summaryText: Option<string>, st: Stage): Option<Sections>
  {
    if !HasText(summaryText) then None else Some(SectionsUpTo(summaryText.value, st, |st.sections|))
  }

  /** Python `extract_sections_from_summary(summary_text)`. */
  method ExtractSectionsFromSummary(summaryText: Option<string>, st: Stage) returns (sections: Option<Sections>)
    ensures sections == SummarySections(summaryText, st)
  {
    if summaryText.None? || |summaryText.value| == 0 || Strip(summaryText.value) == "" {
      return None;
    }
    var found := NoSections;
    for i := 0 to |st.sections|
      invariant found == SectionsUpTo(summaryText.value, st, i)
    {
      var sectionName := st.sections[i].0;
      var text := FindSectionText(summaryText.value, st.sections[i].1, st);
      found := found[sectionName := text];
    }
    return Some(found);
  }

  /**
   * No sections for a missing or blank summary text; otherwise a dictionary
   * with exactly the four section keys, each holding what
   * `find_section_text` finds with that section's patterns.
   */
  lemma SummarySectionsShape(summaryText: Option<string>, st: Stage)
    requires StandardKeys(st.sections)
    ensures SummarySections(summaryText, st).None? <==> !HasText(summaryText)
    ensures SummarySections(summaryText, st).Some? ==>
      var m := SummarySections(summaryText, st).value;
      && m.Keys == {DeviceDescription, IndicationsForUse, DeviceComparison, PerformanceData}
      && forall j :: 0 <= j < |st.sections| ==>
           m[st.sections[j].0] == SectionText(summaryText.value, st.sections[j].1, st)
  {
    if HasText(summaryText) {
      var t := summaryText.value;
      assert st.sections[0].0 == DeviceDescription && st.sections[1].0 == IndicationsForUse;
      assert st.sections[2].0 == DeviceComparison && st.sections[3].0 == PerformanceData;
      var m1 := NoSections[DeviceDescription := SectionText(t, st.sections[0].1, st)];
      assert SectionsUpTo(t, st, 1) == m1;
      var m2 := m1[IndicationsForUse := SectionText(t, st.sections[1].1, st)];
      assert SectionsUpTo(t, st, 2) == m2;
      var m3 := m2[DeviceComparison := SectionText(t, st.sections[2].1, st)];
      assert SectionsUpTo(t, st, 3) == m3;
      assert SectionsUpTo(t, st, 4) == m3[PerformanceData := SectionText(t, st.sections[3].1, st)];
    }
  }

  // ---------------------------------------------------------------------
  // process_fda_data
  // ---------------------------------------------------------------------

  /** The output line `process_fda_data` writes for a record. */
  function Processed(r: Record, st: Stage): Record
  {
    var text := Get(r.summaryText);
    if HasText(text) then
      r.(parsedSections := FieldOf(SummarySections(text, st)), parsingStatus := Present("success"))
    else
      r.(parsedSections := Null, parsingStatus := Present("no_summary_text"))
  }

  /** Python `process_fda_data`: the lines written and `processed_count`. */
  method ProcessFdaData(records: seq<Record>, st: Stage) returns (out: seq<Record>, processedCount: nat)
    ensures |out| == |records|
    ensures forall i :: 0 <= i < |records| ==> out[i] == Processed(records[i], st)
    ensures processedCount == |Filter(records, HasSummary)|
  {
    out := [];
    processedCount := 0;
    for i := 0 to |records|
      invariant |out| == i
      invariant forall j :: 0 <= j < i ==> out[j] == Processed(records[j], st)
      invariant processedCount == |Filter(records[..i], HasSummary)|
    {
      var originalData := records[i];
      FilterPrefix(records, i, HasSummary);
      var summaryText := Get(originalData.summaryText);
      var enhancedData;
      if summaryText.Some? && |summaryText.value| > 0 && |Strip(summaryText.value)| > 0 {
        var sections := ExtractSectionsFromSummary(summaryText, st);
        enhancedData := originalData.(parsedSections := FieldOf(sections), parsingStatus := Present("success"));
        processedCount := processedCount + 1;
      } else {
        enhancedData := originalData.(parsedSections := Null, parsingStatus := Present("no_summary_text"));
      }
      out := out + [enhancedData];
    }
    assert records[..|records|] == records;
  }

  /**
   * Each output line keeps the record's fields and sets two: status
   * "success" with the four sections exactly when the summary text is not
   * blank, else "no_summary_text" with `parsed_sections` null.
   */
  lemma ProcessedRecord(r: Record, st: Stage)
    requires StandardKeys(st.sections)
    ensures var o := Processed(r, st);
      && o.(parsedSections := r.parsedSections, parsingStatus := r.parsingStatus) == r
      && (Succeeded(o) <==> HasSummary(r))
      && (HasSummary(r) ==>
            && o.parsedSections.Present?
            && o.parsedSections.value.Keys == {DeviceDescription, IndicationsForUse, DeviceComparison, PerformanceData})
      && (!HasSummary(r) ==> o.parsedSections == Null && o.parsingStatus == Present("no_summary_text"))
  {
    SummarySectionsShape(Get(r.summaryText), st);
  }

  /** `processed_count` is the number of output lines with status "success". */
  lemma {:induction false} ProcessedCount(records: seq<Record>, out: seq<Record>, st: Stage)
    requires StandardKeys(st.sections)
    requires |out| == |records|
    requires forall i :: 0 <= i < |records| ==> out[i] == Processed(records[i], st)
    ensures |Filter(records, HasSummary)| == |Filter(out, Succeeded)|
  {
    if |records| > 0 {
      var n := |records| - 1;
      ProcessedCount(records[..n], out[..n], st);
      ProcessedRecord(records[n], st);
    }
  }
}
