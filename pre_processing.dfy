/**
 * `pre_processing.py`: the earlier, stand-alone pipeline from a directory of
 * 510(k) PDFs to question/answer pairs: cut the text from the "510(k)
 * Summary" heading on, pick four labelled fields, and ask up to two questions.
 */
module PreProcessing {
  import opened TextUtil
  import opened SeqUtil
  import opened FdaRecord
  import opened Regex

  // ---------------------------------------------------------------------
  // find_510k_summary
  // ---------------------------------------------------------------------

  /** The heading pattern, searched with `re.IGNORECASE`. */
  const SummaryPattern: string := "510\\(k\\)\\s+Summary"

  /** Python `find_510k_summary(full_text)`: the text from the heading on, `None` without one. */
  function Find510kSummary(fullText: string, search: Search): Option<string>
  {
    var m := search(SummaryPattern, fullText);
    if m.None? then None else Some(PySlice(fullText, m.value.start, |fullText|))
  }

  /**
   * Without a match there is no summary; with one, the summary is the suffix
   * of the text that starts where the match starts, so it begins with the
   * matched heading.
   */
  lemma SummaryIsSuffix(fullText: string, search: Search)
    requires Sound(search)
    ensures Find510kSummary(fullText, search).None? <==> search(SummaryPattern, fullText).None?
    ensures Find510kSummary(fullText, search).Some? ==>
      var m := search(SummaryPattern, fullText).value;
      var summary := Find510kSummary(fullText, search).value;
      && summary == fullText[m.start..]
      && fullText == fullText[..m.start] + summary
      && StartsWith(summary, Group0(fullText, m))
  {
    var m := search(SummaryPattern, fullText);
    if m.Some? {
      var s := m.value.start;
      assert fullText == fullText[..s] + fullText[s..];
      assert Group0(fullText, m.value) == fullText[s..m.value.end];
    }
  }

  // ---------------------------------------------------------------------
  // extract_structured_info
  // ---------------------------------------------------------------------

  /** The extracted fields: `k_number` and the fields whose pattern matched. */
  type Info = map<string, string>

  const KNumberKey: string := "k_number"
  const DeviceNameKey: string := "device_name"
  const IndicationsKey: string := "indications_for_use"
  const DescriptionKey: string := "device_description"

  /** `section_patterns`, in insertion order; each is searched with `re.IGNORECASE`. */
  const StructuredPatterns: seq<(string, string)> := [
    (DeviceNameKey, "Trade\\s*Name\\s*:\\s*(.*)"),
    (IndicationsKey, "Indications\\s+for\\s+Use\\s*:\\s*(.*)"),
    (DescriptionKey, "Device\\s+Description\\s*:\\s*(.*)"),
    ("predicate_comparison", "Comparison\\s+to\\s+Predicate\\s+Device\\s*:\\s*(.*)")
  ]

  /** `match.group(1).strip().split('\n')[0]`. */
  function FieldValue(m: Match): string
  {
    FirstLine(Strip(m.group1))
  }

  /** The fields after the loop has visited `patterns`. */
  function InfoFrom(summary: string, kNumber: string, search: Search, patterns: seq<(string, string)>): Info
  {
    if patterns == [] then map[KNumberKey := kNumber]
    else
      var prev := InfoFrom(summary, kNumber, search, patterns[..|patterns| - 1]);
      var (key, pattern) := patterns[|patterns| - 1];
      var m := search(pattern, summary);
      if m.Some? then prev[key := FieldValue(m.value)] else prev
  }

  /** Python `extract_structured_info(summary_text, k_number)`. */
  method ExtractStructuredInfo(summaryText: string, kNumber: string, search: Search) returns (extractedData: Info)
    ensures extractedData == InfoFrom(summaryText, kNumber, search, StructuredPatterns)
  {
    extractedData := map[KNumberKey := kNumber];
    for i := 0 to |StructuredPatterns|
      invariant extractedData == InfoFrom(summaryText, kNumber, search, StructuredPatterns[..i])
    {
      assert StructuredPatterns[..i + 1][..i] == StructuredPatterns[..i];
      var (key, pattern) := StructuredPatterns[i];
      var m := search(pattern, summaryText);
      if m.Some? {
        extractedData := extractedData[key := FirstLine(Strip(m.value.group1))];
      }
    }
    assert StructuredPatterns[..|StructuredPatterns|] == StructuredPatterns;
  }

  /** The keys of a pattern table are distinct and none is `k_number`. */
  predicate FreshKeys(patterns: seq<(string, string)>)
  {
    && (forall j :: 0 <= j < |patterns| ==> patterns[j].0 != KNumberKey)
    && (forall j, l :: 0 <= j < l < |patterns| ==> patterns[j].0 != patterns[l].0)
  }

  lemma ScriptKeysFresh()
    ensures FreshKeys(StructuredPatterns)
  {
  }

  /** `k_number` is always there with the given value, and every other key is a pattern's. */
  lemma {:induction false} InfoKeys(summary: string, kNumber: string, search: Search, patterns: seq<(string, string)>)
    requires FreshKeys(patterns)
    ensures var info := InfoFrom(summary, kNumber, search, patterns);
      && KNumberKey in info && info[KNumberKey] == kNumber
      && (forall key :: key in info ==> key == KNumberKey || exists j :: 0 <= j < |patterns| && patterns[j].0 == key)
  {
    if patterns != [] {
      var init := patterns[..|patterns| - 1];
      assert FreshKeys(init);
      InfoKeys(summary, kNumber, search, init);
    }
  }

  /**
   * A field is there exactly when its pattern matched, and then holds the
   * first line of the stripped group.
   */
  lemma {:induction false} InfoFields(summary: string, kNumber: string, search: Search, patterns: seq<(string, string)>)
    requires FreshKeys(patterns)
    ensures var info := InfoFrom(summary, kNumber, search, patterns);
      forall j :: 0 <= j < |patterns| ==>
        && (patterns[j].0 in info <==> search(patterns[j].1, summary).Some?)
        && (search(patterns[j].1, summary).Some? ==> info[patterns[j].0] == FieldValue(search(patterns[j].1, summary).value))
  {
    if patterns != [] {
      var init := patterns[..|patterns| - 1];
      var (key, pattern) := patterns[|patterns| - 1];
      assert FreshKeys(init);
      InfoFields(summary, kNumber, search, init);
      var info := InfoFrom(summary, kNumber, search, patterns);
      var prev := InfoFrom(summary, kNumber, search, init);
      var m := search(pattern, summary);
      assert info == if m.Some? then prev[key := FieldValue(m.value)] else prev;
      InfoKeys(summary, kNumber, search, init);
      assert key !in prev;
      forall j | 0 <= j < |patterns|
        ensures patterns[j].0 in info <==> search(patterns[j].1, summary).Some?
        ensures search(patterns[j].1, summary).Some? ==> info[patterns[j].0] == FieldValue(search(patterns[j].1, summary).value)
      {
        if j < |init| {
          assert patterns[j] == init[j] && patterns[j].0 != key;
        }
      }
    }
  }

  /** An extracted field is a single line: it never holds a newline. */
  lemma FieldIsOneLine(m: Match)
    ensures '\n' !in FieldValue(m)
    ensures StartsWith(Strip(m.group1), FieldValue(m))
  {
  }

  // ---------------------------------------------------------------------
  // generate_qa_pairs
  // ---------------------------------------------------------------------

  /** One `{"question": ..., "answer": ...}` entry. */
  datatype Qa = Qa(question: string, answer: string)

  /** `info_dict.get(key)`. */
  function Lookup(info: Info, key: string): Option<string>
  {
    if key in info then Some(info[key]) else None
  }

  function IntendedUseQuestion(name: string, kNumber: string): string
  {
    "What is the intended use for the device '" + name + "' (K-number: " + kNumber + ")?"
  }

  function DescribeQuestion(name: string): string
  {
    "Can you describe the device '" + name + "'?"
  }

  /**
   * Python `generate_qa_pairs(info_dict)`. `Err(key)` is the `KeyError` that
   * `info_dict['k_number']` raises when the first question is asked without
   * a K-number.
   */
  function GenerateQaPairs(info: Info): Result<seq<Qa>, string>
  {
    var name := Lookup(info, DeviceNameKey);
    var indications := Lookup(info, IndicationsKey);
    var description := Lookup(info, DescriptionKey);
    var first: Result<seq<Qa>, string> :=
      if Truthy(name) && Truthy(indications) then
        if KNumberKey in info then Ok([Qa(IntendedUseQuestion(name.value, info[KNumberKey]), indications.value)])
        else Err(KNumberKey)
      else Ok([]);
    if first.Err? then first
    else Ok(first.value + (if Truthy(name) && Truthy(description) then [Qa(DescribeQuestion(name.value), description.value)] else []))
  }

  /**
   * At most two pairs: the intended-use pair exactly when the device name and
   * the indications are both non-empty, the description pair exactly when the
   * device name and the description are; each answer is that field's value.
   * Only a missing `k_number` raises, and only when the first pair is due.
   */
  lemma QaPairsShape(info: Info)
    ensures var name := Lookup(info, DeviceNameKey);
      var indications := Lookup(info, IndicationsKey);
      var description := Lookup(info, DescriptionKey);
      var askUse := Truthy(name) && Truthy(indications);
      var askDescription := Truthy(name) && Truthy(description);
      var r := GenerateQaPairs(info);
      && (r.Err? <==> askUse && KNumberKey !in info)
      && (r.Ok? ==>
            && |r.value| == (if askUse then 1 else 0) + (if askDescription then 1 else 0)
            && |r.value| <= 2
            && (askUse ==> r.value[0] == Qa(IntendedUseQuestion(name.value, info[KNumberKey]), indications.value))
            && (askDescription ==> r.value[|r.value| - 1] == Qa(DescribeQuestion(name.value), description.value)))
  {
  }

  /** The fields `extract_structured_info` returns never make `generate_qa_pairs` raise. */
  lemma ExtractedInfoAsks(summary: string, kNumber: string, search: Search)
    ensures GenerateQaPairs(InfoFrom(summary, kNumber, search, StructuredPatterns)).Ok?
  {
    ScriptKeysFresh();
    InfoKeys(summary, kNumber, search, StructuredPatterns);
  }

  // ---------------------------------------------------------------------
  // main
  // ---------------------------------------------------------------------

  /** `extract_text_from_pdf(pdf_path)` of a file of the directory; `None` when reading raises. */
  type PdfText = string -> Option<string>

  predicate IsPdfName(filename: string)
  {
    EndsWith(filename, ".pdf")
  }

  /** `filename.replace(".pdf", "")`. */
  function KNumberOf(filename: string): string
  {
    ReplaceAll(filename, ".pdf", "")
  }

  /** The pairs one directory entry contributes to `final_dataset`. */
  function FileQa(filename: string, pdfText: PdfText, search: Search): seq<Qa>
  {
    if !IsPdfName(filename) then []
    else
      var fullText := pdfText(filename);
      if fullText.None? || fullText.value == [] then []
      else
        var summary := Find510kSummary(fullText.value, search);
        if summary.None? || summary.value == [] then []
        else
          ExtractedInfoAsks(summary.value, KNumberOf(filename), search);
          GenerateQaPairs(InfoFrom(summary.value, KNumberOf(filename), search, StructuredPatterns)).value
  }

  /** `final_dataset` after the directory entries `filenames`, in listing order. */
  function Dataset(filenames: seq<string>, pdfText: PdfText, search: Search): seq<Qa>
  {
    if filenames == [] then []
    else Dataset(filenames[..|filenames| - 1], pdfText, search) + FileQa(filenames[|filenames| - 1], pdfText, search)
  }

  /** Python `main()` over the listing of the input directory: the pairs it saves. */
  method BuildDataset(filenames: seq<string>, pdfText: PdfText, search: Search) returns (finalDataset: seq<Qa>)
    ensures finalDataset == Dataset(filenames, pdfText, search)
  {
    finalDataset := [];
    for i := 0 to |filenames|
      invariant finalDataset == Dataset(filenames[..i], pdfText, search)
    {
      assert filenames[..i + 1][..i] == filenames[..i];
      var filename := filenames[i];
      if EndsWith(filename, ".pdf") {
        var kNumber := ReplaceAll(filename, ".pdf", "");
        var fullText := pdfText(filename);
        if fullText.None? || |fullText.value| == 0 {
          continue;
        }
        var summaryText := Find510kSummary(fullText.value, search);
        if summaryText.None? || |summaryText.value| == 0 {
          continue;
        }
        var structuredInfo := ExtractStructuredInfo(summaryText.value, kNumber, search);
        ExtractedInfoAsks(summaryText.value, kNumber, search);
        var qaPairs := GenerateQaPairs(structuredInfo).value;
        if |qaPairs| > 0 {
          finalDataset := finalDataset + qaPairs;
        }
      }
    }
    assert filenames[..|filenames|] == filenames;
  }

  /**
   * A file contributes only when its name ends in ".pdf", its text is not
   * empty and a summary heading is found, and then at most two pairs.
   */
  lemma FileQaShape(filename: string, pdfText: PdfText, search: Search)
    ensures |FileQa(filename, pdfText, search)| <= 2
    ensures FileQa(filename, pdfText, search) != [] ==>
      && IsPdfName(filename)
      && pdfText(filename).Some? && pdfText(filename).value != []
      && Find510kSummary(pdfText(filename).value, search).Some?
  {
    var fullText := pdfText(filename);
    if IsPdfName(filename) && fullText.Some? && fullText.value != [] {
      var summary := Find510kSummary(fullText.value, search);
      if summary.Some? && summary.value != [] {
        var info := InfoFrom(summary.value, KNumberOf(filename), search, StructuredPatterns);
        QaPairsShape(info);
        ExtractedInfoAsks(summary.value, KNumberOf(filename), search);
        assert FileQa(filename, pdfText, search) == GenerateQaPairs(info).value;
      }
    }
  }

  /** An entry whose name does not end in ".pdf" adds nothing. */
  lemma NonPdfAddsNothing(filename: string, pdfText: PdfText, search: Search)
    requires !IsPdfName(filename)
    ensures FileQa(filename, pdfText, search) == []
  {
  }

  /** One entry more adds its pairs at the end. */
  lemma DatasetSnoc(filenames: seq<string>, filename: string, pdfText: PdfText, search: Search)
    ensures Dataset(filenames + [filename], pdfText, search) == Dataset(filenames, pdfText, search) + FileQa(filename, pdfText, search)
  {
    assert (filenames + [filename])[..|filenames|] == filenames;
  }

  /** Only the ".pdf" entries of the listing count. */
  lemma {:induction false} DatasetOfPdfs(filenames: seq<string>, pdfText: PdfText, search: Search)
    ensures Dataset(filenames, pdfText, search) == Dataset(Filter(filenames, IsPdfName), pdfText, search)
  {
    if filenames != [] {
      var init := filenames[..|filenames| - 1];
      var last := filenames[|filenames| - 1];
      DatasetOfPdfs(init, pdfText, search);
      var kept := Filter(init, IsPdfName);
      assert Dataset(filenames, pdfText, search) == Dataset(kept, pdfText, search) + FileQa(last, pdfText, search);
      if IsPdfName(last) {
        assert Filter(filenames, IsPdfName) == kept + [last];
        DatasetSnoc(kept, last, pdfText, search);
      } else {
        assert Filter(filenames, IsPdfName) == kept;
        NonPdfAddsNothing(last, pdfText, search);
      }
    }
  }

  /** Each file adds at most two pairs. */
  lemma {:induction false} DatasetBound(filenames: seq<string>, pdfText: PdfText, search: Search)
    ensures |Dataset(filenames, pdfText, search)| <= 2 * |filenames|
  {
    if filenames != [] {
      DatasetBound(filenames[..|filenames| - 1], pdfText, search);
      FileQaShape(filenames[|filenames| - 1], pdfText, search);
    }
  }

  /** A name with no dot, such as a K-number, followed by ".pdf" gives that name back. */
  lemma {:induction false} KNumberOfPdfName(stem: string)
    requires '.' !in stem
    ensures KNumberOf(stem + ".pdf") == stem
  {
    if stem == [] {
      assert stem + ".pdf" == ".pdf";
    } else {
      var s := stem + ".pdf";
      assert s[0] == stem[0] && s[0] != '.';
      assert s[1..] == stem[1..] + ".pdf";
      KNumberOfPdfName(stem[1..]);
    }
  }
}
