/**
 * `convert_script.py`: the JSONL output of the section-parsing stage turned
 * into one JSON document, with parsing statistics or as a bare array.
 */
module Convert {
  import opened TextUtil
  import opened SeqUtil
  import opened FdaRecord

  /** One input line: the record `json.loads` gives, `None` when it raises `JSONDecodeError`. */
  type Line = Option<Record>

  /** The records of the lines that parse, in input order. */
  function Parsed(lines: seq<Line>): (r: seq<Record>)
    ensures |r| <= |lines|
  {
    if lines == [] then []
    else
      var last := lines[|lines| - 1];
      Parsed(lines[..|lines| - 1]) + (if last.Some? then [last.value] else [])
  }

  predicate Malformed(line: Line)
  {
    line.None?
  }

  /** `record.get('parsing_status') == 'no_summary_text'`. */
  predicate NoSummaryText(r: Record)
  {
    Get(r.parsingStatus) == Some("no_summary_text")
  }

  /** `data["metadata"]`; `converted_at` is the clock reading taken at the start. */
  datatype Metadata = Metadata(
    convertedAt: string,
    sourceFile: string,
    totalRecords: nat,
    successfulParsing: nat,
    failedParsing: nat)

  /** The document written: the metadata and the records. */
  datatype Converted = Converted(metadata: Metadata, records: seq<Record>)

  /** Parsing one line more appends its record when it parses. */
  lemma ParsedPrefix(lines: seq<Line>, i: nat)
    requires i < |lines|
    ensures Parsed(lines[..i + 1]) == Parsed(lines[..i]) + (if lines[i].Some? then [lines[i].value] else [])
  {
    assert lines[..i + 1][..i] == lines[..i];
  }

  /** Python `convert_jsonl_to_json(jsonl_file, json_file)`: the document it writes. */
  method ConvertJsonlToJson(jsonlFile: string, now: string, lines: seq<Line>) returns (data: Converted)
    ensures data.records == Parsed(lines)
    ensures data.metadata.convertedAt == now && data.metadata.sourceFile == jsonlFile
    ensures data.metadata.totalRecords == |Parsed(lines)|
    ensures data.metadata.successfulParsing == |Filter(Parsed(lines), Succeeded)|
    ensures data.metadata.failedParsing == |Filter(Parsed(lines), NoSummaryText)|
  {
    data := Converted(Metadata(now, jsonlFile, 0, 0, 0), []);
    for i := 0 to |lines|
      invariant data.records == Parsed(lines[..i])
      invariant data.metadata.convertedAt == now && data.metadata.sourceFile == jsonlFile
      invariant data.metadata.successfulParsing == |Filter(data.records, Succeeded)|
      invariant data.metadata.failedParsing == |Filter(data.records, NoSummaryText)|
    {
      ParsedPrefix(lines, i);
      var line := lines[i];
      if line.None? {
        continue;
      }
      var record := line.value;
      FilterSnoc(data.records, record, Succeeded);
      FilterSnoc(data.records, record, NoSummaryText);
      data := data.(records := data.records + [record]);
      var parsingStatus := Get(record.parsingStatus);
      if parsingStatus == Some("success") {
        data := data.(metadata := data.metadata.(successfulParsing := data.metadata.successfulParsing + 1));
      } else if parsingStatus == Some("no_summary_text") {
        data := data.(metadata := data.metadata.(failedParsing := data.metadata.failedParsing + 1));
      }
    }
    assert lines[..|lines|] == lines;
    data := data.(metadata := data.metadata.(totalRecords := |data.records|));
  }

  /** Python `convert_jsonl_to_json_simple(jsonl_file, json_file)`: the array it writes. */
  method ConvertJsonlToJsonSimple(lines: seq<Line>) returns (records: seq<Record>)
    ensures records == Parsed(lines)
  {
    records := [];
    for i := 0 to |lines|
      invariant records == Parsed(lines[..i])
    {
      ParsedPrefix(lines, i);
      var line := lines[i];
      if line.Some? {
        records := records + [line.value];
      }
    }
    assert lines[..|lines|] == lines;
  }

  /**
   * A record is kept exactly when some line parses to it, and the lines that
   * do not parse are the only ones dropped.
   */
  lemma {:induction false} ParsedMembers(lines: seq<Line>)
    ensures forall r :: r in Parsed(lines) <==> Some(r) in lines
    ensures |Parsed(lines)| + |Filter(lines, Malformed)| == |lines|
  {
    if lines != [] {
      var init := lines[..|lines| - 1];
      ParsedMembers(init);
      assert lines == init + [lines[|lines| - 1]];
    }
  }

  /**
   * The reading streams: the records of two runs of lines are those of the
   * first followed by those of the second.
   */
  lemma {:induction false} ParsedAppend(a: seq<Line>, b: seq<Line>)
    ensures Parsed(a + b) == Parsed(a) + Parsed(b)
    decreases |b|
  {
    if b == [] {
      assert a + b == a;
    } else {
      var init := b[..|b| - 1];
      assert (a + b)[..|a + b| - 1] == a + init;
      ParsedAppend(a, init);
    }
  }

  /**
   * A status is "success" or "no_summary_text" or neither, so the two
   * counters together never exceed `total_records`.
   */
  lemma CountsWithinTotal(lines: seq<Line>)
    ensures var records := Parsed(lines);
      |Filter(records, Succeeded)| + |Filter(records, NoSummaryText)| <= |records|
  {
    DisjointFilters(Parsed(lines), Succeeded, NoSummaryText);
  }
}
