/**
 * The records the stages of the FDA 510(k) pipeline pass to each other, as
 * the JSON objects read back from their line-delimited files
 * (BioLLM/fda_data_parsing/). The crawl writes string-or-null fields; the
 * section stage adds `parsed_sections` and `parsing_status`.
 */
module FdaRecord {
  import opened TextUtil

  /** One key of a JSON object: absent, `null`, or holding a value. */
  datatype Field<T> = Absent | Null | Present(value: T)

  /** Python `d.get(key)`: the value, or `None` both for an absent key and for `null`. */
  function Get<T>(f: Field<T>): Option<T>
  {
    if f.Present? then Some(f.value) else None
  }

  /** Python `d.get(key, default)`: the default only for an absent key; `null` stays `None`. */
  function GetOr<T>(f: Field<T>, default: T): Option<T>
  {
    match f
    case Absent => Some(default)
    case Null => None
    case Present(v) => Some(v)
  }

  /** The JSON form of an optional value: `None` is written as `null`. */
  function FieldOf<T>(v: Option<T>): Field<T>
  {
    if v.Some? then Present(v.value) else Null
  }

  /** Python's truth value of an optional string. */
  predicate Truthy(v: Option<string>)
  {
    v.Some? && |v.value| > 0
  }

  /** Python `v and v.strip()` as a test: a string with something besides white space. */
  predicate HasText(v: Option<string>)
  {
    v.Some? && |Strip(v.value)| > 0
  }

  /** Python `f"{v}"` of an optional string: `None` is shown as "None". */
  function Show(v: Option<string>): string
  {
    if v.Some? then v.value else "None"
  }

  /** The sections of one 510(k) summary by key, `None` where a section was not found. */
  type Sections = map<string, Option<string>>

  const DeviceDescription: string := "device_description"
  const IndicationsForUse: string := "indications_for_use"
  const DeviceComparison: string := "device_comparison"
  const PerformanceData: string := "performance_data"

  /** The four section keys, in the order the stages visit them. */
  const SectionKeys: seq<string> := [DeviceDescription, IndicationsForUse, DeviceComparison, PerformanceData]

  /** One line of a pipeline file: the fields the stages read and write. */
  datatype Record = Record(
    kNumber: Field<string>,
    deviceName: Field<string>,
    applicant: Field<string>,
    decisionDate: Field<string>,
    detailLink: Field<string>,
    summaryLink: Field<string>,
    summaryText: Field<string>,
    pdfType: Field<string>,
    parsedSections: Field<Sections>,
    parsingStatus: Field<string>)

  /** The record has a summary text with something besides white space. */
  predicate HasSummary(r: Record)
  {
    HasText(Get(r.summaryText))
  }

  /** The record's `parsing_status` is "success". */
  predicate Succeeded(r: Record)
  {
    Get(r.parsingStatus) == Some("success")
  }
}
