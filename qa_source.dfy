/**
 * The question-and-answer stage of the FDA 510(k) pipeline
 * (BioLLM/fda_data_parsing/source.py): two chat exchanges per parsed
 * section of a record, the keyword digests used as answers, and the two
 * outputs, one tagged exchange per line and one structured dataset.
 */
module QaSource {
  import opened TextUtil
  import opened SeqUtil
  import opened FdaRecord

  /** One chat message. */
  datatype Message = Message(role: string, content: string)

  /** One training example: `{"messages": [...]}`. */
  datatype QaPair = QaPair(messages: seq<Message>)

  /** The exchange a question and its answer make. */
  function Exchange(question: string, answer: string): QaPair
  {
    QaPair([Message("user", question), Message("assistant", answer)])
  }

  /** A user message followed by an assistant message. */
  predicate IsExchange(p: QaPair)
  {
    |p.messages| == 2 && p.messages[0].role == "user" && p.messages[1].role == "assistant"
  }

  // ---------------------------------------------------------------------
  // The keyword helpers
  // ---------------------------------------------------------------------

  /** The texts of the table entries whose keyword occurs in `s.lower()`, in table order. */
  function Matched(s: string, table: seq<(string, string)>): (r: seq<string>)
    ensures |r| <= |table|
  {
    if |table| == 0 then []
    else
      var last := table[|table| - 1];
      Matched(s, table[..|table| - 1]) + (if ContainsLower(s, last.0) then [last.1] else [])
  }

  /**
   * An entry's text is listed when its keyword occurs, and a listed text
   * belongs to an entry whose keyword occurs; nothing is listed exactly
   * when no keyword occurs.
   */
  lemma {:induction false} MatchedEntries(s: string, table: seq<(string, string)>)
    ensures forall j :: 0 <= j < |table| && ContainsLower(s, table[j].0) ==> table[j].1 in Matched(s, table)
    ensures forall x :: x in Matched(s, table) ==>
      exists j :: 0 <= j < |table| && table[j].1 == x && ContainsLower(s, table[j].0)
    ensures |Matched(s, table)| == 0 <==> forall j :: 0 <= j < |table| ==> !ContainsLower(s, table[j].0)
  {
    if |table| > 0 {
      var init := table[..|table| - 1];
      MatchedEntries(s, init);
      assert forall j :: 0 <= j < |init| ==> init[j] == table[j];
    }
  }

  const MaterialTable: seq<(string, string)> := [
    ("titanium grade 4", "- Unalloyed Titanium Grade 4 (ASTM F67): 임플란트 본체용"),
    ("ti-6al-4v", "- Titanium Alloy Ti-6Al-4V (ASTM F136): 어버트먼트 및 나사용"),
    ("anodized", "- Anodic oxidation (anodization): 표면 처리"),
    ("dlc", "- DLC (Diamond Like Carbon) coating: 나사 표면 코팅"),
    ("soluble salt", "- 가용성 염 보호층: 생체적합성 향상")
  ]

  /** Python `extract_materials_from_description`. */
  function Materials(description: string): string
  {
    var materials := Matched(description, MaterialTable);
    if |materials| > 0 then Join(materials, "\n") else "재료 정보:\n" + Take(description, 400) + "..."
  }

  /** The eight lines added for an implant. */
  const ImplantRequirements: seq<string> := [
    "ISO 10993 분류: Implant (조직/뼈 접촉)",
    "접촉 지속시간: Permanent (30일 이상)",
    "필수 테스트:",
    "  • 세포독성 (ISO 10993-5)",
    "  • 감작성/자극성 (ISO 10993-10)",
    "  • 유전독성 (ISO 10993-3)",
    "  • 임플란트 반응 (ISO 10993-6)",
    "  • 전신독성 (ISO 10993-11)"
  ]

  const OralRequirement: string := "  • 구강 내 환경 적합성 검증 필요"

  /** The requirement lines of `generate_biocompatibility_requirements`. */
  function RequirementLines(indications: string): seq<string>
  {
    (if ContainsLower(indications, "implant") then ImplantRequirements else [])
    + (if ContainsLower(indications, "dental") then [OralRequirement] else [])
  }

  /** Python `generate_biocompatibility_requirements` (the device name is not used). */
  function Requirements(indications: string): string
  {
    Join(RequirementLines(indications), "\n") + "\n\n원문:\n" + Take(indications, 300) + "..."
  }

  /**
   * The eight implant lines come first exactly when "implant" occurs, and
   * the oral line comes last exactly when "dental" occurs.
   */
  lemma RequirementLinesShape(indications: string)
    ensures var lines := RequirementLines(indications);
      && |lines| == (if ContainsLower(indications, "implant") then 8 else 0)
                    + (if ContainsLower(indications, "dental") then 1 else 0)
      && (ContainsLower(indications, "implant") ==> lines[..8] == ImplantRequirements)
      && (ContainsLower(indications, "dental") ==> lines[|lines| - 1] == OralRequirement)
      && (!ContainsLower(indications, "dental") ==> OralRequirement !in lines)
  {
    if !ContainsLower(indications, "dental") {
      assert |OralRequirement| == 21;
      assert forall j :: 0 <= j < 8 ==> |ImplantRequirements[j]| != 21;
    }
  }

  /** The requirements answer always ends with the first 300 characters of the input and "...". */
  lemma RequirementsTail(indications: string)
    ensures EndsWith(Requirements(indications), Take(indications, 300) + "...")
  {
    var tail := Take(indications, 300) + "...";
    var r := Requirements(indications);
    var head := Join(RequirementLines(indications), "\n") + "\n\n원문:\n";
    assert r == head + tail;
    assert r[|r| - |tail|..] == tail;
  }

  const ImprovementTable: seq<(string, string)> := [
    ("tiultra", "• TiUltra 표면 기술: 향상된 osseointegration"),
    ("soluble salt", "• 가용성 염 보호층 추가: 초기 치유 촉진"),
    ("anodized", "• Anodized 표면: 기존 machined 표면 대비 개선"),
    ("conical connection", "• Conical connection: 기계적 안정성 향상")
  ]

  /** Python `analyze_material_improvements`. */
  function Improvements(comparison: string): string
  {
    Join(Matched(comparison, ImprovementTable), "\n") + "\n\n상세 비교:\n" + Take(comparison, 400) + "..."
  }

  const ResultTable: seq<(string, string)> := [
    ("iso 10993", "✓ ISO 10993-1 생체적합성 검증 완료"),
    ("fatigue", "✓ 피로도 테스트 (ISO 14801) 통과"),
    ("sterilization", "✓ 감마선 살균 검증 (SAL 10⁻⁶)"),
    ("survival rate", "✓ 임상 생존율: 97.4% - 99.5%"),
    ("endotoxin", "✓ 내독소 검사 통과")
  ]

  /** Python `extract_biocompatibility_results`. */
  function BiocompatibilityResults(performance: string): string
  {
    Join(Matched(performance, ResultTable), "\n") + "\n\n세부 결과:\n" + Take(performance, 500) + "..."
  }

  /**
   * Without a matching keyword the materials digest is the fallback built
   * from the first 400 characters; with one it joins the matched lines,
   * among them that keyword's line.
   */
  lemma MaterialsShape(description: string)
    ensures (forall j :: 0 <= j < |MaterialTable| ==> !ContainsLower(description, MaterialTable[j].0))
            ==> Materials(description) == "재료 정보:\n" + Take(description, 400) + "..."
    ensures forall j :: 0 <= j < |MaterialTable| && ContainsLower(description, MaterialTable[j].0) ==>
      && Materials(description) == Join(Matched(description, MaterialTable), "\n")
      && MaterialTable[j].1 in Matched(description, MaterialTable)
  {
    MatchedEntries(description, MaterialTable);
  }

  // ---------------------------------------------------------------------
  // generate_qa_pairs_from_sections
  // ---------------------------------------------------------------------

  /** Python `parsed_sections.get(key)`. */
  function SectionOf(m: Sections, key: string): Option<string>
  {
    if key in m then m[key] else None
  }

  /** `parsed_sections` as `device_data.get('parsed_sections', {})` reads it, `None` when falsy. */
  function ParsedSections(r: Record): Option<Sections>
  {
    var sections := GetOr(r.parsedSections, map[]);
    if sections.Some? && |sections.value| > 0 then sections else None
  }

  /**
   * The eight exchanges the stage writes, one per question, holding what
   * their text is made of; `Render` writes them out.
   */
  datatype Pair =
    | MaterialAnalysis(k: string, name: string, desc: string)
    | MaterialList(name: string, desc: string)
    | RequirementList(indications: string)
    | ClinicalUse(k: string, indications: string)
    | ImprovementList(comparison: string)
    | ComparisonSummary(comparison: string)
    | ResultList(performance: string)
    | TestSummary(performance: string)

  /** The question and the answer of an exchange. */
  function Text(p: Pair): (string, string)
  {
    match p
    case MaterialAnalysis(k, name, desc) =>
      (k + " 임플란트 시스템의 재료 구성을 분석해주세요.",
       "Device: " + name + "\n\n재료 구성 분석:\n" + Take(desc, 800) + "...")
    case MaterialList(name, desc) =>
      (name + "에서 사용된 생체적합성 재료는 무엇인가요?", Materials(desc))
    case RequirementList(indications) =>
      ("이 의료기기의 생체적합성 요구사항은 무엇인가요?", Requirements(indications))
    case ClinicalUse(k, indications) =>
      (k + "의 임상 적용 분야는?", "적응증:\n" + Take(indications, 500) + "...")
    case ImprovementList(comparison) =>
      ("기존 제품 대비 재료적 개선사항은 무엇인가요?", Improvements(comparison))
    case ComparisonSummary(comparison) =>
      ("predicate device와의 생체적합성 비교 결과는?", "비교 분석:\n" + Take(comparison, 600) + "...")
    case ResultList(performance) =>
      ("이 재료의 생체적합성 검증 결과는?", BiocompatibilityResults(performance))
    case TestSummary(performance) =>
      ("ISO 10993 테스트 결과를 요약해주세요.", "테스트 결과:\n" + Take(performance, 700) + "...")
  }

  /** The `messages` object of an exchange. */
  function Render(p: Pair): QaPair
  {
    Exchange(Text(p).0, Text(p).1)
  }

  /** Every exchange is one user message followed by one assistant message. */
  lemma RenderIsExchange(p: Pair)
    ensures IsExchange(Render(p))
    ensures Render(p).messages[0].content == Text(p).0 && Render(p).messages[1].content == Text(p).1
  {
  }

  /** The exchanges of the section `key` of `m` when it is truthy, else none. */
  function SectionPairs(m: Sections, key: string, k: string, name: string): seq<Pair>
  {
    var text := SectionOf(m, key);
    if !Truthy(text) then []
    else if key == DeviceDescription then [MaterialAnalysis(k, name, text.value), MaterialList(name, text.value)]
    else if key == IndicationsForUse then [RequirementList(text.value), ClinicalUse(k, text.value)]
    else if key == DeviceComparison then [ImprovementList(text.value), ComparisonSummary(text.value)]
    else [ResultList(text.value), TestSummary(text.value)]
  }

  /**
   * Python `generate_qa_pairs_from_sections(device_data)`: its four blocks,
   * one per section key in `SectionKeys` order, each adding that section's
   * exchanges.
   */
  function QaPairs(r: Record): seq<Pair>
  {
    var k := Show(GetOr(r.kNumber, "Unknown"));
    var name := Show(GetOr(r.deviceName, "Unknown Device"));
    var sections := ParsedSections(r);
    if sections.None? then []
    else Flatten(SectionKeys, key => SectionPairs(sections.value, key, k, name))
  }

  /** The keys whose section is truthy, in the order the stage visits them. */
  function PresentSections(r: Record): seq<string>
  {
    var sections := ParsedSections(r);
    if sections.None? then [] else Filter(SectionKeys, key => Truthy(SectionOf(sections.value, key)))
  }

  /**
   * No exchanges without parsed sections; otherwise two per truthy
   * section, `2 * |present sections|` in all.
   */
  lemma QaPairsCount(r: Record)
    ensures ParsedSections(r).None? ==> QaPairs(r) == []
    ensures |QaPairs(r)| == 2 * |PresentSections(r)|
  {
    var sections := ParsedSections(r);
    if sections.Some? {
      var m := sections.value;
      var k := Show(GetOr(r.kNumber, "Unknown"));
      var name := Show(GetOr(r.deviceName, "Unknown Device"));
      var present := (key: string) => Truthy(SectionOf(m, key));
      var pairs := (key: string) => SectionPairs(m, key, k, name);
      FilterKeys(present);
      FlattenKeys(pairs);
    }
  }

  /** Filtering the four section keys, one key at a time. */
  lemma FilterKeys(present: string -> bool)
    ensures |Filter(SectionKeys, present)|
      == (if present(DeviceDescription) then 1 else 0) + (if present(IndicationsForUse) then 1 else 0)
         + (if present(DeviceComparison) then 1 else 0) + (if present(PerformanceData) then 1 else 0)
  {
    var k1 := [DeviceDescription];
    var k2 := k1 + [IndicationsForUse];
    var k3 := k2 + [DeviceComparison];
    assert SectionKeys == k3 + [PerformanceData];
    FilterSnoc([], DeviceDescription, present);
    assert [] + [DeviceDescription] == k1;
    FilterSnoc(k1, IndicationsForUse, present);
    FilterSnoc(k2, DeviceComparison, present);
    FilterSnoc(k3, PerformanceData, present);
  }

  /** Flattening over the four section keys, one key at a time. */
  lemma FlattenKeys<U>(f: string -> seq<U>)
    ensures Flatten(SectionKeys, f) == f(DeviceDescription) + f(IndicationsForUse) + f(DeviceComparison) + f(PerformanceData)
  {
    var k1 := [DeviceDescription];
    var k2 := k1 + [IndicationsForUse];
    var k3 := k2 + [DeviceComparison];
    assert SectionKeys == k3 + [PerformanceData];
    FlattenSnoc([], DeviceDescription, f);
    assert [] + [DeviceDescription] == k1;
    FlattenSnoc(k1, IndicationsForUse, f);
    FlattenSnoc(k2, DeviceComparison, f);
    FlattenSnoc(k3, PerformanceData, f);
  }

  /**
   * The exchanges come in section order: those of the description, then the
   * indications, the comparison and the performance data.
   */
  lemma QaPairsOrder(r: Record)
    requires ParsedSections(r).Some?
    ensures var m := ParsedSections(r).value;
      var k := Show(GetOr(r.kNumber, "Unknown"));
      var name := Show(GetOr(r.deviceName, "Unknown Device"));
      QaPairs(r) == SectionPairs(m, DeviceDescription, k, name) + SectionPairs(m, IndicationsForUse, k, name)
                    + SectionPairs(m, DeviceComparison, k, name) + SectionPairs(m, PerformanceData, k, name)
  {
    var m := ParsedSections(r).value;
    var k := Show(GetOr(r.kNumber, "Unknown"));
    var name := Show(GetOr(r.deviceName, "Unknown Device"));
    FlattenKeys((key: string) => SectionPairs(m, key, k, name));
  }

  // ---------------------------------------------------------------------
  // process_parsed_data_to_qa
  // ---------------------------------------------------------------------

  /** One output line: an exchange with its record's metadata. */
  datatype TaggedPair = TaggedPair(
    pair: Pair,
    sourceKNumber: Option<string>,
    sourceDeviceName: Option<string>,
    sourceDate: Option<string>)

  /** The lines a record contributes: its exchanges, each tagged with the record's metadata. */
  function Tagged(r: Record): (lines: seq<TaggedPair>)
    ensures |lines| == |QaPairs(r)|
  {
    var pairs := QaPairs(r);
    seq(|pairs|, i requires 0 <= i < |pairs| =>
      TaggedPair(pairs[i], Get(r.kNumber), Get(r.deviceName), Get(r.decisionDate)))
  }

  /** One record more: a successful one adds its tagged exchanges, any other nothing. */
  lemma LinesStep(records: seq<Record>, i: nat)
    requires i < |records|
    ensures Flatten(Filter(records[..i + 1], Succeeded), Tagged)
         == Flatten(Filter(records[..i], Succeeded), Tagged) + (if Succeeded(records[i]) then Tagged(records[i]) else [])
  {
    var kept := Filter(records[..i], Succeeded);
    FilterPrefix(records, i, Succeeded);
    if Succeeded(records[i]) {
      assert Filter(records[..i + 1], Succeeded) == kept + [records[i]];
      FlattenSnoc(kept, records[i], Tagged);
    } else {
      assert Filter(records[..i + 1], Succeeded) == kept;
    }
  }

  /** The inner loop of `process_parsed_data_to_qa`: each exchange of a record with the record's metadata. */
  method TagPairs(deviceData: Record) returns (enhanced: seq<TaggedPair>)
    ensures enhanced == Tagged(deviceData)
  {
    var qaPairs := QaPairs(deviceData);
    ghost var tagged := Tagged(deviceData);
    enhanced := [];
    for j := 0 to |qaPairs|
      invariant enhanced == tagged[..j]
    {
      var enhancedQa := TaggedPair(qaPairs[j], Get(deviceData.kNumber), Get(deviceData.deviceName), Get(deviceData.decisionDate));
      TakeSnoc(tagged, j);
      enhanced := enhanced + [enhancedQa];
    }
    assert tagged[..|qaPairs|] == tagged;
  }

  /** Python `process_parsed_data_to_qa`: the lines written. */
  method ProcessParsedDataToQa(records: seq<Record>) returns (lines: seq<TaggedPair>)
    ensures lines == Flatten(Filter(records, Succeeded), Tagged)
  {
    lines := [];
    for i := 0 to |records|
      invariant lines == Flatten(Filter(records[..i], Succeeded), Tagged)
    {
      var deviceData := records[i];
      LinesStep(records, i);
      if Get(deviceData.parsingStatus) == Some("success") {
        var enhanced := TagPairs(deviceData);
        lines := lines + enhanced;
      }
    }
    assert records[..|records|] == records;
  }

  /** The number of exchanges of the records. */
  function PairCount(records: seq<Record>): nat
  {
    if |records| == 0 then 0 else PairCount(records[..|records| - 1]) + |QaPairs(records[|records| - 1])|
  }

  /** The number of lines written is the number of exchanges of the successful records. */
  lemma {:induction false} TaggedCount(records: seq<Record>)
    ensures |Flatten(records, Tagged)| == PairCount(records)
  {
    if |records| > 0 {
      TaggedCount(records[..|records| - 1]);
    }
  }

  /**
   * Every line comes from a successful record and carries that record's
   * K-number, device name and decision date.
   */
  lemma {:induction false} TaggedFromSuccess(records: seq<Record>, n: nat)
    requires n < |Flatten(Filter(records, Succeeded), Tagged)|
    ensures exists r ::
      && r in records
      && Succeeded(r)
      && Flatten(Filter(records, Succeeded), Tagged)[n] in Tagged(r)
      && Flatten(Filter(records, Succeeded), Tagged)[n].sourceKNumber == Get(r.kNumber)
      && Flatten(Filter(records, Succeeded), Tagged)[n].sourceDeviceName == Get(r.deviceName)
      && Flatten(Filter(records, Succeeded), Tagged)[n].sourceDate == Get(r.decisionDate)
  {
    var kept := Filter(records, Succeeded);
    FilterMembers(records, Succeeded);
    var r := FlattenSource(kept, Tagged, n);
    assert r in kept;
  }

  /** The piece an element of a flattening comes from. */
  lemma {:induction false} FlattenSource(s: seq<Record>, f: Record -> seq<TaggedPair>, n: nat) returns (r: Record)
    requires n < |Flatten(s, f)|
    ensures r in s && Flatten(s, f)[n] in f(r)
  {
    var init := s[..|s| - 1];
    var last := s[|s| - 1];
    if n < |Flatten(init, f)| {
      r := FlattenSource(init, f, n);
    } else {
      r := last;
      assert Flatten(s, f)[n] == f(last)[n - |Flatten(init, f)|];
    }
  }

  // ---------------------------------------------------------------------
  // create_structured_json
  // ---------------------------------------------------------------------

  /** One entry of `devices`. */
  datatype DeviceEntry = DeviceEntry(
    kNumber: Option<string>,
    deviceName: Option<string>,
    decisionDate: Option<string>,
    parsedSections: Option<Sections>,
    qaPairs: seq<Pair>)

  /** The structured dataset: `dataset_info` and `devices`. */
  datatype Dataset = Dataset(
    name: string,
    description: string,
    totalDevices: nat,
    totalQaPairs: nat,
    devices: seq<DeviceEntry>)

  const DatasetName: string := "FDA 510k Biocompatibility QA Dataset"
  const DatasetDescription: string := "FDA 510(k) summary에서 추출한 생체적합성 재료 Q&A 데이터"

  function Entry(r: Record): DeviceEntry
  {
    DeviceEntry(Get(r.kNumber), Get(r.deviceName), Get(r.decisionDate), Get(r.parsedSections), QaPairs(r))
  }

  /**
   * One record more: a successful one adds its entry and its exchanges,
   * any other leaves the dataset as it was.
   */
  lemma DatasetStep(records: seq<Record>, i: nat)
    requires i < |records|
    ensures var (kept, next) := (Filter(records[..i], Succeeded), Filter(records[..i + 1], Succeeded));
      && Map(next, Entry) == Map(kept, Entry) + (if Succeeded(records[i]) then [Entry(records[i])] else [])
      && PairCount(next) == PairCount(kept) + (if Succeeded(records[i]) then |QaPairs(records[i])| else 0)
  {
    var kept := Filter(records[..i], Succeeded);
    FilterPrefix(records, i, Succeeded);
    if Succeeded(records[i]) {
      assert Filter(records[..i + 1], Succeeded) == kept + [records[i]];
      MapSnoc(kept, records[i], Entry);
      assert (kept + [records[i]])[..|kept|] == kept;
    } else {
      assert Filter(records[..i + 1], Succeeded) == kept;
    }
  }

  /** Python `create_structured_json`: the dataset written. */
  method CreateStructuredJson(records: seq<Record>) returns (data: Dataset)
    ensures var kept := Filter(records, Succeeded);
      && data.name == DatasetName
      && data.description == DatasetDescription
      && data.devices == Map(kept, Entry)
      && data.totalDevices == |kept|
      && data.totalQaPairs == PairCount(kept)
  {
    var devices: seq<DeviceEntry> := [];
    var totalQaPairs := 0;
    for i := 0 to |records|
      invariant devices == Map(Filter(records[..i], Succeeded), Entry)
      invariant totalQaPairs == PairCount(Filter(records[..i], Succeeded))
    {
      var deviceData := records[i];
      DatasetStep(records, i);
      if Get(deviceData.parsingStatus) == Some("success") {
        var qaPairs := QaPairs(deviceData);
        var deviceEntry := DeviceEntry(Get(deviceData.kNumber), Get(deviceData.deviceName),
                                       Get(deviceData.decisionDate), Get(deviceData.parsedSections), qaPairs);
        devices := devices + [deviceEntry];
        totalQaPairs := totalQaPairs + |qaPairs|;
      }
    }
    assert records[..|records|] == records;
    data := Dataset(DatasetName, DatasetDescription, |devices|, totalQaPairs, devices);
  }

  /**
   * `total_qa_pairs` of the dataset is the number of lines
   * `process_parsed_data_to_qa` writes for the same input.
   */
  lemma DatasetAgreesWithLines(records: seq<Record>)
    ensures PairCount(Filter(records, Succeeded)) == |Flatten(Filter(records, Succeeded), Tagged)|
  {
    TaggedCount(Filter(records, Succeeded));
  }
}
