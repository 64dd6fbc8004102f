/** The newer run-info schemas: `HeaderSectionModel` and `ReadsSectionModel` with their
    `to_dict` key tables. */
module RunInfoModels {
  import opened Wrappers
  import opened Dicts
  import opened Values

  datatype HeaderModel = HeaderModel(
    fileFormatVersion: Option<int>,
    runName: Option<string>,
    runDescription: Option<string>,
    instrumentPlatform: Option<string>,
    instrumentType: Option<string>)

  /** `HeaderSectionModel(**d)`: every field may be None; a present `file_format_version` must
      read as an integer and the rest as strings. */
  function ParseHeader(d: Dict<Value>): (r: Result<HeaderModel>)
    ensures r.Ok? <==> && OptInt("file_format_version", Field(d, "file_format_version")).Ok?
                       && OptStr("run_name", Field(d, "run_name")).Ok?
                       && OptStr("run_description", Field(d, "run_description")).Ok?
                       && OptStr("instrument_platform", Field(d, "instrument_platform")).Ok?
                       && OptStr("instrument_type", Field(d, "instrument_type")).Ok?
    ensures r.Err? ==> r.error.SchemaViolation?
  {
    var fileFormatVersion :- OptInt("file_format_version", Field(d, "file_format_version"));
    var runName :- OptStr("run_name", Field(d, "run_name"));
    var runDescription :- OptStr("run_description", Field(d, "run_description"));
    var instrumentPlatform :- OptStr("instrument_platform", Field(d, "instrument_platform"));
    var instrumentType :- OptStr("instrument_type", Field(d, "instrument_type"));
    Ok(HeaderModel(fileFormatVersion, runName, runDescription, instrumentPlatform, instrumentType))
  }

  /** The model's fields under their own (snake_case) names. */
  function HeaderFields(m: HeaderModel): Dict<Value> {
    [ ("file_format_version", FromOptInt(m.fileFormatVersion)),
      ("run_name", FromOptStr(m.runName)),
      ("run_description", FromOptStr(m.runDescription)),
      ("instrument_platform", FromOptStr(m.instrumentPlatform)),
      ("instrument_type", FromOptStr(m.instrumentType)) ]
  }

  /** `HeaderSectionModel.to_dict` */
  function HeaderToDict(m: HeaderModel): Dict<Value> {
    [ ("FileFormatVersion", FromOptInt(m.fileFormatVersion)),
      ("RunName", FromOptStr(m.runName)),
      ("RunDescription", FromOptStr(m.runDescription)),
      ("InstrumentPlatform", FromOptStr(m.instrumentPlatform)),
      ("InstrumentType", FromOptStr(m.instrumentType)) ]
  }

  const HeaderKeys: seq<string> := ["FileFormatVersion", "RunName", "RunDescription", "InstrumentPlatform", "InstrumentType"]

  /** Any model's fields validate back to the same model: validation accepts every value it
      can produce. */
  lemma ParseHeaderFields(m: HeaderModel)
    ensures ParseHeader(HeaderFields(m)) == Ok(m)
  {
    var t := HeaderFields(m);
    HeaderFieldsRead(m);
    OptIntRoundTrip("file_format_version", m.fileFormatVersion);
    OptStrRoundTrip("run_name", m.runName);
    OptStrRoundTrip("run_description", m.runDescription);
    OptStrRoundTrip("instrument_platform", m.instrumentPlatform);
    OptStrRoundTrip("instrument_type", m.instrumentType);
  }

  /** Each of the five fields reads back as written. */
  lemma HeaderFieldsRead(m: HeaderModel)
    ensures Field(HeaderFields(m), "file_format_version") == FromOptInt(m.fileFormatVersion)
    ensures Field(HeaderFields(m), "run_name") == FromOptStr(m.runName)
    ensures Field(HeaderFields(m), "run_description") == FromOptStr(m.runDescription)
    ensures Field(HeaderFields(m), "instrument_platform") == FromOptStr(m.instrumentPlatform)
    ensures Field(HeaderFields(m), "instrument_type") == FromOptStr(m.instrumentType)
  {
    var t := HeaderFields(m);
    UniqueKeysOf(t, ["file_format_version", "run_name", "run_description", "instrument_platform", "instrument_type"]);
    FieldOfUnique(t, 0);
    FieldOfUnique(t, 1);
    FieldOfUnique(t, 2);
    FieldOfUnique(t, 3);
    FieldOfUnique(t, 4);
  }

  /** `to_dict` always has the five keys in the fixed order, each holding its field unchanged
      (None stays None). */
  lemma HeaderToDictShape(m: HeaderModel)
    ensures Keys(HeaderToDict(m)) == HeaderKeys
    ensures Get(HeaderToDict(m), "FileFormatVersion") == Some(FromOptInt(m.fileFormatVersion))
    ensures Get(HeaderToDict(m), "RunName") == Some(FromOptStr(m.runName))
    ensures Get(HeaderToDict(m), "InstrumentType") == Some(FromOptStr(m.instrumentType))
  {
  }

  datatype ReadsModel = ReadsModel(
    read1Cycles: int,
    read2Cycles: Option<int>,
    index1Cycles: Option<int>,
    index2Cycles: Option<int>)

  /** `ReadsSectionModel(**d)`: `read_1_cycles` must be a non-None integer. */
  function ParseReads(d: Dict<Value>): (r: Result<ReadsModel>)
    ensures r.Ok? <==> && ReqInt("read_1_cycles", Field(d, "read_1_cycles")).Ok?
                       && OptInt("read_2_cycles", Field(d, "read_2_cycles")).Ok?
                       && OptInt("index_1_cycles", Field(d, "index_1_cycles")).Ok?
                       && OptInt("index_2_cycles", Field(d, "index_2_cycles")).Ok?
    ensures Field(d, "read_1_cycles").VNone? ==> r == Err(SchemaViolation("read_1_cycles"))
    ensures r.Err? ==> r.error.SchemaViolation?
  {
    var read1Cycles :- ReqInt("read_1_cycles", Field(d, "read_1_cycles"));
    var read2Cycles :- OptInt("read_2_cycles", Field(d, "read_2_cycles"));
    var index1Cycles :- OptInt("index_1_cycles", Field(d, "index_1_cycles"));
    var index2Cycles :- OptInt("index_2_cycles", Field(d, "index_2_cycles"));
    Ok(ReadsModel(read1Cycles, read2Cycles, index1Cycles, index2Cycles))
  }

  function ReadsFields(m: ReadsModel): Dict<Value> {
    [ ("read_1_cycles", VInt(m.read1Cycles)),
      ("read_2_cycles", FromOptInt(m.read2Cycles)),
      ("index_1_cycles", FromOptInt(m.index1Cycles)),
      ("index_2_cycles", FromOptInt(m.index2Cycles)) ]
  }

  /** `ReadsSectionModel.to_dict` */
  function ReadsToDict(m: ReadsModel): Dict<Value> {
    [ ("Read1Cycles", VInt(m.read1Cycles)),
      ("Read2Cycles", FromOptInt(m.read2Cycles)),
      ("Index1Cycles", FromOptInt(m.index1Cycles)),
      ("Index2Cycles", FromOptInt(m.index2Cycles)) ]
  }

  const ReadsKeys: seq<string> := ["Read1Cycles", "Read2Cycles", "Index1Cycles", "Index2Cycles"]

  lemma ParseReadsFields(m: ReadsModel)
    ensures ParseReads(ReadsFields(m)) == Ok(m)
  {
    var t := ReadsFields(m);
    UniqueKeysOf(t, ["read_1_cycles", "read_2_cycles", "index_1_cycles", "index_2_cycles"]);
    FieldOfUnique(t, 0);
    FieldOfUnique(t, 1);
    FieldOfUnique(t, 2);
    FieldOfUnique(t, 3);
    OptIntRoundTrip("read_2_cycles", m.read2Cycles);
    OptIntRoundTrip("index_1_cycles", m.index1Cycles);
    OptIntRoundTrip("index_2_cycles", m.index2Cycles);
  }

  /** `to_dict` has the four keys in the fixed order, Read1Cycles always an integer. */
  lemma ReadsToDictShape(m: ReadsModel)
    ensures Keys(ReadsToDict(m)) == ReadsKeys
    ensures Get(ReadsToDict(m), "Read1Cycles") == Some(VInt(m.read1Cycles))
    ensures Get(ReadsToDict(m), "Index2Cycles") == Some(FromOptInt(m.index2Cycles))
  {
  }
}
