/** The older section classes: each constructor binds its keyword arguments, logs the unused
    ones, validates its attributes and then builds its key/value table or its frame. */
module LegacySections {
  import opened Wrappers
  import opened Dicts
  import opened Values
  import opened SuperSections
  import opened LegacyModels

  /** The keyword arguments a signature does not name: they land in `**kwargs`. */
  function Unbound(kwargs: Dict<Value>, params: set<string>): (r: Dict<Value>)
    ensures forall e :: e in r <==> e in kwargs && e.0 !in params
  {
    if kwargs == [] then []
    else (if kwargs[0].0 in params then [] else [kwargs[0]]) + Unbound(kwargs[1..], params)
  }

  // ---------------------------------------------------------------------------
  // HeaderSection

  const HeaderParams: set<string> :=
    {"file_format_version", "run_name", "run_description", "instrument_platform", "instrument_type"}

  /** Keyword binding: a parameter not passed takes its default, None. */
  function HeaderArgsOf(kwargs: Dict<Value>): HeaderArgs {
    HeaderArgs(
      Field(kwargs, "file_format_version"),
      Field(kwargs, "run_name"),
      Field(kwargs, "run_description"),
      Field(kwargs, "instrument_platform"),
      Field(kwargs, "instrument_type"))
  }

  /** The dict literal of `HeaderSection.build_section_dict`, before None-filtering. */
  function HeaderTable(a: HeaderArgs): Dict<Value> {
    [ ("FileFormatVersion", a.fileFormatVersion),
      ("RunName", a.runName),
      ("RunDescription", a.runDescription),
      ("InstrumentPlatform", a.instrumentPlatform),
      ("InstrumentType", a.instrumentType) ]
  }

  function HeaderSectionDict(a: HeaderArgs): Dict<Value> {
    FilterDict(HeaderTable(a))
  }

  /** The header table's keys are a subsequence of FileFormatVersion, RunName, RunDescription,
      InstrumentPlatform, InstrumentType, and each is there with its field's value exactly when
      that field is not None. */
  lemma HeaderSectionDictShape(a: HeaderArgs)
    ensures IsSubsequence(Keys(HeaderSectionDict(a)),
                          ["FileFormatVersion", "RunName", "RunDescription", "InstrumentPlatform", "InstrumentType"])
    ensures Get(HeaderSectionDict(a), "FileFormatVersion") == if a.fileFormatVersion.VNone? then None else Some(a.fileFormatVersion)
    ensures Get(HeaderSectionDict(a), "RunName") == if a.runName.VNone? then None else Some(a.runName)
    ensures Get(HeaderSectionDict(a), "RunDescription") == if a.runDescription.VNone? then None else Some(a.runDescription)
    ensures Get(HeaderSectionDict(a), "InstrumentPlatform") == if a.instrumentPlatform.VNone? then None else Some(a.instrumentPlatform)
    ensures Get(HeaderSectionDict(a), "InstrumentType") == if a.instrumentType.VNone? then None else Some(a.instrumentType)
  {
    var t := HeaderTable(a);
    assert Keys(t) == ["FileFormatVersion", "RunName", "RunDescription", "InstrumentPlatform", "InstrumentType"];
    FilterDictTable(t);
    assert t[0].0 == "FileFormatVersion" && t[1].0 == "RunName" && t[2].0 == "RunDescription";
    assert t[3].0 == "InstrumentPlatform" && t[4].0 == "InstrumentType";
  }

  class HeaderSection {
    const fileFormatVersion: Value
    const runName: Value
    const runDescription: Value
    const instrumentPlatform: Value
    const instrumentType: Value
    const warnings: seq<string>
    var sectionDict: Option<Dict<Value>>

    function Args(): HeaderArgs {
      HeaderArgs(fileFormatVersion, runName, runDescription, instrumentPlatform, instrumentType)
    }

    /** The attribute assignments and `build_section_dict`; validation is done by `FromKwargs`
        before this runs. */
    constructor (a: HeaderArgs, warnings: seq<string>)
      ensures Args() == a && this.warnings == warnings
      ensures sectionDict == Some(HeaderSectionDict(a))
    {
      fileFormatVersion := a.fileFormatVersion;
      runName := a.runName;
      runDescription := a.runDescription;
      instrumentPlatform := a.instrumentPlatform;
      instrumentType := a.instrumentType;
      this.warnings := warnings;
      sectionDict := None;
      new;
      BuildSectionDict();
    }

    method BuildSectionDict()
      modifies this
      ensures sectionDict == Some(HeaderSectionDict(Args()))
    {
      sectionDict := Some(FilterDict(HeaderTable(Args())));
    }

    /** `HeaderSection(**kwargs)`: `file_format_version` has no default, so leaving it out is a
        TypeError; an invalid attribute is a ValidationError and no table is built. */
    static method FromKwargs(kwargs: Dict<Value>) returns (r: Result<HeaderSection>)
      ensures "file_format_version" !in Keys(kwargs) ==> r == Err(MissingArgument("file_format_version"))
      ensures "file_format_version" in Keys(kwargs) ==>
                (r.Err? <==> ValidateHeader(HeaderArgsOf(kwargs)).Err?)
      ensures r.Err? ==> r.error == MissingArgument("file_format_version") || r.error.SchemaViolation?
      ensures r.Ok? ==> && fresh(r.value)
                        && r.value.Args() == HeaderArgsOf(kwargs)
                        && r.value.sectionDict == Some(HeaderSectionDict(HeaderArgsOf(kwargs)))
                        && r.value.warnings == UnusedWarnings([], Unbound(kwargs, HeaderParams)).value
    {
      if "file_format_version" !in Keys(kwargs) {
        return Err(MissingArgument("file_format_version"));
      }
      var warnings := LogUntouchedOptions([], Unbound(kwargs, HeaderParams));
      var a := HeaderArgsOf(kwargs);
      var valid := ValidateHeader(a);
      if valid.Err? {
        return Err(valid.error);
      }
      var section := new HeaderSection(a, warnings.value);
      return Ok(section);
    }
  }

  // ---------------------------------------------------------------------------
  // ReadsSection

  const ReadsParams: set<string> := {"read_1_cycles", "read_2_cycles", "index_1_cycles", "index_2_cycles"}

  function ReadsArgsOf(kwargs: Dict<Value>): ReadsArgs {
    ReadsArgs(
      Field(kwargs, "read_1_cycles"),
      Field(kwargs, "read_2_cycles"),
      Field(kwargs, "index_1_cycles"),
      Field(kwargs, "index_2_cycles"))
  }

  function ReadsTable(a: ReadsArgs): Dict<Value> {
    [ ("Read1Cycles", a.read1Cycles),
      ("Read2Cycles", a.read2Cycles),
      ("Index1Cycles", a.index1Cycles),
      ("Index2Cycles", a.index2Cycles) ]
  }

  function ReadsSectionDict(a: ReadsArgs): Dict<Value> {
    FilterDict(ReadsTable(a))
  }

  /** read_1_cycles -> Read1Cycles, read_2_cycles -> Read2Cycles, index_1_cycles -> Index1Cycles,
      index_2_cycles -> Index2Cycles, in that order, with the None counts left out. A validated
      section always has Read1Cycles. */
  lemma ReadsSectionDictShape(a: ReadsArgs)
    ensures IsSubsequence(Keys(ReadsSectionDict(a)), ["Read1Cycles", "Read2Cycles", "Index1Cycles", "Index2Cycles"])
    ensures Get(ReadsSectionDict(a), "Read1Cycles") == if a.read1Cycles.VNone? then None else Some(a.read1Cycles)
    ensures Get(ReadsSectionDict(a), "Read2Cycles") == if a.read2Cycles.VNone? then None else Some(a.read2Cycles)
    ensures Get(ReadsSectionDict(a), "Index1Cycles") == if a.index1Cycles.VNone? then None else Some(a.index1Cycles)
    ensures Get(ReadsSectionDict(a), "Index2Cycles") == if a.index2Cycles.VNone? then None else Some(a.index2Cycles)
    ensures ValidateReads(a).Ok? ==> Keys(ReadsSectionDict(a))[0] == "Read1Cycles"
  {
    var t := ReadsTable(a);
    assert Keys(t) == ["Read1Cycles", "Read2Cycles", "Index1Cycles", "Index2Cycles"];
    FilterDictTable(t);
    assert t[0].0 == "Read1Cycles" && t[1].0 == "Read2Cycles" && t[2].0 == "Index1Cycles" && t[3].0 == "Index2Cycles";
    if ValidateReads(a).Ok? {
      assert !a.read1Cycles.VNone?;
      assert ReadsSectionDict(a) == [t[0]] + FilterDict(t[1..]);
    }
  }

  class ReadsSection {
    const read1Cycles: Value
    const read2Cycles: Value
    const index1Cycles: Value
    const index2Cycles: Value
    const warnings: seq<string>
    var sectionDict: Option<Dict<Value>>

    function Args(): ReadsArgs {
      ReadsArgs(read1Cycles, read2Cycles, index1Cycles, index2Cycles)
    }

    constructor (a: ReadsArgs, warnings: seq<string>)
      ensures Args() == a && this.warnings == warnings
      ensures sectionDict == Some(ReadsSectionDict(a))
    {
      read1Cycles := a.read1Cycles;
      read2Cycles := a.read2Cycles;
      index1Cycles := a.index1Cycles;
      index2Cycles := a.index2Cycles;
      this.warnings := warnings;
      sectionDict := None;
      new;
      BuildSectionDict();
    }

    method BuildSectionDict()
      modifies this
      ensures sectionDict == Some(ReadsSectionDict(Args()))
    {
      sectionDict := Some(FilterDict(ReadsTable(Args())));
    }

    /** `ReadsSection(**kwargs)`: `read_1_cycles` has no default, and validation also rejects
        it as None. */
    static method FromKwargs(kwargs: Dict<Value>) returns (r: Result<ReadsSection>)
      ensures "read_1_cycles" !in Keys(kwargs) ==> r == Err(MissingArgument("read_1_cycles"))
      ensures "read_1_cycles" in Keys(kwargs) ==> (r.Err? <==> ValidateReads(ReadsArgsOf(kwargs)).Err?)
      ensures r.Err? ==> r.error == MissingArgument("read_1_cycles") || r.error.SchemaViolation?
      ensures r.Ok? ==> && fresh(r.value)
                        && r.value.Args() == ReadsArgsOf(kwargs)
                        && r.value.sectionDict == Some(ReadsSectionDict(ReadsArgsOf(kwargs)))
                        && r.value.warnings == UnusedWarnings([], Unbound(kwargs, ReadsParams)).value
    {
      if "read_1_cycles" !in Keys(kwargs) {
        return Err(MissingArgument("read_1_cycles"));
      }
      var warnings := LogUntouchedOptions([], Unbound(kwargs, ReadsParams));
      var a := ReadsArgsOf(kwargs);
      var valid := ValidateReads(a);
      if valid.Err? {
        return Err(valid.error);
      }
      var section := new ReadsSection(a, warnings.value);
      return Ok(section);
    }
  }

  // ---------------------------------------------------------------------------
  // BCLConvertSettingsSection

  const BclConvertSettingsParams: set<string> := {
    "adapter_behavior", "adapter_read_1", "adapter_read_2", "adapter_stringency",
    "barcode_mismatches_index_1", "barcode_mismatches_index_2", "minimum_trimmed_read_length",
    "minimum_adapter_overlap", "mask_short_reads", "override_cycles", "trim_umi",
    "create_fastq_for_index_reads", "no_lane_splitting", "fastq_compression_format",
    "find_adapters_with_indels", "independent_index_collision_check"}

  function BclConvertSettingsArgsOf(kwargs: Dict<Value>): BclConvertSettingsArgs {
    BclConvertSettingsArgs(
      Field(kwargs, "adapter_behavior"),
      Field(kwargs, "adapter_read_1"),
      Field(kwargs, "adapter_read_2"),
      Field(kwargs, "adapter_stringency"),
      Field(kwargs, "barcode_mismatches_index_1"),
      Field(kwargs, "barcode_mismatches_index_2"),
      Field(kwargs, "minimum_trimmed_read_length"),
      Field(kwargs, "minimum_adapter_overlap"),
      Field(kwargs, "mask_short_reads"),
      Field(kwargs, "override_cycles"),
      Field(kwargs, "trim_umi"),
      Field(kwargs, "create_fastq_for_index_reads"),
      Field(kwargs, "no_lane_splitting"),
      Field(kwargs, "fastq_compression_format"),
      Field(kwargs, "find_adapters_with_indels"),
      Field(kwargs, "independent_index_collision_check"))
  }

  /** The fixed key table of `BCLConvertSettingsSection.build_section_dict`. */
  function BclConvertSettingsTable(a: BclConvertSettingsArgs): Dict<Value> {
    [ ("AdapterBehavior", a.adapterBehavior),
      ("AdapterRead1", a.adapterRead1),
      ("AdapterRead2", a.adapterRead2),
      ("AdapterStringency", a.adapterStringency),
      ("BarcodeMismatchesIndex1", a.barcodeMismatchesIndex1),
      ("BarcodeMismatchesIndex2", a.barcodeMismatchesIndex2),
      ("MinimumTrimmedReadLength", a.minimumTrimmedReadLength),
      ("MinimumAdapterOverlap", a.minimumAdapterOverlap),
      ("MaskShortReads", a.maskShortReads),
      ("OverrideCycles", a.overrideCycles),
      ("TrimUMI", a.trimUmi),
      ("CreateFastqForIndexReads", a.createFastqForIndexReads),
      ("NoLaneSplitting", a.noLaneSplitting),
      ("FastqCompressionFormat", a.fastqCompressionFormat),
      ("FindAdaptersWithIndels", a.findAdaptersWithIndels),
      ("IndependentIndexCollisionCheck", a.independentIndexCollisionCheck) ]
  }

  const BclConvertSettingsKeys: seq<string> := [
    "AdapterBehavior", "AdapterRead1", "AdapterRead2", "AdapterStringency",
    "BarcodeMismatchesIndex1", "BarcodeMismatchesIndex2", "MinimumTrimmedReadLength",
    "MinimumAdapterOverlap", "MaskShortReads", "OverrideCycles", "TrimUMI",
    "CreateFastqForIndexReads", "NoLaneSplitting", "FastqCompressionFormat",
    "FindAdaptersWithIndels", "IndependentIndexCollisionCheck"]

  function BclConvertSettingsSectionDict(a: BclConvertSettingsArgs): Dict<Value> {
    FilterDict(BclConvertSettingsTable(a))
  }

  lemma BclConvertSettingsKeysDistinct()
    ensures forall i, j :: 0 <= i < j < |BclConvertSettingsKeys| ==> BclConvertSettingsKeys[i] != BclConvertSettingsKeys[j]
  {
  }

  lemma BclConvertSettingsTableKeys(a: BclConvertSettingsArgs)
    ensures Keys(BclConvertSettingsTable(a)) == BclConvertSettingsKeys
    ensures BclConvertSettingsTable(a)[10] == ("TrimUMI", a.trimUmi)
    ensures BclConvertSettingsTable(a)[11] == ("CreateFastqForIndexReads", a.createFastqForIndexReads)
  {
  }

  /** The settings keys are a subsequence of the fixed table's sixteen distinct keys, in
      declaration order, and each key is there with its field's value exactly when that field
      is not None (so `trim_umi` becomes TrimUMI and `create_fastq_for_index_reads`
      CreateFastqForIndexReads). */
  lemma BclConvertSettingsSectionDictShape(a: BclConvertSettingsArgs)
    ensures IsSubsequence(Keys(BclConvertSettingsSectionDict(a)), BclConvertSettingsKeys)
    ensures forall i :: 0 <= i < |BclConvertSettingsKeys| ==>
              var v := BclConvertSettingsTable(a)[i].1;
              Get(BclConvertSettingsSectionDict(a), BclConvertSettingsKeys[i]) == if v.VNone? then None else Some(v)
    ensures Get(BclConvertSettingsSectionDict(a), "TrimUMI") == if a.trimUmi.VNone? then None else Some(a.trimUmi)
    ensures Get(BclConvertSettingsSectionDict(a), "CreateFastqForIndexReads") ==
              if a.createFastqForIndexReads.VNone? then None else Some(a.createFastqForIndexReads)
  {
    BclConvertSettingsTableKeys(a);
    BclConvertSettingsKeysDistinct();
    FilterDictKeyed(BclConvertSettingsTable(a), BclConvertSettingsKeys);
  }

  class BCLConvertSettingsSection {
    const args: BclConvertSettingsArgs
    const warnings: seq<string>
    var sectionDict: Option<Dict<Value>>

    constructor (a: BclConvertSettingsArgs, warnings: seq<string>)
      ensures args == a && this.warnings == warnings
      ensures sectionDict == Some(BclConvertSettingsSectionDict(a))
    {
      args := a;
      this.warnings := warnings;
      sectionDict := None;
      new;
      BuildSectionDict();
    }

    method BuildSectionDict()
      modifies this
      ensures sectionDict == Some(BclConvertSettingsSectionDict(args))
    {
      sectionDict := Some(FilterDict(BclConvertSettingsTable(args)));
    }

    /** `BCLConvertSettingsSection(**kwargs)`: every parameter has a default. */
    static method FromKwargs(kwargs: Dict<Value>) returns (r: Result<BCLConvertSettingsSection>)
      ensures r.Err? <==> ValidateBclConvertSettings(BclConvertSettingsArgsOf(kwargs)).Err?
      ensures r.Err? ==> r.error.SchemaViolation?
      ensures r.Ok? ==> && fresh(r.value)
                        && r.value.args == BclConvertSettingsArgsOf(kwargs)
                        && r.value.sectionDict == Some(BclConvertSettingsSectionDict(BclConvertSettingsArgsOf(kwargs)))
                        && r.value.warnings == UnusedWarnings([], Unbound(kwargs, BclConvertSettingsParams)).value
    {
      var warnings := LogUntouchedOptions([], Unbound(kwargs, BclConvertSettingsParams));
      var a := BclConvertSettingsArgsOf(kwargs);
      var valid := ValidateBclConvertSettings(a);
      if valid.Err? {
        return Err(valid.error);
      }
      var section := new BCLConvertSettingsSection(a, warnings.value);
      return Ok(section);
    }
  }

  // ---------------------------------------------------------------------------
  // BCLConvertDataRow.to_series

  function RowTable(row: BclConvertDataRow): Dict<Value> {
    [ ("Lane", row.lane),
      ("Sample_ID", row.sampleId),
      ("index", row.index),
      ("index2", row.index2),
      ("Sample_Project", row.sampleProject),
      ("Sample_Name", row.sampleName),
      ("OverrideCycles", row.overrideCycles),
      ("BarcodeMismatchesIndex1", row.barcodeMismatchesIndex1),
      ("BarcodeMismatchesIndex2", row.barcodeMismatchesIndex2),
      ("AdapterRead1", row.adapterRead1),
      ("AdapterRead2", row.adapterRead2),
      ("AdapterBehavior", row.adapterBehavior),
      ("AdapterStringency", row.adapterStringency) ]
  }

  const RowKeys: seq<string> := [
    "Lane", "Sample_ID", "index", "index2", "Sample_Project", "Sample_Name", "OverrideCycles",
    "BarcodeMismatchesIndex1", "BarcodeMismatchesIndex2", "AdapterRead1", "AdapterRead2",
    "AdapterBehavior", "AdapterStringency"]

  /** `to_series`: the row's non-None fields under their column names. */
  function ToSeries(row: BclConvertDataRow): Dict<Value> {
    FilterDict(RowTable(row))
  }

  lemma RowKeysDistinct()
    ensures forall i, j :: 0 <= i < j < |RowKeys| ==> RowKeys[i] != RowKeys[j]
  {
  }

  lemma RowTableKeys(row: BclConvertDataRow)
    ensures Keys(RowTable(row)) == RowKeys
    ensures RowTable(row)[0] == ("Lane", row.lane) && RowTable(row)[1] == ("Sample_ID", row.sampleId)
  {
  }

  /** The series holds exactly the row's non-None fields, in table order. */
  lemma ToSeriesShape(row: BclConvertDataRow)
    ensures IsSubsequence(Keys(ToSeries(row)), RowKeys)
    ensures forall i :: 0 <= i < |RowKeys| ==>
              var v := RowTable(row)[i].1;
              Get(ToSeries(row), RowKeys[i]) == if v.VNone? then None else Some(v)
    ensures forall e :: e in ToSeries(row) ==> e.1 != VNone
  {
    RowTableKeys(row);
    RowKeysDistinct();
    FilterDictKeyed(RowTable(row), RowKeys);
    FilterDictMembers(RowTable(row));
  }

  /** A row with a Sample_ID (which validation demands) has it in its series; Lane, when
      given, comes just before it, and otherwise Sample_ID comes first. */
  lemma ToSeriesLeadingColumns(row: BclConvertDataRow)
    requires row.sampleId != VNone
    ensures row.lane.VNone? ==> |ToSeries(row)| >= 1 && ToSeries(row)[0] == ("Sample_ID", row.sampleId)
    ensures !row.lane.VNone? ==> |ToSeries(row)| >= 2 && ToSeries(row)[..2] == [("Lane", row.lane), ("Sample_ID", row.sampleId)]
  {
    var t := RowTable(row);
    RowTableKeys(row);
    assert t[1..][0] == t[1] && t[1..][1..] == t[2..];
    assert FilterDict(t[1..]) == [t[1]] + FilterDict(t[2..]);
    if row.lane.VNone? {
      assert ToSeries(row) == FilterDict(t[1..]);
    } else {
      assert ToSeries(row) == [t[0]] + FilterDict(t[1..]);
    }
  }

  // ---------------------------------------------------------------------------
  // BCLConvertDataSection

  /** A frame as built from a list of series: its column names and one record per row. */
  datatype Frame = Frame(columns: seq<string>, records: seq<Dict<Value>>)

  /** Adds the keys not yet among `cols`, in the order met. */
  function AddColumns(cols: seq<string>, keys: seq<string>): (r: seq<string>)
    ensures forall c :: c in r <==> c in cols || c in keys
    ensures (forall i, j :: 0 <= i < j < |cols| ==> cols[i] != cols[j]) ==>
              forall i, j :: 0 <= i < j < |r| ==> r[i] != r[j]
    decreases |keys|
  {
    if keys == [] then cols
    else AddColumns(if keys[0] in cols then cols else cols + [keys[0]], keys[1..])
  }

  /** The union of the series' keys, each once. */
  function UnionColumns(series: seq<Dict<Value>>): (r: seq<string>)
    ensures forall c :: c in r <==> exists i :: 0 <= i < |series| && c in Keys(series[i])
    ensures forall i, j :: 0 <= i < j < |r| ==> r[i] != r[j]
  {
    if series == [] then []
    else
      var init := UnionColumns(series[..|series| - 1]);
      assert forall i :: 0 <= i < |series| - 1 ==> series[..|series| - 1][i] == series[i];
      AddColumns(init, Keys(series[|series| - 1]))
  }

  predicate ColumnHasValue(records: seq<Dict<Value>>, c: string) {
    exists i :: 0 <= i < |records| && Field(records[i], c) != VNone
  }

  /** `dropna(how="all", axis="columns")` */
  function DropEmptyColumns(f: Frame): (r: Frame)
    ensures r.records == f.records
    ensures forall c :: c in r.columns <==> c in f.columns && ColumnHasValue(f.records, c)
  {
    Frame(Filter(f.columns, f.records), f.records)
  }

  function Filter(cols: seq<string>, records: seq<Dict<Value>>): (r: seq<string>)
    ensures forall c :: c in r <==> c in cols && ColumnHasValue(records, c)
  {
    if cols == [] then []
    else (if ColumnHasValue(records, cols[0]) then [cols[0]] else []) + Filter(cols[1..], records)
  }

  function Series(rows: seq<BclConvertDataRow>): (s: seq<Dict<Value>>)
    ensures |s| == |rows| && forall i :: 0 <= i < |rows| ==> s[i] == ToSeries(rows[i])
  {
    seq(|rows|, i requires 0 <= i < |rows| => ToSeries(rows[i]))
  }

  /** `pd.DataFrame(map(to_series, rows)).dropna(how="all", axis="columns")` */
  function DataFrameOf(rows: seq<BclConvertDataRow>): Frame {
    DropEmptyColumns(Frame(UnionColumns(Series(rows)), Series(rows)))
  }

  /** One record per data row, in input order; the columns are exactly the fields that are not
      None in some row, so dropping the all-None columns drops nothing the series carried. */
  lemma DataFrameShape(rows: seq<BclConvertDataRow>)
    ensures |DataFrameOf(rows).records| == |rows|
    ensures forall i :: 0 <= i < |rows| ==> DataFrameOf(rows).records[i] == ToSeries(rows[i])
    ensures forall c :: c in DataFrameOf(rows).columns <==>
              exists i :: 0 <= i < |rows| && c in Keys(ToSeries(rows[i]))
    ensures forall c :: c in DataFrameOf(rows).columns ==> ColumnHasValue(DataFrameOf(rows).records, c)
  {
    var series := Series(rows);
    forall c | c in UnionColumns(series) ensures ColumnHasValue(series, c) {
      var i :| 0 <= i < |series| && c in Keys(series[i]);
      FilterDictMembers(RowTable(rows[i]));
      var k :| 0 <= k < |series[i]| && Keys(series[i])[k] == c;
      assert series[i][k] in FilterDict(RowTable(rows[i]));
      assert Get(series[i], c).Some?;
      var j :| 0 <= j < |series[i]| && series[i][j] == (c, Get(series[i], c).value);
      assert series[i][j] in FilterDict(RowTable(rows[i]));
    }
  }

  /** The frame as text: every cell of a missing field is empty. */
  function FrameTable(f: Frame): Table {
    Table(f.columns,
          seq(|f.records|, i requires 0 <= i < |f.records| =>
            seq(|f.columns|, j requires 0 <= j < |f.columns| => CellText(Field(f.records[i], f.columns[j])))))
  }

  class BCLConvertDataSection {
    const datarows: seq<BclConvertDataRow>
    var sectionDf: Option<Frame>

    /** `BCLConvertDataSection(rows)`; the section model is not validated here. */
    constructor (rows: seq<BclConvertDataRow>)
      ensures datarows == rows
      ensures sectionDf == Some(DataFrameOf(rows))
    {
      datarows := rows;
      sectionDf := None;
      new;
      BuildSectionDf();
    }

    method BuildSectionDf()
      modifies this
      ensures sectionDf == Some(DataFrameOf(datarows))
    {
      sectionDf := Some(DropEmptyColumns(Frame(UnionColumns(Series(datarows)), Series(datarows))));
    }

    function ToString(): (r: Result<string>)
      reads this
      ensures sectionDf.None? ==> r == Err(NoneAttribute("to_csv"))
      ensures sectionDf.Some? ==> r == Ok(TableToString(FrameTable(sectionDf.value)))
    {
      if sectionDf.None? then Err(NoneAttribute("to_csv")) else Ok(TableToString(FrameTable(sectionDf.value)))
    }

    /** `get_bclconvert_datarows_from_list` */
    static method FromList(rows: seq<Dict<Value>>) returns (r: Result<BCLConvertDataSection>)
      ensures r.Ok? <==> DataRows(rows).Ok?
      ensures r.Err? ==> r.error == DataRows(rows).error
      ensures r.Ok? ==> fresh(r.value) && r.value.datarows == DataRows(rows).value
                        && r.value.sectionDf == Some(DataFrameOf(r.value.datarows))
    {
      ghost var cs := CheckedRows(rows);
      var done: seq<BclConvertDataRow> := [];
      var i := 0;
      assert Prepend(done, AllOk(cs, i)) == AllOk(cs, 0) by {
        if AllOk(cs, 0).Ok? {
          assert [] + AllOk(cs, 0).value == AllOk(cs, 0).value;
        }
      }
      while i < |rows|
        invariant 0 <= i <= |rows|
        invariant DataRows(rows) == Prepend(done, AllOk(cs, i))
      {
        var row := RowFromDict(rows[i]);
        var leftover := Unbound(rows[i], DataRowParams);
        if leftover != [] {
          return Err(UnexpectedColumn(leftover[0].0));
        }
        var valid := ValidateDataRow(row);
        if valid.Err? {
          return Err(valid.error);
        }
        AllOkStep(cs, i, done);
        done := done + [row];
        i := i + 1;
      }
      var section := new BCLConvertDataSection(done);
      return Ok(section);
    }
  }

  const DataRowParams: set<string> := {
    "sample_id", "lane", "index", "index2", "sample_project", "sample_name", "override_cycles",
    "barcode_mismatches_index1", "barcode_mismatches_index2", "adapter_read_1", "adapter_read_2",
    "adapter_behavior", "adapter_stringency"}

  /** The thirteen `pop(key, None)` calls. */
  function RowFromDict(d: Dict<Value>): BclConvertDataRow {
    BclConvertDataRow(
      Field(d, "sample_id"),
      Field(d, "lane"),
      Field(d, "index"),
      Field(d, "index2"),
      Field(d, "sample_project"),
      Field(d, "sample_name"),
      Field(d, "override_cycles"),
      Field(d, "barcode_mismatches_index1"),
      Field(d, "barcode_mismatches_index2"),
      Field(d, "adapter_read_1"),
      Field(d, "adapter_read_2"),
      Field(d, "adapter_behavior"),
      Field(d, "adapter_stringency"))
  }

  /** One input dict: an unknown key left after the pops is an AttributeError, raised before the
      row is validated. */
  function RowChecked(d: Dict<Value>): (r: Result<BclConvertDataRow>)
    ensures r.Ok? <==> Unbound(d, DataRowParams) == [] && ValidateDataRow(RowFromDict(d)).Ok?
    ensures r.Ok? ==> r.value == RowFromDict(d)
    ensures Unbound(d, DataRowParams) != [] ==> r == Err(UnexpectedColumn(Unbound(d, DataRowParams)[0].0))
  {
    var leftover := Unbound(d, DataRowParams);
    if leftover != [] then Err(UnexpectedColumn(leftover[0].0))
    else
      var _ :- ValidateDataRow(RowFromDict(d));
      Ok(RowFromDict(d))
  }

  /** Each input dict checked on its own. */
  function CheckedRows(rows: seq<Dict<Value>>): (cs: seq<Result<BclConvertDataRow>>)
    ensures |cs| == |rows| && forall i :: 0 <= i < |rows| ==> cs[i] == RowChecked(rows[i])
  {
    seq(|rows|, i requires 0 <= i < |rows| => RowChecked(rows[i]))
  }

  /** The rows converted in order, stopping at the first that fails. */
  function DataRows(rows: seq<Dict<Value>>): Result<seq<BclConvertDataRow>> {
    AllOk(CheckedRows(rows), 0)
  }

  /** The conversion succeeds exactly when no row has an unknown key or an invalid field; then
      it keeps the row order, reading an absent known key as None; otherwise it reports the
      first failing row's error. */
  lemma DataRowsShape(rows: seq<Dict<Value>>)
    ensures DataRows(rows).Ok? <==> forall j :: 0 <= j < |rows| ==> RowChecked(rows[j]).Ok?
    ensures DataRows(rows).Ok? ==>
              && |DataRows(rows).value| == |rows|
              && forall j :: 0 <= j < |rows| ==> DataRows(rows).value[j] == RowFromDict(rows[j])
    ensures DataRows(rows).Err? ==>
              exists j :: && 0 <= j < |rows| && RowChecked(rows[j]).Err?
                          && DataRows(rows).error == RowChecked(rows[j]).error
                          && forall k :: 0 <= k < j ==> RowChecked(rows[k]).Ok?
  {
    AllOkShape(CheckedRows(rows), 0);
  }
}
