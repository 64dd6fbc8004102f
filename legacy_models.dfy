/** The field schemas of the older section classes: which attribute values validation accepts.
    Validation only accepts or rejects; the sections keep the raw attribute values. */
module LegacyModels {
  import opened Wrappers
  import opened Values
  import opened Enums

  /** The attributes a `HeaderSection` is validated from. */
  datatype HeaderArgs = HeaderArgs(
    fileFormatVersion: Value,
    runName: Value,
    runDescription: Value,
    instrumentPlatform: Value,
    instrumentType: Value)

  /** `HeaderSectionModel`: every field may be None; `file_format_version` is an int when given. */
  function ValidateHeader(a: HeaderArgs): (r: Result<()>)
    ensures r.Ok? <==> && (a.fileFormatVersion.VNone? || IsIntLike(a.fileFormatVersion))
                       && (a.runName.VNone? || a.runName.VStr?)
                       && (a.runDescription.VNone? || a.runDescription.VStr?)
                       && (a.instrumentPlatform.VNone? || a.instrumentPlatform.VStr?)
                       && (a.instrumentType.VNone? || a.instrumentType.VStr?)
    ensures r.Err? ==> r.error.SchemaViolation?
  {
    var _ :- OptInt("file_format_version", a.fileFormatVersion);
    var _ :- OptStr("run_name", a.runName);
    var _ :- OptStr("run_description", a.runDescription);
    var _ :- OptStr("instrument_platform", a.instrumentPlatform);
    var _ :- OptStr("instrument_type", a.instrumentType);
    Ok(())
  }

  datatype ReadsArgs = ReadsArgs(
    read1Cycles: Value,
    read2Cycles: Value,
    index1Cycles: Value,
    index2Cycles: Value)

  /** `ReadsSectionModel`: `read_1_cycles` is a non-None int, the other counts optional ints. */
  function ValidateReads(a: ReadsArgs): (r: Result<()>)
    ensures r.Ok? <==> && IsIntLike(a.read1Cycles)
                       && (a.read2Cycles.VNone? || IsIntLike(a.read2Cycles))
                       && (a.index1Cycles.VNone? || IsIntLike(a.index1Cycles))
                       && (a.index2Cycles.VNone? || IsIntLike(a.index2Cycles))
    ensures a.read1Cycles.VNone? ==> r == Err(SchemaViolation("read_1_cycles"))
    ensures r.Err? ==> r.error.SchemaViolation?
  {
    var _ :- ReqInt("read_1_cycles", a.read1Cycles);
    var _ :- OptInt("read_2_cycles", a.read2Cycles);
    var _ :- OptInt("index_1_cycles", a.index1Cycles);
    var _ :- OptInt("index_2_cycles", a.index2Cycles);
    Ok(())
  }

  datatype BclConvertSettingsArgs = BclConvertSettingsArgs(
    adapterBehavior: Value,
    adapterRead1: Value,
    adapterRead2: Value,
    adapterStringency: Value,
    barcodeMismatchesIndex1: Value,
    barcodeMismatchesIndex2: Value,
    minimumTrimmedReadLength: Value,
    minimumAdapterOverlap: Value,
    maskShortReads: Value,
    overrideCycles: Value,
    trimUmi: Value,
    createFastqForIndexReads: Value,
    noLaneSplitting: Value,
    fastqCompressionFormat: Value,
    findAdaptersWithIndels: Value,
    independentIndexCollisionCheck: Value)

  /** `BCLConvertSettingsSectionModel`: every field optional; a given field must have its type,
      the two enums accept only their values, the collision check only a list. */
  function ValidateBclConvertSettings(a: BclConvertSettingsArgs): (r: Result<()>)
    ensures r.Ok? <==> && (a.adapterBehavior.VNone? || (a.adapterBehavior.VStr? && a.adapterBehavior.s in AdapterBehaviourValues))
                       && (a.adapterRead1.VNone? || a.adapterRead1.VStr?)
                       && (a.adapterRead2.VNone? || a.adapterRead2.VStr?)
                       && (a.adapterStringency.VNone? || IsFloatLike(a.adapterStringency))
                       && (a.barcodeMismatchesIndex1.VNone? || IsIntLike(a.barcodeMismatchesIndex1))
                       && (a.barcodeMismatchesIndex2.VNone? || IsIntLike(a.barcodeMismatchesIndex2))
                       && (a.minimumTrimmedReadLength.VNone? || IsIntLike(a.minimumTrimmedReadLength))
                       && (a.minimumAdapterOverlap.VNone? || IsIntLike(a.minimumAdapterOverlap))
                       && (a.maskShortReads.VNone? || IsIntLike(a.maskShortReads))
                       && (a.overrideCycles.VNone? || a.overrideCycles.VStr?)
                       && (a.trimUmi.VNone? || IsBoolLike(a.trimUmi))
                       && (a.createFastqForIndexReads.VNone? || IsBoolLike(a.createFastqForIndexReads))
                       && (a.noLaneSplitting.VNone? || IsBoolLike(a.noLaneSplitting))
                       && (a.fastqCompressionFormat.VNone? ||
                           (a.fastqCompressionFormat.VStr? && a.fastqCompressionFormat.s in FastqCompressionFormatValues))
                       && (a.findAdaptersWithIndels.VNone? || IsBoolLike(a.findAdaptersWithIndels))
                       && (a.independentIndexCollisionCheck.VNone? || a.independentIndexCollisionCheck.VList?)
    ensures r.Err? ==> r.error.SchemaViolation?
  {
    var _ :- OptAdapterBehaviour("adapter_behavior", a.adapterBehavior);
    var _ :- OptStr("adapter_read_1", a.adapterRead1);
    var _ :- OptStr("adapter_read_2", a.adapterRead2);
    var _ :- OptFloat("adapter_stringency", a.adapterStringency);
    var _ :- OptInt("barcode_mismatches_index_1", a.barcodeMismatchesIndex1);
    var _ :- OptInt("barcode_mismatches_index_2", a.barcodeMismatchesIndex2);
    var _ :- OptInt("minimum_trimmed_read_length", a.minimumTrimmedReadLength);
    var _ :- OptInt("minimum_adapter_overlap", a.minimumAdapterOverlap);
    var _ :- OptInt("mask_short_reads", a.maskShortReads);
    var _ :- OptStr("override_cycles", a.overrideCycles);
    var _ :- OptBool("trim_umi", a.trimUmi);
    var _ :- OptBool("create_fastq_for_index_reads", a.createFastqForIndexReads);
    var _ :- OptBool("no_lane_splitting", a.noLaneSplitting);
    var _ :- OptFastqCompressionFormat("fastq_compression_format", a.fastqCompressionFormat);
    var _ :- OptBool("find_adapters_with_indels", a.findAdaptersWithIndels);
    var _ :- OptList("independent_index_collision_check", a.independentIndexCollisionCheck);
    Ok(())
  }

  /** An adapter behaviour other than `trim`/`mask` fails validation whatever the other fields. */
  lemma AdapterBehaviourChecked(a: BclConvertSettingsArgs)
    requires a.adapterBehavior.VStr? && a.adapterBehavior.s !in AdapterBehaviourValues
    ensures ValidateBclConvertSettings(a) == Err(SchemaViolation("adapter_behavior"))
  {
  }

  /** A BCLConvert data row: the attributes of the older `BCLConvertDataRow`. */
  datatype BclConvertDataRow = BclConvertDataRow(
    sampleId: Value,
    lane: Value,
    index: Value,
    index2: Value,
    sampleProject: Value,
    sampleName: Value,
    overrideCycles: Value,
    barcodeMismatchesIndex1: Value,
    barcodeMismatchesIndex2: Value,
    adapterRead1: Value,
    adapterRead2: Value,
    adapterBehavior: Value,
    adapterStringency: Value)

  /** `BCLConvertDataRowModel`: `sample_id` a non-None string, every other field optional and of
      its type when given; a missing sample id is reported first, then a bad lane. */
  function ValidateDataRow(row: BclConvertDataRow): (r: Result<()>)
    ensures r.Ok? <==> && row.sampleId.VStr?
                       && (row.lane.VNone? || IsIntLike(row.lane))
                       && (row.index.VNone? || row.index.VStr?)
                       && (row.index2.VNone? || row.index2.VStr?)
                       && (row.sampleProject.VNone? || row.sampleProject.VStr?)
                       && (row.sampleName.VNone? || row.sampleName.VStr?)
                       && (row.overrideCycles.VNone? || row.overrideCycles.VStr?)
                       && (row.barcodeMismatchesIndex1.VNone? || IsIntLike(row.barcodeMismatchesIndex1))
                       && (row.barcodeMismatchesIndex2.VNone? || IsIntLike(row.barcodeMismatchesIndex2))
                       && (row.adapterRead1.VNone? || row.adapterRead1.VStr?)
                       && (row.adapterRead2.VNone? || row.adapterRead2.VStr?)
                       && (row.adapterBehavior.VNone? || (row.adapterBehavior.VStr? && row.adapterBehavior.s in AdapterBehaviourValues))
                       && (row.adapterStringency.VNone? || IsFloatLike(row.adapterStringency))
    ensures !row.sampleId.VStr? ==> r == Err(SchemaViolation("sample_id"))
    ensures row.sampleId.VStr? && !(row.lane.VNone? || IsIntLike(row.lane)) ==> r == Err(SchemaViolation("lane"))
    ensures r.Err? ==> r.error.SchemaViolation?
  {
    var _ :- ReqStr("sample_id", row.sampleId);
    var _ :- OptInt("lane", row.lane);
    var _ :- OptStr("index", row.index);
    var _ :- OptStr("index2", row.index2);
    var _ :- OptStr("sample_project", row.sampleProject);
    var _ :- OptStr("sample_name", row.sampleName);
    var _ :- OptStr("override_cycles", row.overrideCycles);
    var _ :- OptInt("barcode_mismatches_index1", row.barcodeMismatchesIndex1);
    var _ :- OptInt("barcode_mismatches_index2", row.barcodeMismatchesIndex2);
    var _ :- OptStr("adapter_read_1", row.adapterRead1);
    var _ :- OptStr("adapter_read_2", row.adapterRead2);
    var _ :- OptAdapterBehaviour("adapter_behavior", row.adapterBehavior);
    var _ :- OptFloat("adapter_stringency", row.adapterStringency);
    Ok(())
  }

  /** `BCLConvertDataSectionModel`: valid exactly when every row is. */
  function ValidateDataRows(rows: seq<BclConvertDataRow>): (r: Result<()>)
    ensures r.Ok? <==> forall i :: 0 <= i < |rows| ==> ValidateDataRow(rows[i]).Ok?
  {
    if rows == [] then Ok(())
    else
      var _ :- ValidateDataRow(rows[0]);
      var rest := ValidateDataRows(rows[1..]);
      assert forall i :: 1 <= i < |rows| ==> rows[i] == rows[1..][i - 1];
      rest
  }
}
