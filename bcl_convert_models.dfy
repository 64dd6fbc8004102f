/** The newer BCLConvert schemas: the settings model and the data-row model with their
    `to_dict` and `to_json` tables and the row's cloud-data derivation. */
module BclConvertModels {
  import opened Wrappers
  import opened Text
  import opened Dicts
  import opened Values
  import opened Enums
  import opened CloudModels

  datatype SettingsModel = SettingsModel(
    adapterBehavior: Option<AdapterBehaviour>,
    adapterRead1: Option<string>,
    adapterRead2: Option<string>,
    adapterStringency: Option<string>,
    barcodeMismatchesIndex1: Option<int>,
    barcodeMismatchesIndex2: Option<int>,
    minimumTrimmedReadLength: Option<int>,
    minimumAdapterOverlap: Option<int>,
    maskShortReads: Option<int>,
    overrideCycles: Option<string>,
    trimUmi: Option<bool>,
    createFastqForIndexReads: Option<bool>,
    noLaneSplitting: Option<bool>,
    fastqCompressionFormat: Option<FastqCompressionFormat>,
    findAdaptersWithIndels: Option<bool>,
    independentIndexCollisionCheck: Option<seq<Value>>,
    softwareVersion: Option<string>,
    urn: Option<string>)

  /** `BCLConvertSettingsSectionModel(**d)`: every field optional, each checked against its
      declared type; the first failing field in declaration order is reported. */
  function ParseSettings(d: Dict<Value>): (r: Result<SettingsModel>)
    ensures r.Ok? ==> FromOptStr(r.value.softwareVersion) == Field(d, "software_version")
    ensures r.Ok? ==> FromOptStr(r.value.urn) == Field(d, "urn")
    ensures Field(d, "adapter_behavior").VStr? && Field(d, "adapter_behavior").s !in AdapterBehaviourValues ==>
              r == Err(SchemaViolation("adapter_behavior"))
    ensures Field(d, "fastq_compression_format").VStr? &&
            Field(d, "fastq_compression_format").s !in FastqCompressionFormatValues
            ==> r.Err?
    ensures !(Field(d, "independent_index_collision_check").VNone? ||
              Field(d, "independent_index_collision_check").VList?)
            ==> r.Err?
    ensures r.Err? ==> r.error.SchemaViolation?
  {
    var adapterBehavior :- OptAdapterBehaviour("adapter_behavior", Field(d, "adapter_behavior"));
    var adapterRead1 :- OptStr("adapter_read_1", Field(d, "adapter_read_1"));
    var adapterRead2 :- OptStr("adapter_read_2", Field(d, "adapter_read_2"));
    var adapterStringency :- OptFloat("adapter_stringency", Field(d, "adapter_stringency"));
    var barcodeMismatchesIndex1 :- OptInt("barcode_mismatches_index_1", Field(d, "barcode_mismatches_index_1"));
    var barcodeMismatchesIndex2 :- OptInt("barcode_mismatches_index_2", Field(d, "barcode_mismatches_index_2"));
    var minimumTrimmedReadLength :- OptInt("minimum_trimmed_read_length", Field(d, "minimum_trimmed_read_length"));
    var minimumAdapterOverlap :- OptInt("minimum_adapter_overlap", Field(d, "minimum_adapter_overlap"));
    var maskShortReads :- OptInt("mask_short_reads", Field(d, "mask_short_reads"));
    var overrideCycles :- OptStr("override_cycles", Field(d, "override_cycles"));
    var trimUmi :- OptBool("trim_umi", Field(d, "trim_umi"));
    var createFastqForIndexReads :- OptBool("create_fastq_for_index_reads", Field(d, "create_fastq_for_index_reads"));
    var noLaneSplitting :- OptBool("no_lane_splitting", Field(d, "no_lane_splitting"));
    var fastqCompressionFormat :- OptFastqCompressionFormat("fastq_compression_format", Field(d, "fastq_compression_format"));
    var findAdaptersWithIndels :- OptBool("find_adapters_with_indels", Field(d, "find_adapters_with_indels"));
    var independentIndexCollisionCheck :- OptList("independent_index_collision_check", Field(d, "independent_index_collision_check"));
    var softwareVersion :- OptStr("software_version", Field(d, "software_version"));
    var urn :- OptStr("urn", Field(d, "urn"));
    Ok(SettingsModel(adapterBehavior, adapterRead1, adapterRead2, adapterStringency,
                     barcodeMismatchesIndex1, barcodeMismatchesIndex2, minimumTrimmedReadLength,
                     minimumAdapterOverlap, maskShortReads, overrideCycles, trimUmi,
                     createFastqForIndexReads, noLaneSplitting, fastqCompressionFormat,
                     findAdaptersWithIndels, independentIndexCollisionCheck, softwareVersion, urn))
  }

  /** `";".join(items)`: every item must be a string. */
  function JoinCollisionCheck(items: seq<Value>): (r: Result<string>)
    ensures r.Ok? <==> AllStrings(items)
    ensures r.Ok? ==> r.value == Join(";", StringsOf(items))
    ensures r.Err? ==> r.error == NonStringJoin
  {
    if AllStrings(items) then Ok(Join(";", StringsOf(items))) else Err(NonStringJoin)
  }

  /** `BCLConvertSettingsSectionModel.to_dict`; only the collision-check join can fail. */
  function SettingsToDict(m: SettingsModel): Result<Dict<Value>> {
    var collisionCheck :- if m.independentIndexCollisionCheck.None? then Ok(VNone)
                          else var j :- JoinCollisionCheck(m.independentIndexCollisionCheck.value); Ok(VStr(j));
    Ok([ ("AdapterBehavior", FromOptAdapterBehaviour(m.adapterBehavior)),
         ("AdapterRead1", FromOptStr(m.adapterRead1)),
         ("AdapterRead2", FromOptStr(m.adapterRead2)),
         ("AdapterStringency", FromOptFloat(m.adapterStringency)),
         ("BarcodeMismatchesIndex1", FromOptInt(m.barcodeMismatchesIndex1)),
         ("BarcodeMismatchesIndex2", FromOptInt(m.barcodeMismatchesIndex2)),
         ("MinimumTrimmedReadLength", FromOptInt(m.minimumTrimmedReadLength)),
         ("MinimumAdapterOverlap", FromOptInt(m.minimumAdapterOverlap)),
         ("MaskShortReads", FromOptInt(m.maskShortReads)),
         ("OverrideCycles", FromOptStr(m.overrideCycles)),
         ("TrimUMI", FromOptBool(m.trimUmi)),
         ("CreateFastqForIndexReads", FromOptBool(m.createFastqForIndexReads)),
         ("NoLaneSplitting", FromOptBool(m.noLaneSplitting)),
         ("FastqCompressionFormat", FromOptFastqCompressionFormat(m.fastqCompressionFormat)),
         ("FindAdaptersWithIndels", FromOptBool(m.findAdaptersWithIndels)),
         ("IndependentIndexCollisionCheck", collisionCheck),
         ("SoftwareVersion", FromOptStr(m.softwareVersion)) ])
  }

  const SettingsDictKeys: seq<string> := [
    "AdapterBehavior", "AdapterRead1", "AdapterRead2", "AdapterStringency", "BarcodeMismatchesIndex1",
    "BarcodeMismatchesIndex2", "MinimumTrimmedReadLength", "MinimumAdapterOverlap", "MaskShortReads",
    "OverrideCycles", "TrimUMI", "CreateFastqForIndexReads", "NoLaneSplitting", "FastqCompressionFormat",
    "FindAdaptersWithIndels", "IndependentIndexCollisionCheck", "SoftwareVersion"]

  lemma SettingsDictKeysDistinct()
    ensures forall i, j :: 0 <= i < j < |SettingsDictKeys| ==> SettingsDictKeys[i] != SettingsDictKeys[j]
  {
  }

  /** `to_dict` fails, with the join's error, exactly on a collision check holding a
      non-string item. */
  lemma SettingsToDictFails(m: SettingsModel)
    ensures SettingsToDict(m).Ok? <==>
              m.independentIndexCollisionCheck.None? || AllStrings(m.independentIndexCollisionCheck.value)
    ensures SettingsToDict(m).Err? ==> SettingsToDict(m).error == NonStringJoin
  {
  }

  /** A `to_dict` that succeeds has the 17 external keys in order. */
  lemma SettingsToDictKeys(m: SettingsModel)
    requires SettingsToDict(m).Ok?
    ensures Keys(SettingsToDict(m).value) == SettingsDictKeys
  {
  }

  /** The external keys do not include the URN. */
  lemma SettingsDictKeysNoUrn()
    ensures "Urn" !in SettingsDictKeys && "urn" !in SettingsDictKeys
  {
  }

  /** A `to_dict` that succeeds holds the enums as their values and the collision check as
      its `;`-join, None staying None. */
  lemma SettingsToDictValues(m: SettingsModel)
    requires SettingsToDict(m).Ok?
    ensures var t := SettingsToDict(m).value;
            && |t| == 17
            && t[0] == ("AdapterBehavior",
                        if m.adapterBehavior.Some? then VStr(m.adapterBehavior.value.Value()) else VNone)
            && t[10] == ("TrimUMI", FromOptBool(m.trimUmi))
            && t[13] == ("FastqCompressionFormat",
                         if m.fastqCompressionFormat.Some? then VStr(m.fastqCompressionFormat.value.Value()) else VNone)
            && t[15] == ("IndependentIndexCollisionCheck",
                         if m.independentIndexCollisionCheck.None? then VNone
                         else VStr(Join(";", StringsOf(m.independentIndexCollisionCheck.value))))
            && t[16] == ("SoftwareVersion", FromOptStr(m.softwareVersion))
  {
  }

  /** `BCLConvertSettingsSectionModel.to_json`: snake-case keys, the collision check kept as
      a list. */
  function SettingsToJson(m: SettingsModel): Dict<Value> {
    [ ("adapter_behavior", FromOptAdapterBehaviour(m.adapterBehavior)),
      ("adapter_read_1", FromOptStr(m.adapterRead1)),
      ("adapter_read_2", FromOptStr(m.adapterRead2)),
      ("adapter_stringency", FromOptFloat(m.adapterStringency)),
      ("barcode_mismatches_index_1", FromOptInt(m.barcodeMismatchesIndex1)),
      ("barcode_mismatches_index_2", FromOptInt(m.barcodeMismatchesIndex2)),
      ("minimum_trimmed_read_length", FromOptInt(m.minimumTrimmedReadLength)),
      ("minimum_adapter_overlap", FromOptInt(m.minimumAdapterOverlap)),
      ("mask_short_reads", FromOptInt(m.maskShortReads)),
      ("override_cycles", FromOptStr(m.overrideCycles)),
      ("trim_umi", FromOptBool(m.trimUmi)),
      ("create_fastq_for_index_reads", FromOptBool(m.createFastqForIndexReads)),
      ("no_lane_splitting", FromOptBool(m.noLaneSplitting)),
      ("fastq_compression_format", FromOptFastqCompressionFormat(m.fastqCompressionFormat)),
      ("find_adapters_with_indels", FromOptBool(m.findAdaptersWithIndels)),
      ("independent_index_collision_check",
       if m.independentIndexCollisionCheck.Some? then VList(m.independentIndexCollisionCheck.value) else VNone),
      ("software_version", FromOptStr(m.softwareVersion)) ]
  }

  const SettingsJsonKeys: seq<string> := [
    "adapter_behavior", "adapter_read_1", "adapter_read_2", "adapter_stringency", "barcode_mismatches_index_1",
    "barcode_mismatches_index_2", "minimum_trimmed_read_length", "minimum_adapter_overlap", "mask_short_reads",
    "override_cycles", "trim_umi", "create_fastq_for_index_reads", "no_lane_splitting", "fastq_compression_format",
    "find_adapters_with_indels", "independent_index_collision_check", "software_version"]

  lemma SettingsJsonKeysDistinct()
    ensures forall i, j :: 0 <= i < j < |SettingsJsonKeys| ==> SettingsJsonKeys[i] != SettingsJsonKeys[j]
  {
  }

  /** `to_json` has the 17 snake-case keys and no `urn`. */
  lemma SettingsToJsonKeys(m: SettingsModel)
    ensures Keys(SettingsToJson(m)) == SettingsJsonKeys
    ensures UniqueKeys(SettingsToJson(m))
    ensures "urn" !in Keys(SettingsToJson(m))
  {
    SettingsJsonKeysDistinct();
    UniqueKeysOf(SettingsToJson(m), SettingsJsonKeys);
  }

  /** The fields validation reads from `d` are those `to_json` writes for `m`, and no `urn`. */
  predicate JsonFieldsOf(d: Dict<Value>, m: SettingsModel) {
    && Field(d, "adapter_behavior") == FromOptAdapterBehaviour(m.adapterBehavior)
    && Field(d, "adapter_read_1") == FromOptStr(m.adapterRead1)
    && Field(d, "adapter_read_2") == FromOptStr(m.adapterRead2)
    && Field(d, "adapter_stringency") == FromOptFloat(m.adapterStringency)
    && Field(d, "barcode_mismatches_index_1") == FromOptInt(m.barcodeMismatchesIndex1)
    && Field(d, "barcode_mismatches_index_2") == FromOptInt(m.barcodeMismatchesIndex2)
    && Field(d, "minimum_trimmed_read_length") == FromOptInt(m.minimumTrimmedReadLength)
    && Field(d, "minimum_adapter_overlap") == FromOptInt(m.minimumAdapterOverlap)
    && Field(d, "mask_short_reads") == FromOptInt(m.maskShortReads)
    && Field(d, "override_cycles") == FromOptStr(m.overrideCycles)
    && Field(d, "trim_umi") == FromOptBool(m.trimUmi)
    && Field(d, "create_fastq_for_index_reads") == FromOptBool(m.createFastqForIndexReads)
    && Field(d, "no_lane_splitting") == FromOptBool(m.noLaneSplitting)
    && Field(d, "fastq_compression_format") == FromOptFastqCompressionFormat(m.fastqCompressionFormat)
    && Field(d, "find_adapters_with_indels") == FromOptBool(m.findAdaptersWithIndels)
    && Field(d, "independent_index_collision_check") ==
         (if m.independentIndexCollisionCheck.Some? then VList(m.independentIndexCollisionCheck.value) else VNone)
    && Field(d, "software_version") == FromOptStr(m.softwareVersion)
    && Field(d, "urn") == VNone
  }

  /** What validation reads back from `to_json`: each field as written, and no `urn`. */
  lemma SettingsToJsonFields(m: SettingsModel)
    ensures JsonFieldsOf(SettingsToJson(m), m)
  {
    var t := SettingsToJson(m);
    SettingsToJsonKeys(m);
    FieldOfUnique(t, 0);
    FieldOfUnique(t, 1);
    FieldOfUnique(t, 2);
    FieldOfUnique(t, 3);
    FieldOfUnique(t, 4);
    FieldOfUnique(t, 5);
    FieldOfUnique(t, 6);
    FieldOfUnique(t, 7);
    FieldOfUnique(t, 8);
    FieldOfUnique(t, 9);
    FieldOfUnique(t, 10);
    FieldOfUnique(t, 11);
    FieldOfUnique(t, 12);
    FieldOfUnique(t, 13);
    FieldOfUnique(t, 14);
    FieldOfUnique(t, 15);
    FieldOfUnique(t, 16);
  }

  /** Validating `to_json` gives the model back, except that the URN is lost. */
  lemma SettingsJsonRoundTrip(m: SettingsModel)
    ensures ParseSettings(SettingsToJson(m)) == Ok(m.(urn := None))
  {
    SettingsToJsonFields(m);
    ParseSettingsOf(SettingsToJson(m), m);
  }

  /** A dict holding the fields `to_json` writes for `m` validates as `m` without its URN. */
  lemma ParseSettingsOf(d: Dict<Value>, m: SettingsModel)
    requires JsonFieldsOf(d, m)
    ensures ParseSettings(d) == Ok(m.(urn := None))
  {
    OptStrRoundTrip("adapter_read_1", m.adapterRead1);
    assert OptStr("adapter_read_1", Field(d, "adapter_read_1")) == Ok(m.adapterRead1);
    OptStrRoundTrip("adapter_read_2", m.adapterRead2);
    assert OptStr("adapter_read_2", Field(d, "adapter_read_2")) == Ok(m.adapterRead2);
    OptFloatRoundTrip("adapter_stringency", m.adapterStringency);
    assert OptFloat("adapter_stringency", Field(d, "adapter_stringency")) == Ok(m.adapterStringency);
    OptIntRoundTrip("barcode_mismatches_index_1", m.barcodeMismatchesIndex1);
    assert OptInt("barcode_mismatches_index_1", Field(d, "barcode_mismatches_index_1")) == Ok(m.barcodeMismatchesIndex1);
    OptIntRoundTrip("barcode_mismatches_index_2", m.barcodeMismatchesIndex2);
    assert OptInt("barcode_mismatches_index_2", Field(d, "barcode_mismatches_index_2")) == Ok(m.barcodeMismatchesIndex2);
    OptIntRoundTrip("minimum_trimmed_read_length", m.minimumTrimmedReadLength);
    assert OptInt("minimum_trimmed_read_length", Field(d, "minimum_trimmed_read_length")) == Ok(m.minimumTrimmedReadLength);
    OptIntRoundTrip("minimum_adapter_overlap", m.minimumAdapterOverlap);
    assert OptInt("minimum_adapter_overlap", Field(d, "minimum_adapter_overlap")) == Ok(m.minimumAdapterOverlap);
    OptIntRoundTrip("mask_short_reads", m.maskShortReads);
    assert OptInt("mask_short_reads", Field(d, "mask_short_reads")) == Ok(m.maskShortReads);
    OptStrRoundTrip("override_cycles", m.overrideCycles);
    assert OptStr("override_cycles", Field(d, "override_cycles")) == Ok(m.overrideCycles);
    OptBoolRoundTrip("trim_umi", m.trimUmi);
    assert OptBool("trim_umi", Field(d, "trim_umi")) == Ok(m.trimUmi);
    OptBoolRoundTrip("create_fastq_for_index_reads", m.createFastqForIndexReads);
    assert OptBool("create_fastq_for_index_reads", Field(d, "create_fastq_for_index_reads")) == Ok(m.createFastqForIndexReads);
    OptBoolRoundTrip("no_lane_splitting", m.noLaneSplitting);
    assert OptBool("no_lane_splitting", Field(d, "no_lane_splitting")) == Ok(m.noLaneSplitting);
    OptBoolRoundTrip("find_adapters_with_indels", m.findAdaptersWithIndels);
    assert OptBool("find_adapters_with_indels", Field(d, "find_adapters_with_indels")) == Ok(m.findAdaptersWithIndels);
    OptStrRoundTrip("software_version", m.softwareVersion);
    assert OptStr("software_version", Field(d, "software_version")) == Ok(m.softwareVersion);
    assert OptAdapterBehaviour("adapter_behavior", Field(d, "adapter_behavior")) == Ok(m.adapterBehavior);
    assert OptFastqCompressionFormat("fastq_compression_format", Field(d, "fastq_compression_format")) == Ok(m.fastqCompressionFormat);
    assert OptList("independent_index_collision_check", Field(d, "independent_index_collision_check")) == Ok(m.independentIndexCollisionCheck);
    assert OptStr("urn", Field(d, "urn")) == Ok(None);
  }

  // ---------------------------------------------------------------------------
  // Data rows

  datatype DataRowModel = DataRowModel(
    sampleId: string,
    lane: Option<int>,
    index: Option<string>,
    index2: Option<string>,
    sampleProject: Option<string>,
    sampleName: Option<string>,
    overrideCycles: Option<string>,
    barcodeMismatchesIndex1: Option<int>,
    barcodeMismatchesIndex2: Option<int>,
    adapterRead1: Option<string>,
    adapterRead2: Option<string>,
    adapterBehavior: Option<AdapterBehaviour>,
    adapterStringency: Option<string>,
    libraryPrepKitName: Option<string>,
    indexAdapterKitName: Option<string>)

  /** `BCLConvertDataRowModel(**d)`: `sample_id` a required string, `lane` an integer when
      given, the rest optional. */
  function ParseDataRow(d: Dict<Value>): (r: Result<DataRowModel>)
    ensures !Field(d, "sample_id").VStr? ==> r == Err(SchemaViolation("sample_id"))
    ensures Field(d, "sample_id").VStr? && !(Field(d, "lane").VNone? || IsIntLike(Field(d, "lane"))) ==>
              r == Err(SchemaViolation("lane"))
    ensures r.Ok? ==> && VStr(r.value.sampleId) == Field(d, "sample_id")
                      && FromOptStr(r.value.index) == Field(d, "index")
                      && FromOptStr(r.value.index2) == Field(d, "index2")
                      && FromOptStr(r.value.libraryPrepKitName) == Field(d, "library_prep_kit_name")
                      && FromOptStr(r.value.indexAdapterKitName) == Field(d, "index_adapter_kit_name")
    ensures r.Err? ==> r.error.SchemaViolation?
  {
    var sampleId :- ReqStr("sample_id", Field(d, "sample_id"));
    var lane :- OptInt("lane", Field(d, "lane"));
    var index :- OptStr("index", Field(d, "index"));
    var index2 :- OptStr("index2", Field(d, "index2"));
    var sampleProject :- OptStr("sample_project", Field(d, "sample_project"));
    var sampleName :- OptStr("sample_name", Field(d, "sample_name"));
    var overrideCycles :- OptStr("override_cycles", Field(d, "override_cycles"));
    var barcodeMismatchesIndex1 :- OptInt("barcode_mismatches_index_1", Field(d, "barcode_mismatches_index_1"));
    var barcodeMismatchesIndex2 :- OptInt("barcode_mismatches_index_2", Field(d, "barcode_mismatches_index_2"));
    var adapterRead1 :- OptStr("adapter_read_1", Field(d, "adapter_read_1"));
    var adapterRead2 :- OptStr("adapter_read_2", Field(d, "adapter_read_2"));
    var adapterBehavior :- OptAdapterBehaviour("adapter_behavior", Field(d, "adapter_behavior"));
    var adapterStringency :- OptFloat("adapter_stringency", Field(d, "adapter_stringency"));
    var libraryPrepKitName :- OptStr("library_prep_kit_name", Field(d, "library_prep_kit_name"));
    var indexAdapterKitName :- OptStr("index_adapter_kit_name", Field(d, "index_adapter_kit_name"));
    Ok(DataRowModel(sampleId, lane, index, index2, sampleProject, sampleName, overrideCycles,
                    barcodeMismatchesIndex1, barcodeMismatchesIndex2, adapterRead1, adapterRead2,
                    adapterBehavior, adapterStringency, libraryPrepKitName, indexAdapterKitName))
  }

  /** A lane that is not an integer, such as "one", is rejected. */
  lemma LaneOneRejected(d: Dict<Value>)
    requires Field(d, "sample_id").VStr? && Field(d, "lane") == VStr("one")
    ensures ParseDataRow(d) == Err(SchemaViolation("lane"))
  {
    OptIntRejectsWord();
  }

  /** `BCLConvertDataRowModel.to_dict` */
  function DataRowToDict(m: DataRowModel): Dict<Value> {
    [ ("Lane", FromOptInt(m.lane)),
      ("Sample_ID", VStr(m.sampleId)),
      ("index", FromOptStr(m.index)),
      ("index2", FromOptStr(m.index2)),
      ("Sample_Project", FromOptStr(m.sampleProject)),
      ("Sample_Name", FromOptStr(m.sampleName)),
      ("OverrideCycles", FromOptStr(m.overrideCycles)),
      ("BarcodeMismatchesIndex1", FromOptInt(m.barcodeMismatchesIndex1)),
      ("BarcodeMismatchesIndex2", FromOptInt(m.barcodeMismatchesIndex2)),
      ("AdapterRead1", FromOptStr(m.adapterRead1)),
      ("AdapterRead2", FromOptStr(m.adapterRead2)),
      ("AdapterBehavior", FromOptAdapterBehaviour(m.adapterBehavior)),
      ("AdapterStringency", FromOptFloat(m.adapterStringency)) ]
  }

  const DataRowDictKeys: seq<string> := [
    "Lane", "Sample_ID", "index", "index2", "Sample_Project", "Sample_Name", "OverrideCycles",
    "BarcodeMismatchesIndex1", "BarcodeMismatchesIndex2", "AdapterRead1", "AdapterRead2",
    "AdapterBehavior", "AdapterStringency"]

  /** `to_dict` has the 13 external keys with Lane first and the sample id second; the kit
      names are not among them. */
  lemma DataRowToDictShape(m: DataRowModel)
    ensures Keys(DataRowToDict(m)) == DataRowDictKeys
    ensures DataRowToDict(m)[..2] == [("Lane", FromOptInt(m.lane)), ("Sample_ID", VStr(m.sampleId))]
    ensures DataRowToDict(m)[11] ==
              ("AdapterBehavior", if m.adapterBehavior.Some? then VStr(m.adapterBehavior.value.Value()) else VNone)
  {
  }

  /** `BCLConvertDataRowModel.to_json`: eleven snake-case keys, without the adapter behaviour
      and stringency. */
  function DataRowToJson(m: DataRowModel): Dict<Value> {
    [ ("lane", FromOptInt(m.lane)),
      ("sample_id", VStr(m.sampleId)),
      ("index", FromOptStr(m.index)),
      ("index2", FromOptStr(m.index2)),
      ("sample_project", FromOptStr(m.sampleProject)),
      ("sample_name", FromOptStr(m.sampleName)),
      ("override_cycles", FromOptStr(m.overrideCycles)),
      ("barcode_mismatches_index_1", FromOptInt(m.barcodeMismatchesIndex1)),
      ("barcode_mismatches_index_2", FromOptInt(m.barcodeMismatchesIndex2)),
      ("adapter_read_1", FromOptStr(m.adapterRead1)),
      ("adapter_read_2", FromOptStr(m.adapterRead2)) ]
  }

  const DataRowJsonKeys: seq<string> := [
    "lane", "sample_id", "index", "index2", "sample_project", "sample_name", "override_cycles",
    "barcode_mismatches_index_1", "barcode_mismatches_index_2", "adapter_read_1", "adapter_read_2"]

  lemma DataRowJsonKeysDistinct()
    ensures forall i, j :: 0 <= i < j < |DataRowJsonKeys| ==> DataRowJsonKeys[i] != DataRowJsonKeys[j]
  {
  }

  /** `to_json` has the eleven snake-case keys, without `adapter_behavior` and
      `adapter_stringency`. */
  lemma DataRowToJsonKeys(m: DataRowModel)
    ensures Keys(DataRowToJson(m)) == DataRowJsonKeys
    ensures UniqueKeys(DataRowToJson(m))
    ensures "adapter_behavior" !in Keys(DataRowToJson(m)) && "adapter_stringency" !in Keys(DataRowToJson(m))
    ensures "library_prep_kit_name" !in Keys(DataRowToJson(m)) && "index_adapter_kit_name" !in Keys(DataRowToJson(m))
  {
    DataRowJsonKeysDistinct();
    UniqueKeysOf(DataRowToJson(m), DataRowJsonKeys);
  }

  lemma DataRowToJsonFields(m: DataRowModel)
    ensures var t := DataRowToJson(m);
            && Field(t, "lane") == FromOptInt(m.lane)
            && Field(t, "sample_id") == VStr(m.sampleId)
            && Field(t, "index") == FromOptStr(m.index)
            && Field(t, "index2") == FromOptStr(m.index2)
            && Field(t, "sample_project") == FromOptStr(m.sampleProject)
            && Field(t, "sample_name") == FromOptStr(m.sampleName)
            && Field(t, "override_cycles") == FromOptStr(m.overrideCycles)
            && Field(t, "barcode_mismatches_index_1") == FromOptInt(m.barcodeMismatchesIndex1)
            && Field(t, "barcode_mismatches_index_2") == FromOptInt(m.barcodeMismatchesIndex2)
            && Field(t, "adapter_read_1") == FromOptStr(m.adapterRead1)
            && Field(t, "adapter_read_2") == FromOptStr(m.adapterRead2)
            && Field(t, "adapter_behavior") == VNone
            && Field(t, "adapter_stringency") == VNone
            && Field(t, "library_prep_kit_name") == VNone
            && Field(t, "index_adapter_kit_name") == VNone
  {
    var t := DataRowToJson(m);
    DataRowToJsonKeys(m);
    FieldOfUnique(t, 0);
    FieldOfUnique(t, 1);
    FieldOfUnique(t, 2);
    FieldOfUnique(t, 3);
    FieldOfUnique(t, 4);
    FieldOfUnique(t, 5);
    FieldOfUnique(t, 6);
    FieldOfUnique(t, 7);
    FieldOfUnique(t, 8);
    FieldOfUnique(t, 9);
    FieldOfUnique(t, 10);
  }

  /** Validating `to_json` gives the row back without its adapter behaviour, adapter
      stringency and kit names, which `to_json` does not carry. */
  lemma DataRowJsonRoundTrip(m: DataRowModel)
    ensures ParseDataRow(DataRowToJson(m)) ==
              Ok(m.(adapterBehavior := None, adapterStringency := None,
                    libraryPrepKitName := None, indexAdapterKitName := None))
  {
    DataRowToJsonFields(m);
    OptIntRoundTrip("lane", m.lane);
    OptStrRoundTrip("index", m.index);
    OptStrRoundTrip("index2", m.index2);
    OptStrRoundTrip("sample_project", m.sampleProject);
    OptStrRoundTrip("sample_name", m.sampleName);
    OptStrRoundTrip("override_cycles", m.overrideCycles);
    OptIntRoundTrip("barcode_mismatches_index_1", m.barcodeMismatchesIndex1);
    OptIntRoundTrip("barcode_mismatches_index_2", m.barcodeMismatchesIndex2);
    OptStrRoundTrip("adapter_read_1", m.adapterRead1);
    OptStrRoundTrip("adapter_read_2", m.adapterRead2);
  }

  /** `get_cloud_data_section_row` */
  function DataRowCloudRow(m: DataRowModel): Dict<Value> {
    CloudDataSectionRow(m.sampleId, m.index, m.index2, m.libraryPrepKitName, m.indexAdapterKitName)
  }

  /** The cloud row of a row carries its sample id and kit names, and a library name built
      from the sample id and the indices that are present. */
  lemma DataRowCloudRowValid(m: DataRowModel)
    ensures ParseCloudDataRow(DataRowCloudRow(m)) ==
              Ok(CloudDataRowModel(Some(m.sampleId), None, Some(LibraryName(m.sampleId, m.index, m.index2)),
                                   m.libraryPrepKitName, m.indexAdapterKitName))
  {
    CloudDataSectionRowValid(m.sampleId, m.index, m.index2, m.libraryPrepKitName, m.indexAdapterKitName);
  }

  /** `BCLConvertDataSectionModel.row_order_columns` */
  const DataOrderColumns: seq<string> := ["Lane", "Sample_ID"]

  lemma DataOrderColumnsLead()
    ensures DataOrderColumns == DataRowDictKeys[..2]
  {
  }
}
