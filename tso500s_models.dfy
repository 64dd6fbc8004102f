/** The TSO500 solid-tumour schemas: `TSO500SSettingsSectionModel`, `TSO500SDataRowModel`
    and the data section's row order. `TSO500SSampleType` and `TSO500SSampleFeature` are not
    defined in the repository; each is a parameter here, the set of its permitted values. */
module TSO500SModels {
  import opened Wrappers
  import opened Dicts
  import opened Values
  import opened Enums
  import opened CloudModels

  datatype TSO500SSettingsModel = TSO500SSettingsModel(
    adapterRead1: Option<string>,
    adapterRead2: Option<string>,
    adapterBehaviour: Option<AdapterBehaviour>,
    minimumTrimmedReadLength: Option<int>,
    maskShortReads: Option<int>,
    overrideCycles: Option<string>,
    startsFromFastq: Option<bool>,
    softwareVersion: Option<string>,
    urn: Option<string>)

  /** `TSO500SSettingsSectionModel(**d)`: every field optional; the adapter behaviour field is
      spelt `adapter_behaviour`. */
  function ParseTSO500SSettings(d: Dict<Value>): (r: Result<TSO500SSettingsModel>)
    ensures r.Ok? ==> && FromOptAdapterBehaviour(r.value.adapterBehaviour) == Field(d, "adapter_behaviour")
                      && FromOptStr(r.value.urn) == Field(d, "urn")
    ensures && OptStr("adapter_read_1", Field(d, "adapter_read_1")).Ok?
            && OptStr("adapter_read_2", Field(d, "adapter_read_2")).Ok?
            && Field(d, "adapter_behaviour").VStr? && Field(d, "adapter_behaviour").s !in AdapterBehaviourValues
            ==> r == Err(SchemaViolation("adapter_behaviour"))
    ensures r.Err? ==> r.error.SchemaViolation?
  {
    var adapterRead1 :- OptStr("adapter_read_1", Field(d, "adapter_read_1"));
    var adapterRead2 :- OptStr("adapter_read_2", Field(d, "adapter_read_2"));
    var adapterBehaviour :- OptAdapterBehaviour("adapter_behaviour", Field(d, "adapter_behaviour"));
    var minimumTrimmedReadLength :- OptInt("minimum_trimmed_read_length", Field(d, "minimum_trimmed_read_length"));
    var maskShortReads :- OptInt("mask_short_reads", Field(d, "mask_short_reads"));
    var overrideCycles :- OptStr("override_cycles", Field(d, "override_cycles"));
    var startsFromFastq :- OptBool("starts_from_fastq", Field(d, "starts_from_fastq"));
    var softwareVersion :- OptStr("software_version", Field(d, "software_version"));
    var urn :- OptStr("urn", Field(d, "urn"));
    Ok(TSO500SSettingsModel(adapterRead1, adapterRead2, adapterBehaviour, minimumTrimmedReadLength,
                            maskShortReads, overrideCycles, startsFromFastq, softwareVersion, urn))
  }

  /** `TSO500SSettingsSectionModel.to_dict`: eight external keys, `AdapterBehaviour` spelt the
      British way and written as its value; no URN. */
  function TSO500SSettingsToDict(m: TSO500SSettingsModel): Dict<Value> {
    [ ("AdapterRead1", FromOptStr(m.adapterRead1)),
      ("AdapterRead2", FromOptStr(m.adapterRead2)),
      ("AdapterBehaviour", FromOptAdapterBehaviour(m.adapterBehaviour)),
      ("MinimumTrimmedReadLength", FromOptInt(m.minimumTrimmedReadLength)),
      ("MaskShortReads", FromOptInt(m.maskShortReads)),
      ("OverrideCycles", FromOptStr(m.overrideCycles)),
      ("SoftwareVersion", FromOptStr(m.softwareVersion)),
      ("StartsFromFastq", FromOptBool(m.startsFromFastq)) ]
  }

  const TSO500SSettingsDictKeys: seq<string> := [
    "AdapterRead1", "AdapterRead2", "AdapterBehaviour", "MinimumTrimmedReadLength", "MaskShortReads",
    "OverrideCycles", "SoftwareVersion", "StartsFromFastq"]

  lemma TSO500SSettingsToDictShape(m: TSO500SSettingsModel)
    ensures Keys(TSO500SSettingsToDict(m)) == TSO500SSettingsDictKeys
    ensures "AdapterBehavior" !in TSO500SSettingsDictKeys
    ensures "Urn" !in TSO500SSettingsDictKeys
    ensures TSO500SSettingsToDict(m)[2] ==
              ("AdapterBehaviour", if m.adapterBehaviour.Some? then VStr(m.adapterBehaviour.value.Value()) else VNone)
  {
  }

  /** `TSO500SSettingsSectionModel.to_json`: the same eight fields under snake-case keys. */
  function TSO500SSettingsToJson(m: TSO500SSettingsModel): Dict<Value> {
    [ ("adapter_read_1", FromOptStr(m.adapterRead1)),
      ("adapter_read_2", FromOptStr(m.adapterRead2)),
      ("adapter_behaviour", FromOptAdapterBehaviour(m.adapterBehaviour)),
      ("minimum_trimmed_read_length", FromOptInt(m.minimumTrimmedReadLength)),
      ("mask_short_reads", FromOptInt(m.maskShortReads)),
      ("override_cycles", FromOptStr(m.overrideCycles)),
      ("software_version", FromOptStr(m.softwareVersion)),
      ("starts_from_fastq", FromOptBool(m.startsFromFastq)) ]
  }

  const TSO500SSettingsJsonKeys: seq<string> := [
    "adapter_read_1", "adapter_read_2", "adapter_behaviour", "minimum_trimmed_read_length",
    "mask_short_reads", "override_cycles", "software_version", "starts_from_fastq"]

  /** `to_json` has the eight snake-case keys and no `urn`; it carries the same values as
      `to_dict`, entry by entry. */
  lemma TSO500SSettingsToJsonKeys(m: TSO500SSettingsModel)
    ensures Keys(TSO500SSettingsToJson(m)) == TSO500SSettingsJsonKeys
    ensures UniqueKeys(TSO500SSettingsToJson(m))
    ensures "urn" !in Keys(TSO500SSettingsToJson(m))
    ensures |TSO500SSettingsToJson(m)| == |TSO500SSettingsToDict(m)|
    ensures forall i :: 0 <= i < |TSO500SSettingsToJson(m)| ==> TSO500SSettingsToJson(m)[i].1 == TSO500SSettingsToDict(m)[i].1
  {
    UniqueKeysOf(TSO500SSettingsToJson(m), TSO500SSettingsJsonKeys);
  }

  lemma TSO500SSettingsToJsonFields(m: TSO500SSettingsModel)
    ensures var t := TSO500SSettingsToJson(m);
            && Field(t, "adapter_read_1") == FromOptStr(m.adapterRead1)
            && Field(t, "adapter_read_2") == FromOptStr(m.adapterRead2)
            && Field(t, "adapter_behaviour") == FromOptAdapterBehaviour(m.adapterBehaviour)
            && Field(t, "minimum_trimmed_read_length") == FromOptInt(m.minimumTrimmedReadLength)
            && Field(t, "mask_short_reads") == FromOptInt(m.maskShortReads)
            && Field(t, "override_cycles") == FromOptStr(m.overrideCycles)
            && Field(t, "starts_from_fastq") == FromOptBool(m.startsFromFastq)
            && Field(t, "software_version") == FromOptStr(m.softwareVersion)
            && Field(t, "urn") == VNone
  {
    var t := TSO500SSettingsToJson(m);
    TSO500SSettingsToJsonKeys(m);
    FieldOfUnique(t, 0);
    FieldOfUnique(t, 1);
    FieldOfUnique(t, 2);
    FieldOfUnique(t, 3);
    FieldOfUnique(t, 4);
    FieldOfUnique(t, 5);
    FieldOfUnique(t, 6);
    FieldOfUnique(t, 7);
  }

  /** Validating `to_json` gives the settings back, except that the URN is lost. */
  lemma TSO500SSettingsJsonRoundTrip(m: TSO500SSettingsModel)
    ensures ParseTSO500SSettings(TSO500SSettingsToJson(m)) == Ok(m.(urn := None))
  {
    TSO500SSettingsToJsonFields(m);
    OptStrRoundTrip("adapter_read_1", m.adapterRead1);
    OptStrRoundTrip("adapter_read_2", m.adapterRead2);
    OptAdapterBehaviourRoundTrip("adapter_behaviour", m.adapterBehaviour);
    OptIntRoundTrip("minimum_trimmed_read_length", m.minimumTrimmedReadLength);
    OptIntRoundTrip("mask_short_reads", m.maskShortReads);
    OptStrRoundTrip("override_cycles", m.overrideCycles);
    OptBoolRoundTrip("starts_from_fastq", m.startsFromFastq);
    OptStrRoundTrip("software_version", m.softwareVersion);
  }

  // ---------------------------------------------------------------------------
  // Data rows

  /** The sample type and the sample feature are kept as the values of their (undefined) enums. */
  datatype TSO500SDataRowModel = TSO500SDataRowModel(
    sampleId: string,
    indexId: Option<string>,
    sampleType: string,
    sampleFeature: Option<string>,
    sampleDescription: Option<string>,
    lane: Option<int>,
    index: string,
    index2: string,
    pairId: string,
    libraryPrepKitName: Option<string>,
    indexAdapterKitName: Option<string>)

  /** A row whose enum-valued fields hold permitted values. */
  predicate ValidTSO500SRow(m: TSO500SDataRowModel, sampleTypes: set<string>, sampleFeatures: set<string>) {
    m.sampleType in sampleTypes && (m.sampleFeature.Some? ==> m.sampleFeature.value in sampleFeatures)
  }

  /** `TSO500SDataRowModel(**d)`: the sample id, sample type, both indices and the pair id are
      required. */
  function ParseTSO500SRow(d: Dict<Value>, sampleTypes: set<string>, sampleFeatures: set<string>)
    : (r: Result<TSO500SDataRowModel>)
    ensures !Field(d, "sample_id").VStr? ==> r == Err(SchemaViolation("sample_id"))
    ensures r.Ok? ==> && VStr(r.value.sampleId) == Field(d, "sample_id")
                      && VStr(r.value.sampleType) == Field(d, "sample_type")
                      && VStr(r.value.index) == Field(d, "index")
                      && VStr(r.value.index2) == Field(d, "index2")
                      && VStr(r.value.pairId) == Field(d, "pair_id")
    ensures r.Ok? ==> ValidTSO500SRow(r.value, sampleTypes, sampleFeatures)
    ensures r.Err? ==> r.error.SchemaViolation?
  {
    var sampleId :- ReqStr("sample_id", Field(d, "sample_id"));
    var indexId :- OptStr("index_id", Field(d, "index_id"));
    var sampleType :- ReqMember("sample_type", Field(d, "sample_type"), sampleTypes);
    var sampleFeature :- OptMember("sample_feature", Field(d, "sample_feature"), sampleFeatures);
    var sampleDescription :- OptStr("sample_description", Field(d, "sample_description"));
    var lane :- OptInt("lane", Field(d, "lane"));
    var index :- ReqStr("index", Field(d, "index"));
    var index2 :- ReqStr("index2", Field(d, "index2"));
    var pairId :- ReqStr("pair_id", Field(d, "pair_id"));
    var libraryPrepKitName :- OptStr("library_prep_kit_name", Field(d, "library_prep_kit_name"));
    var indexAdapterKitName :- OptStr("index_adapter_kit_name", Field(d, "index_adapter_kit_name"));
    Ok(TSO500SDataRowModel(sampleId, indexId, sampleType, sampleFeature, sampleDescription, lane,
                           index, index2, pairId, libraryPrepKitName, indexAdapterKitName))
  }

  /** A row without an `index2` (or a pair id, or an `index`) is rejected. */
  lemma TSO500SRowNeedsIndices(d: Dict<Value>, sampleTypes: set<string>, sampleFeatures: set<string>)
    requires !Field(d, "index").VStr? || !Field(d, "index2").VStr? || !Field(d, "pair_id").VStr?
    ensures ParseTSO500SRow(d, sampleTypes, sampleFeatures).Err?
  {
  }

  /** `TSO500SDataRowModel.to_dict` */
  function TSO500SRowToDict(m: TSO500SDataRowModel): Dict<Value> {
    [ ("Sample_ID", VStr(m.sampleId)),
      ("Index_ID", FromOptStr(m.indexId)),
      ("Sample_Type", VStr(m.sampleType)),
      ("Sample_Feature", FromOptStr(m.sampleFeature)),
      ("Sample_Description", FromOptStr(m.sampleDescription)),
      ("Lane", FromOptInt(m.lane)),
      ("Index", VStr(m.index)),
      ("Index2", VStr(m.index2)),
      ("Pair_ID", VStr(m.pairId)) ]
  }

  const TSO500SRowDictKeys: seq<string> := [
    "Sample_ID", "Index_ID", "Sample_Type", "Sample_Feature", "Sample_Description", "Lane", "Index",
    "Index2", "Pair_ID"]

  /** `TSO500SDataRowModel.to_json` */
  function TSO500SRowToJson(m: TSO500SDataRowModel): Dict<Value> {
    [ ("sample_id", VStr(m.sampleId)),
      ("index_id", FromOptStr(m.indexId)),
      ("sample_type", VStr(m.sampleType)),
      ("sample_feature", FromOptStr(m.sampleFeature)),
      ("sample_description", FromOptStr(m.sampleDescription)),
      ("lane", FromOptInt(m.lane)),
      ("index", VStr(m.index)),
      ("index2", VStr(m.index2)),
      ("pair_id", VStr(m.pairId)) ]
  }

  const TSO500SRowJsonKeys: seq<string> := [
    "sample_id", "index_id", "sample_type", "sample_feature", "sample_description", "lane", "index",
    "index2", "pair_id"]

  /** `to_dict` and `to_json` carry the same nine values in the same order, under the two
      spellings of the keys. */
  lemma TSO500SRowDictAndJsonAgree(m: TSO500SDataRowModel)
    ensures Keys(TSO500SRowToDict(m)) == TSO500SRowDictKeys
    ensures Keys(TSO500SRowToJson(m)) == TSO500SRowJsonKeys
    ensures |TSO500SRowToDict(m)| == |TSO500SRowToJson(m)| == 9
    ensures forall i :: 0 <= i < 9 ==> TSO500SRowToDict(m)[i].1 == TSO500SRowToJson(m)[i].1
  {
  }

  lemma TSO500SRowToJsonFields(m: TSO500SDataRowModel)
    ensures var t := TSO500SRowToJson(m);
            && Field(t, "sample_id") == VStr(m.sampleId)
            && Field(t, "index_id") == FromOptStr(m.indexId)
            && Field(t, "sample_type") == VStr(m.sampleType)
            && Field(t, "sample_feature") == FromOptStr(m.sampleFeature)
            && Field(t, "sample_description") == FromOptStr(m.sampleDescription)
            && Field(t, "lane") == FromOptInt(m.lane)
            && Field(t, "index") == VStr(m.index)
            && Field(t, "index2") == VStr(m.index2)
            && Field(t, "pair_id") == VStr(m.pairId)
  {
    var t := TSO500SRowToJson(m);
    UniqueKeysOf(t, TSO500SRowJsonKeys);
    FieldOfUnique(t, 0);
    FieldOfUnique(t, 1);
    FieldOfUnique(t, 2);
    FieldOfUnique(t, 3);
    FieldOfUnique(t, 4);
    FieldOfUnique(t, 5);
    FieldOfUnique(t, 6);
    FieldOfUnique(t, 7);
    FieldOfUnique(t, 8);
  }

  lemma TSO500SRowToJsonLacksKits(m: TSO500SDataRowModel)
    ensures Field(TSO500SRowToJson(m), "library_prep_kit_name") == VNone
    ensures Field(TSO500SRowToJson(m), "index_adapter_kit_name") == VNone
  {
    assert Keys(TSO500SRowToJson(m)) == TSO500SRowJsonKeys;
  }

  /** Validating `to_json` of a valid row gives the row back without its kit names. */
  lemma TSO500SRowJsonRoundTrip(m: TSO500SDataRowModel, sampleTypes: set<string>, sampleFeatures: set<string>)
    requires ValidTSO500SRow(m, sampleTypes, sampleFeatures)
    ensures ParseTSO500SRow(TSO500SRowToJson(m), sampleTypes, sampleFeatures) ==
              Ok(m.(libraryPrepKitName := None, indexAdapterKitName := None))
  {
    TSO500SRowToJsonFields(m);
    TSO500SRowToJsonLacksKits(m);
    OptStrRoundTrip("index_id", m.indexId);
    OptStrRoundTrip("sample_description", m.sampleDescription);
    OptIntRoundTrip("lane", m.lane);
  }

  /** `TSO500SDataRowModel.get_cloud_data_section_row` */
  function TSO500SRowCloudRow(m: TSO500SDataRowModel): Dict<Value> {
    CloudDataSectionRow(m.sampleId, Some(m.index), Some(m.index2), m.libraryPrepKitName, m.indexAdapterKitName)
  }

  /** Both indices are required, so the library name always has all three parts. */
  lemma TSO500SLibraryName(m: TSO500SDataRowModel)
    ensures Field(TSO500SRowCloudRow(m), "library_name") == VStr(m.sampleId + "_" + m.index + "_" + m.index2)
    ensures ParseCloudDataRow(TSO500SRowCloudRow(m))
            == Ok(CloudDataRowModel(Some(m.sampleId), None, Some(m.sampleId + "_" + m.index + "_" + m.index2),
                                    m.libraryPrepKitName, m.indexAdapterKitName))
  {
    CloudDataSectionRowFields(m.sampleId, Some(m.index), Some(m.index2), m.libraryPrepKitName, m.indexAdapterKitName);
    CloudDataSectionRowValid(m.sampleId, Some(m.index), Some(m.index2), m.libraryPrepKitName, m.indexAdapterKitName);
  }

  /** `TSO500SDataRowSection.get_cloud_data_row`: validate the row, then derive its cloud row. */
  function TSO500SCloudDataRow(d: Dict<Value>, sampleTypes: set<string>, sampleFeatures: set<string>)
    : (r: Result<Dict<Value>>)
    ensures r.Ok? <==> ParseTSO500SRow(d, sampleTypes, sampleFeatures).Ok?
    ensures r.Ok? ==> r.value == TSO500SRowCloudRow(ParseTSO500SRow(d, sampleTypes, sampleFeatures).value)
    ensures r.Err? ==> r.error == ParseTSO500SRow(d, sampleTypes, sampleFeatures).error
  {
    var m :- ParseTSO500SRow(d, sampleTypes, sampleFeatures);
    Ok(TSO500SRowCloudRow(m))
  }

  /** `CloudTSO500SDataSection.get_cloud_data_list`: one cloud row per raw row, in input order;
      the first invalid row's error otherwise. */
  function TSO500SCloudDataList(rows: seq<Dict<Value>>, sampleTypes: set<string>, sampleFeatures: set<string>)
    : (r: Result<seq<Dict<Value>>>)
    ensures r.Ok? <==> forall i :: 0 <= i < |rows| ==> ParseTSO500SRow(rows[i], sampleTypes, sampleFeatures).Ok?
    ensures r.Ok? ==> && |r.value| == |rows|
                      && forall i :: 0 <= i < |rows| ==>
                           r.value[i] == TSO500SRowCloudRow(ParseTSO500SRow(rows[i], sampleTypes, sampleFeatures).value)
  {
    MapAll(rows, d => TSO500SCloudDataRow(d, sampleTypes, sampleFeatures))
  }

  /** `TSO500SDataSectionModel.row_order_columns` */
  const TSO500SOrderColumns: seq<string> := ["Sample_Type", "Pair_ID", "Sample_ID", "Index_ID"]

  lemma TSO500SOrderColumnsAreKeys()
    ensures forall c :: c in TSO500SOrderColumns ==> c in TSO500SRowDictKeys
  {
  }
}
