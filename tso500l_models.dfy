/** The TSO500 liquid-biopsy schemas: `TSO500LSettingsSectionModel`, `TSO500LDataRowModel`
    and the data section's row order. */
module TSO500LModels {
  import opened Wrappers
  import opened Dicts
  import opened Values
  import opened Enums
  import opened CloudModels

  datatype TSO500LSettingsModel = TSO500LSettingsModel(
    startsFromFastq: bool,
    softwareVersion: Option<string>,
    urn: Option<string>)

  /** `TSO500LSettingsSectionModel(**d)`: `starts_from_fastq` is a required boolean. */
  function ParseTSO500LSettings(d: Dict<Value>): (r: Result<TSO500LSettingsModel>)
    ensures r.Ok? <==> && IsBoolLike(Field(d, "starts_from_fastq"))
                       && OptStr("software_version", Field(d, "software_version")).Ok?
                       && OptStr("urn", Field(d, "urn")).Ok?
    ensures !IsBoolLike(Field(d, "starts_from_fastq")) ==> r == Err(SchemaViolation("starts_from_fastq"))
    ensures r.Ok? ==> && r.value.startsFromFastq == AsBool(Field(d, "starts_from_fastq"))
                      && FromOptStr(r.value.urn) == Field(d, "urn")
                      && FromOptStr(r.value.softwareVersion) == Field(d, "software_version")
    ensures r.Err? ==> r.error.SchemaViolation?
  {
    var startsFromFastq :- ReqBool("starts_from_fastq", Field(d, "starts_from_fastq"));
    var softwareVersion :- OptStr("software_version", Field(d, "software_version"));
    var urn :- OptStr("urn", Field(d, "urn"));
    Ok(TSO500LSettingsModel(startsFromFastq, softwareVersion, urn))
  }

  /** A missing `starts_from_fastq` is a validation error. */
  lemma TSO500LSettingsNeedStartsFromFastq(d: Dict<Value>)
    requires "starts_from_fastq" !in Keys(d)
    ensures ParseTSO500LSettings(d) == Err(SchemaViolation("starts_from_fastq"))
  {
  }

  /** `TSO500LSettingsSectionModel.to_dict`: the software version and the flag; the URN is
      not written out. */
  function TSO500LSettingsToDict(m: TSO500LSettingsModel): Dict<Value> {
    [("SoftwareVersion", FromOptStr(m.softwareVersion)), ("StartsFromFastq", VBool(m.startsFromFastq))]
  }

  lemma TSO500LSettingsToDictShape(m: TSO500LSettingsModel)
    ensures Keys(TSO500LSettingsToDict(m)) == ["SoftwareVersion", "StartsFromFastq"]
    ensures "Urn" !in Keys(TSO500LSettingsToDict(m)) && "urn" !in Keys(TSO500LSettingsToDict(m))
    ensures Get(TSO500LSettingsToDict(m), "StartsFromFastq") == Some(VBool(m.startsFromFastq))
  {
  }

  /** The model's fields under their own names: the payload a JSON section carries. */
  function TSO500LSettingsFields(m: TSO500LSettingsModel): Dict<Value> {
    [ ("starts_from_fastq", VBool(m.startsFromFastq)),
      ("software_version", FromOptStr(m.softwareVersion)),
      ("urn", FromOptStr(m.urn)) ]
  }

  /** Validating the model's own fields gives the model back. */
  lemma TSO500LSettingsRoundTrip(m: TSO500LSettingsModel)
    ensures ParseTSO500LSettings(TSO500LSettingsFields(m)) == Ok(m)
  {
    var t := TSO500LSettingsFields(m);
    UniqueKeysOf(t, ["starts_from_fastq", "software_version", "urn"]);
    FieldOfUnique(t, 0);
    FieldOfUnique(t, 1);
    FieldOfUnique(t, 2);
    OptStrRoundTrip("software_version", m.softwareVersion);
    OptStrRoundTrip("urn", m.urn);
  }

  // ---------------------------------------------------------------------------
  // Data rows

  datatype TSO500LDataRowModel = TSO500LDataRowModel(
    sampleId: string,
    indexId: string,
    sampleType: TSO500LSampleType,
    sampleDescription: Option<string>,
    index: Option<string>,
    index2: Option<string>,
    libraryPrepKitName: Option<string>,
    indexAdapterKitName: Option<string>)

  /** `TSO500LDataRowModel(**d)`: the sample id, the index id and the sample type are required. */
  function ParseTSO500LRow(d: Dict<Value>): (r: Result<TSO500LDataRowModel>)
    ensures !Field(d, "sample_id").VStr? ==> r == Err(SchemaViolation("sample_id"))
    ensures Field(d, "sample_id").VStr? && !Field(d, "index_id").VStr? ==> r == Err(SchemaViolation("index_id"))
    ensures Field(d, "sample_id").VStr? && Field(d, "index_id").VStr? && Field(d, "sample_type") != VStr("DNA") ==>
              r == Err(SchemaViolation("sample_type"))
    ensures r.Ok? ==> && VStr(r.value.sampleId) == Field(d, "sample_id")
                      && VStr(r.value.indexId) == Field(d, "index_id")
                      && Field(d, "sample_type") == VStr(r.value.sampleType.Value())
                      && FromOptStr(r.value.index) == Field(d, "index")
                      && FromOptStr(r.value.index2) == Field(d, "index2")
    ensures r.Err? ==> r.error.SchemaViolation?
  {
    var sampleId :- ReqStr("sample_id", Field(d, "sample_id"));
    var indexId :- ReqStr("index_id", Field(d, "index_id"));
    var sampleType :- ReqTSO500LSampleType("sample_type", Field(d, "sample_type"));
    var sampleDescription :- OptStr("sample_description", Field(d, "sample_description"));
    var index :- OptStr("index", Field(d, "index"));
    var index2 :- OptStr("index2", Field(d, "index2"));
    var libraryPrepKitName :- OptStr("library_prep_kit_name", Field(d, "library_prep_kit_name"));
    var indexAdapterKitName :- OptStr("index_adapter_kit_name", Field(d, "index_adapter_kit_name"));
    Ok(TSO500LDataRowModel(sampleId, indexId, sampleType, sampleDescription, index, index2,
                           libraryPrepKitName, indexAdapterKitName))
  }

  /** `TSO500LDataRowModel.to_dict`: six external keys, the sample type as its value. */
  function TSO500LRowToDict(m: TSO500LDataRowModel): Dict<Value> {
    [ ("Sample_ID", VStr(m.sampleId)),
      ("Index_ID", VStr(m.indexId)),
      ("Sample_Type", VStr(m.sampleType.Value())),
      ("Sample_Description", FromOptStr(m.sampleDescription)),
      ("Index", FromOptStr(m.index)),
      ("Index2", FromOptStr(m.index2)) ]
  }

  const TSO500LRowDictKeys: seq<string> :=
    ["Sample_ID", "Index_ID", "Sample_Type", "Sample_Description", "Index", "Index2"]

  /** The six keys in order; the sample type is written as "DNA"; the kit names are not
      written out. */
  lemma TSO500LRowToDictShape(m: TSO500LDataRowModel)
    ensures Keys(TSO500LRowToDict(m)) == TSO500LRowDictKeys
    ensures TSO500LRowToDict(m)[2] == ("Sample_Type", VStr("DNA"))
    ensures "LibraryPrepKitName" !in Keys(TSO500LRowToDict(m))
  {
  }

  /** The row's fields under their own names. */
  function TSO500LRowFields(m: TSO500LDataRowModel): Dict<Value> {
    [ ("sample_id", VStr(m.sampleId)),
      ("index_id", VStr(m.indexId)),
      ("sample_type", VStr(m.sampleType.Value())),
      ("sample_description", FromOptStr(m.sampleDescription)),
      ("index", FromOptStr(m.index)),
      ("index2", FromOptStr(m.index2)),
      ("library_prep_kit_name", FromOptStr(m.libraryPrepKitName)),
      ("index_adapter_kit_name", FromOptStr(m.indexAdapterKitName)) ]
  }

  lemma TSO500LRowFieldsLookup(m: TSO500LDataRowModel)
    ensures var t := TSO500LRowFields(m);
            && Field(t, "sample_id") == VStr(m.sampleId)
            && Field(t, "index_id") == VStr(m.indexId)
            && Field(t, "sample_type") == VStr(m.sampleType.Value())
            && Field(t, "sample_description") == FromOptStr(m.sampleDescription)
            && Field(t, "index") == FromOptStr(m.index)
            && Field(t, "index2") == FromOptStr(m.index2)
            && Field(t, "library_prep_kit_name") == FromOptStr(m.libraryPrepKitName)
            && Field(t, "index_adapter_kit_name") == FromOptStr(m.indexAdapterKitName)
  {
    var t := TSO500LRowFields(m);
    UniqueKeysOf(t, ["sample_id", "index_id", "sample_type", "sample_description", "index", "index2",
                     "library_prep_kit_name", "index_adapter_kit_name"]);
    FieldOfUnique(t, 0);
    FieldOfUnique(t, 1);
    FieldOfUnique(t, 2);
    FieldOfUnique(t, 3);
    FieldOfUnique(t, 4);
    FieldOfUnique(t, 5);
    FieldOfUnique(t, 6);
    FieldOfUnique(t, 7);
  }

  /** Validating the row's own fields gives the row back. */
  lemma TSO500LRowRoundTrip(m: TSO500LDataRowModel)
    ensures ParseTSO500LRow(TSO500LRowFields(m)) == Ok(m)
  {
    TSO500LRowFieldsLookup(m);
    ParseSampleTypeInverse(m.sampleType);
    OptStrRoundTrip("sample_description", m.sampleDescription);
    OptStrRoundTrip("index", m.index);
    OptStrRoundTrip("index2", m.index2);
    OptStrRoundTrip("library_prep_kit_name", m.libraryPrepKitName);
    OptStrRoundTrip("index_adapter_kit_name", m.indexAdapterKitName);
  }

  /** `TSO500LDataRowModel.get_cloud_data_section_row` */
  function TSO500LRowCloudRow(m: TSO500LDataRowModel): Dict<Value> {
    CloudDataSectionRow(m.sampleId, m.index, m.index2, m.libraryPrepKitName, m.indexAdapterKitName)
  }

  /** The derived cloud row validates and keeps the sample id and kit names. */
  lemma TSO500LRowCloudRowValid(m: TSO500LDataRowModel)
    ensures ParseCloudDataRow(TSO500LRowCloudRow(m))
            == Ok(CloudDataRowModel(Some(m.sampleId), None, Some(LibraryName(m.sampleId, m.index, m.index2)),
                                    m.libraryPrepKitName, m.indexAdapterKitName))
  {
    CloudDataSectionRowValid(m.sampleId, m.index, m.index2, m.libraryPrepKitName, m.indexAdapterKitName);
  }

  /** `TSO500LDataSectionModel.row_order_columns` */
  const TSO500LOrderColumns: seq<string> := ["Sample_Type", "Sample_ID", "Index_ID"]

  /** The order columns are row keys. */
  lemma TSO500LOrderColumnsAreKeys()
    ensures forall c :: c in TSO500LOrderColumns ==> c in TSO500LRowDictKeys
  {
  }
}
