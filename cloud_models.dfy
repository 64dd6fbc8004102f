/** The cloud schemas: `CloudSettingsSectionModel` with its URN merge, the cloud-data row,
    and the cloud-data row that every tool's data row derives for auto-launch. */
module CloudModels {
  import opened Wrappers
  import opened Text
  import opened Dicts
  import opened Values

  datatype CloudSettingsModel = CloudSettingsModel(
    cloudWorkflow: string,
    generatedVersion: Option<string>,
    analysisUrns: Option<Dict<Value>>)

  /** `CloudSettingsSectionModel(**d)`: `cloud_workflow` is a required string, `analysis_urns`
      a dict when given. */
  function ParseCloudSettings(d: Dict<Value>): (r: Result<CloudSettingsModel>)
    ensures r.Ok? <==> && Field(d, "cloud_workflow").VStr?
                       && OptStr("generated_version", Field(d, "generated_version")).Ok?
                       && OptDict("analysis_urns", Field(d, "analysis_urns")).Ok?
    ensures !Field(d, "cloud_workflow").VStr? ==> r == Err(SchemaViolation("cloud_workflow"))
    ensures r.Ok? ==> VStr(r.value.cloudWorkflow) == Field(d, "cloud_workflow")
    ensures r.Err? ==> r.error.SchemaViolation?
  {
    var cloudWorkflow :- ReqStr("cloud_workflow", Field(d, "cloud_workflow"));
    var generatedVersion :- OptStr("generated_version", Field(d, "generated_version"));
    var analysisUrns :- OptDict("analysis_urns", Field(d, "analysis_urns"));
    Ok(CloudSettingsModel(cloudWorkflow, generatedVersion, analysisUrns))
  }

  /** The two fixed entries `to_dict` starts from. */
  function CloudSettingsHead(m: CloudSettingsModel): Dict<Value> {
    [("GeneratedVersion", FromOptStr(m.generatedVersion)), ("Cloud_Workflow", VStr(m.cloudWorkflow))]
  }

  /** `CloudSettingsSectionModel.to_dict`: the head, updated with the URN dict when there is one. */
  function CloudSettingsToDict(m: CloudSettingsModel): Dict<Value> {
    if m.analysisUrns.None? then CloudSettingsHead(m) else Update(CloudSettingsHead(m), m.analysisUrns.value)
  }

  /** Without URNs the dict is exactly GeneratedVersion and Cloud_Workflow, in that order. */
  lemma CloudSettingsWithoutUrns(m: CloudSettingsModel)
    requires m.analysisUrns.None?
    ensures Keys(CloudSettingsToDict(m)) == ["GeneratedVersion", "Cloud_Workflow"]
    ensures Get(CloudSettingsToDict(m), "Cloud_Workflow") == Some(VStr(m.cloudWorkflow))
    ensures Get(CloudSettingsToDict(m), "GeneratedVersion") == Some(FromOptStr(m.generatedVersion))
  {
  }

  /** With URNs the two fixed keys stay first, every URN key is added, a URN entry wins on a
      key clash, and no other key appears. */
  lemma CloudSettingsWithUrns(m: CloudSettingsModel, key: string)
    requires m.analysisUrns.Some? && UniqueKeys(m.analysisUrns.value)
    ensures |Keys(CloudSettingsToDict(m))| >= 2
    ensures Keys(CloudSettingsToDict(m))[..2] == ["GeneratedVersion", "Cloud_Workflow"]
    ensures key in Keys(CloudSettingsToDict(m)) <==>
              key == "GeneratedVersion" || key == "Cloud_Workflow" || key in Keys(m.analysisUrns.value)
    ensures Get(CloudSettingsToDict(m), key) ==
              if key in Keys(m.analysisUrns.value) then Get(m.analysisUrns.value, key)
              else Get(CloudSettingsHead(m), key)
    ensures UniqueKeys(CloudSettingsToDict(m))
  {
    var head := CloudSettingsHead(m);
    GetUpdate(head, m.analysisUrns.value, key);
    UpdateKeysPrefix(head, m.analysisUrns.value);
    UpdateUnique(head, m.analysisUrns.value);
    assert Keys(head) == ["GeneratedVersion", "Cloud_Workflow"];
  }

  datatype CloudDataRowModel = CloudDataRowModel(
    sampleId: Option<string>,
    projectName: Option<string>,
    libraryName: Option<string>,
    libraryPrepKitName: Option<string>,
    indexAdapterKitName: Option<string>)

  /** `CloudDataSectionRowModel(**d)`: five optional strings. */
  function ParseCloudDataRow(d: Dict<Value>): (r: Result<CloudDataRowModel>)
    ensures r.Ok? <==> && OptStr("sample_id", Field(d, "sample_id")).Ok?
                       && OptStr("project_name", Field(d, "project_name")).Ok?
                       && OptStr("library_name", Field(d, "library_name")).Ok?
                       && OptStr("library_prep_kit_name", Field(d, "library_prep_kit_name")).Ok?
                       && OptStr("index_adapter_kit_name", Field(d, "index_adapter_kit_name")).Ok?
    ensures r.Err? ==> r.error.SchemaViolation?
  {
    var sampleId :- OptStr("sample_id", Field(d, "sample_id"));
    var projectName :- OptStr("project_name", Field(d, "project_name"));
    var libraryName :- OptStr("library_name", Field(d, "library_name"));
    var libraryPrepKitName :- OptStr("library_prep_kit_name", Field(d, "library_prep_kit_name"));
    var indexAdapterKitName :- OptStr("index_adapter_kit_name", Field(d, "index_adapter_kit_name"));
    Ok(CloudDataRowModel(sampleId, projectName, libraryName, libraryPrepKitName, indexAdapterKitName))
  }

  /** `CloudDataSectionRowModel.to_dict` */
  function CloudDataRowToDict(m: CloudDataRowModel): Dict<Value> {
    [ ("Sample_ID", FromOptStr(m.sampleId)),
      ("ProjectName", FromOptStr(m.projectName)),
      ("LibraryName", FromOptStr(m.libraryName)),
      ("LibraryPrepKitName", FromOptStr(m.libraryPrepKitName)),
      ("IndexAdapterKitName", FromOptStr(m.indexAdapterKitName)) ]
  }

  const CloudDataRowKeys: seq<string> := ["Sample_ID", "ProjectName", "LibraryName", "LibraryPrepKitName", "IndexAdapterKitName"]

  /** The row's external keys in their fixed order, each holding its field unchanged. */
  lemma CloudDataRowToDictShape(m: CloudDataRowModel)
    ensures Keys(CloudDataRowToDict(m)) == CloudDataRowKeys
    ensures Get(CloudDataRowToDict(m), "LibraryName") == Some(FromOptStr(m.libraryName))
    ensures Get(CloudDataRowToDict(m), "ProjectName") == Some(FromOptStr(m.projectName))
  {
  }

  /** `CloudDataSectionModel.row_order_columns` */
  const CloudDataOrderColumns: seq<string> := ["ProjectName", "Sample_ID", "LibraryName"]

  /** The order columns are row keys. */
  lemma CloudDataOrderColumnsAreKeys()
    ensures forall c :: c in CloudDataOrderColumns ==> c in CloudDataRowKeys
  {
  }

  // ---------------------------------------------------------------------------
  // `get_cloud_data_section_row`, shared word for word by the BCLConvert, TSO500L and
  // TSO500S data-row models

  function Present(o: Option<string>): (r: seq<string>)
    ensures o.None? ==> r == []
    ensures o.Some? ==> r == [o.value]
  {
    if o.Some? then [o.value] else []
  }

  /** `"_".join(map(str, filter(not None, [sample_id, index, index2])))` */
  function LibraryName(sampleId: string, index: Option<string>, index2: Option<string>): (r: string)
    ensures index.Some? && index2.Some? ==> r == sampleId + "_" + index.value + "_" + index2.value
    ensures index.Some? && index2.None? ==> r == sampleId + "_" + index.value
    ensures index.None? && index2.Some? ==> r == sampleId + "_" + index2.value
    ensures index.None? && index2.None? ==> r == sampleId
  {
    var parts := [sampleId] + Present(index) + Present(index2);
    JoinShort("_", parts);
    Join("_", parts)
  }

  /** Splitting a library name at `_` gives back the present parts, when none of them holds
      an underscore itself. */
  lemma LibraryNameSplits(sampleId: string, index: Option<string>, index2: Option<string>)
    requires '_' !in sampleId
    requires index.Some? ==> '_' !in index.value
    requires index2.Some? ==> '_' !in index2.value
    ensures Split(LibraryName(sampleId, index, index2), '_') == [sampleId] + Present(index) + Present(index2)
  {
    var parts := [sampleId] + Present(index) + Present(index2);
    assert forall i :: 0 <= i < |parts| ==> '_' !in parts[i];
    assert Join("_", parts) == LibraryName(sampleId, index, index2);
    SplitJoin(parts, '_');
  }

  /** The cloud-data payload row a tool's data row contributes. */
  function CloudDataSectionRow(sampleId: string, index: Option<string>, index2: Option<string>,
                               libraryPrepKitName: Option<string>, indexAdapterKitName: Option<string>): Dict<Value>
  {
    [ ("sample_id", VStr(sampleId)),
      ("library_name", VStr(LibraryName(sampleId, index, index2))),
      ("library_prep_kit_name", FromOptStr(libraryPrepKitName)),
      ("index_adapter_kit_name", FromOptStr(indexAdapterKitName)) ]
  }

  lemma CloudDataSectionRowFields(sampleId: string, index: Option<string>, index2: Option<string>,
                                  libraryPrepKitName: Option<string>, indexAdapterKitName: Option<string>)
    ensures var t := CloudDataSectionRow(sampleId, index, index2, libraryPrepKitName, indexAdapterKitName);
            && Field(t, "sample_id") == VStr(sampleId)
            && Field(t, "project_name") == VNone
            && Field(t, "library_name") == VStr(LibraryName(sampleId, index, index2))
            && Field(t, "library_prep_kit_name") == FromOptStr(libraryPrepKitName)
            && Field(t, "index_adapter_kit_name") == FromOptStr(indexAdapterKitName)
  {
    var t := CloudDataSectionRow(sampleId, index, index2, libraryPrepKitName, indexAdapterKitName);
    UniqueKeysOf(t, ["sample_id", "library_name", "library_prep_kit_name", "index_adapter_kit_name"]);
    FieldOfUnique(t, 0);
    FieldOfUnique(t, 1);
    FieldOfUnique(t, 2);
    FieldOfUnique(t, 3);
  }

  /** A derived row always validates as a cloud-data row: it carries the sample id, the
      library name and the two kit names unchanged, and no project name. */
  lemma CloudDataSectionRowValid(sampleId: string, index: Option<string>, index2: Option<string>,
                                 libraryPrepKitName: Option<string>, indexAdapterKitName: Option<string>)
    ensures ParseCloudDataRow(CloudDataSectionRow(sampleId, index, index2, libraryPrepKitName, indexAdapterKitName))
            == Ok(CloudDataRowModel(Some(sampleId), None, Some(LibraryName(sampleId, index, index2)),
                                    libraryPrepKitName, indexAdapterKitName))
  {
    CloudDataSectionRowFields(sampleId, index, index2, libraryPrepKitName, indexAdapterKitName);
    OptStrRoundTrip("library_prep_kit_name", libraryPrepKitName);
    OptStrRoundTrip("index_adapter_kit_name", indexAdapterKitName);
  }
}
