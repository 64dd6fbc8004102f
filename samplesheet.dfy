/** `SampleSheet`: it resolves every input section against the registry, builds the section
    objects into the nine `*_section` attributes, carries the tools' analysis URNs into
    `Cloud_Settings`, synthesises `Cloud_Data` from a tool's rows, and lists the attributes
    that hold a section. */
module SampleSheets {
  import opened Wrappers
  import opened Text
  import opened Dicts
  import opened Values
  import opened Registry
  import opened StableSort
  import opened SectionNames
  import opened RunInfoModels
  import opened BclConvertModels
  import opened CloudModels
  import opened TSO500LModels

  // ---------------------------------------------------------------------------------------
  // Section objects

  /** One validated row of a tabular section. */
  datatype Row =
    | BclRow(bcl: DataRowModel)
    | CloudRow(cloud: CloudDataRowModel)
    | TSO500LRow(tso: TSO500LDataRowModel)

  /** A section object: its class, the payload it was constructed from, its `urn` attribute
      (None where the class has none) and, for a tabular section, its validated rows. */
  datatype Section = Section(kind: Kind, payload: Value, urn: Option<string>, rows: seq<Row>)

  /** The classes whose model declares an `urn` field. */
  predicate HasUrnField(k: Kind) {
    k == BCLConvertSettingsKind || k == TSO500LSettingsKind || k == CloudTSO500LSettingsKind
  }

  /** `section_type(**d)` of a key-value class: its model validates `d`, and the object's
      `urn` attribute is the model's `urn`. `Sequencing` has no model to validate against. */
  function SettingsUrn(k: Kind, d: Dict<Value>): (r: Result<Option<string>>)
    ensures HasUrnField(k) && r.Ok? ==> FromOptStr(r.value) == Field(d, "urn")
    ensures !HasUrnField(k) && r.Ok? ==> r.value.None?
    ensures k == HeaderKind ==> (r.Ok? <==> ParseHeader(d).Ok?)
    ensures k == ReadsKind ==> (r.Ok? <==> ParseReads(d).Ok?)
    ensures k == SequencingKind ==> r.Ok?
    ensures k == BCLConvertSettingsKind ==> (r.Ok? <==> ParseSettings(d).Ok?)
    ensures k == CloudSettingsKind ==> (r.Ok? <==> ParseCloudSettings(d).Ok?)
    ensures k == TSO500LSettingsKind || k == CloudTSO500LSettingsKind ==> (r.Ok? <==> ParseTSO500LSettings(d).Ok?)
  {
    match k
    case HeaderKind => var m :- ParseHeader(d); Ok(None)
    case ReadsKind => var m :- ParseReads(d); Ok(None)
    case BCLConvertSettingsKind => var m :- ParseSettings(d); Ok(m.urn)
    case CloudSettingsKind => var m :- ParseCloudSettings(d); Ok(None)
    case TSO500LSettingsKind | CloudTSO500LSettingsKind => var m :- ParseTSO500LSettings(d); Ok(m.urn)
    case _ => Ok(None)
  }

  /** One positional argument of a tabular class, validated by the class's row model; a row
      that is not a mapping cannot be passed with `**`. */
  function ParseRow(k: Kind, v: Value): (r: Result<Row>)
    ensures r.Ok? ==> v.VDict?
    ensures !v.VDict? ==> r == Err(WrongPayloadShape(ClassHeader(k)))
    ensures v.VDict? && k == BCLConvertDataKind ==>
              (r.Ok? <==> ParseDataRow(v.entries).Ok?) && (r.Ok? ==> r.value == BclRow(ParseDataRow(v.entries).value))
    ensures v.VDict? && k == CloudDataKind ==>
              (r.Ok? <==> ParseCloudDataRow(v.entries).Ok?) && (r.Ok? ==> r.value == CloudRow(ParseCloudDataRow(v.entries).value))
    ensures v.VDict? && (k == TSO500LDataKind || k == CloudTSO500LDataKind) ==>
              (r.Ok? <==> ParseTSO500LRow(v.entries).Ok?) && (r.Ok? ==> r.value == TSO500LRow(ParseTSO500LRow(v.entries).value))
  {
    if !v.VDict? then Err(WrongPayloadShape(ClassHeader(k)))
    else
      match k
      case BCLConvertDataKind => var m :- ParseDataRow(v.entries); Ok(BclRow(m))
      case CloudDataKind => var m :- ParseCloudDataRow(v.entries); Ok(CloudRow(m))
      case TSO500LDataKind | CloudTSO500LDataKind => var m :- ParseTSO500LRow(v.entries); Ok(TSO500LRow(m))
      case _ => Err(WrongPayloadShape(ClassHeader(k)))
  }

  /** `section_type(**payload)` for a key-value class, `section_type(*payload)` for a tabular
      one (samplesheet.py, lines 201-207). */
  function BuildSection(k: Kind, payload: Value): (r: Result<Section>)
    requires Registered(k)
    ensures r.Ok? ==> r.value.kind == k && r.value.payload == payload
    ensures ShapeOf(k) == KeyValue ==>
              (r.Ok? <==> payload.VDict? && SettingsUrn(k, payload.entries).Ok?)
              && (!payload.VDict? ==> r == Err(WrongPayloadShape(ClassHeader(k))))
              && (r.Ok? ==> r.value.urn == SettingsUrn(k, payload.entries).value && r.value.rows == [])
    ensures ShapeOf(k) == Tabular ==>
              (r.Ok? <==> Iterate(payload).Ok? && forall i :: 0 <= i < |Iterate(payload).value| ==> ParseRow(k, Iterate(payload).value[i]).Ok?)
              && (r.Ok? ==> && r.value.urn.None?
                            && |r.value.rows| == |Iterate(payload).value|
                            && forall i :: 0 <= i < |r.value.rows| ==> r.value.rows[i] == ParseRow(k, Iterate(payload).value[i]).value)
  {
    if ShapeOf(k) == KeyValue then
      if !payload.VDict? then Err(WrongPayloadShape(ClassHeader(k)))
      else
        var urn :- SettingsUrn(k, payload.entries);
        Ok(Section(k, payload, urn, []))
    else
      var args :- Iterate(payload);
      var rows :- MapAll(args, (v: Value) => ParseRow(k, v));
      Ok(Section(k, payload, None, rows))
  }

  // ---------------------------------------------------------------------------------------
  // Cloud_Data synthesis

  /** `get_cloud_data_section_row` of one row; a cloud-data row has none. */
  function CloudRowOf(row: Row): Result<Dict<Value>> {
    match row
    case BclRow(m) => Ok(DataRowCloudRow(m))
    case TSO500LRow(m) => Ok(TSO500LRowCloudRow(m))
    case CloudRow(_) => Err(NoneAttribute("get_cloud_data_list"))
  }

  /** `get_cloud_data_list()`: one cloud row per row, in row order. */
  function CloudDataList(sec: Section): (r: Result<seq<Dict<Value>>>)
    ensures r.Ok? <==> forall i :: 0 <= i < |sec.rows| ==> !sec.rows[i].CloudRow?
    ensures r.Ok? ==> |r.value| == |sec.rows| && forall i :: 0 <= i < |sec.rows| ==> r.value[i] == CloudRowOf(sec.rows[i]).value
  {
    MapAll(sec.rows, CloudRowOf)
  }

  /** The cloud rows as the positional arguments of `CloudDataSection(*rows)`. */
  function CloudDataPayload(rows: seq<Dict<Value>>): (v: Value)
    ensures v.VList? && |v.items| == |rows| && forall i :: 0 <= i < |rows| ==> v.items[i] == VDict(rows[i])
  {
    VList(seq(|rows|, i requires 0 <= i < |rows| => VDict(rows[i])))
  }

  /** `CloudDataSection(*section_type(*payload).get_cloud_data_list())` (lines 235-237). */
  function Synthesise(sec: Section): (r: Result<Section>)
    ensures r.Ok? ==> r.value.kind == CloudDataKind
  {
    var rows :- CloudDataList(sec);
    BuildSection(CloudDataKind, CloudDataPayload(rows))
  }

  /** A tool's rows always give a valid `Cloud_Data` section, with one row per tool row. */
  lemma SynthesisValidates(sec: Section)
    requires forall i :: 0 <= i < |sec.rows| ==> !sec.rows[i].CloudRow?
    ensures Synthesise(sec).Ok?
    ensures Synthesise(sec).value.kind == CloudDataKind && |Synthesise(sec).value.rows| == |sec.rows|
  {
    SynthesisedArgs(sec, CloudDataList(sec).value);
  }

  /** Each synthesised row holds its tool row's sample id, library name and kit names. */
  lemma SynthesisRows(sec: Section, i: nat)
    requires forall i :: 0 <= i < |sec.rows| ==> !sec.rows[i].CloudRow?
    requires Synthesise(sec).Ok? && i < |sec.rows| == |Synthesise(sec).value.rows|
    ensures Synthesise(sec).value.rows[i] == CloudRow(SynthesisedRow(sec.rows[i]))
  {
    SynthesisedArgs(sec, CloudDataList(sec).value);
  }

  /** The synthesised payload's items parse as cloud rows, one per tool row. */
  lemma SynthesisedArgs(sec: Section, rows: seq<Dict<Value>>)
    requires forall i :: 0 <= i < |sec.rows| ==> !sec.rows[i].CloudRow?
    requires CloudDataList(sec) == Ok(rows)
    ensures |CloudDataPayload(rows).items| == |sec.rows|
    ensures forall i :: 0 <= i < |sec.rows| ==>
      ParseRow(CloudDataKind, CloudDataPayload(rows).items[i]) == Ok(CloudRow(SynthesisedRow(sec.rows[i])))
  {
    forall i | 0 <= i < |sec.rows|
      ensures ParseRow(CloudDataKind, CloudDataPayload(rows).items[i]) == Ok(CloudRow(SynthesisedRow(sec.rows[i])))
    {
      SynthesisedRowParses(sec.rows[i]);
    }
  }

  /** A tool row's cloud row validates as the cloud row it was built from. */
  lemma SynthesisedRowParses(row: Row)
    requires !row.CloudRow?
    ensures CloudRowOf(row).Ok?
    ensures ParseRow(CloudDataKind, VDict(CloudRowOf(row).value)) == Ok(CloudRow(SynthesisedRow(row)))
  {
    match row
    case BclRow(m) => DataRowCloudRowValid(m);
    case TSO500LRow(m) => TSO500LRowCloudRowValid(m);
  }

  /** The validated cloud row a tool row leads to. */
  function SynthesisedRow(row: Row): CloudDataRowModel
    requires !row.CloudRow?
  {
    match row
    case BclRow(m) => CloudDataRowModel(Some(m.sampleId), None, Some(LibraryName(m.sampleId, m.index, m.index2)),
                                        m.libraryPrepKitName, m.indexAdapterKitName)
    case TSO500LRow(m) => CloudDataRowModel(Some(m.sampleId), None, Some(LibraryName(m.sampleId, m.index, m.index2)),
                                            m.libraryPrepKitName, m.indexAdapterKitName)
  }

  // ---------------------------------------------------------------------------------------
  // The URN accumulator

  /** `cloud_analysis_urns_dict.update(payload["analysis_urns"])` when that is a dict. */
  function MergeUrns(urns: Dict<Value>, d: Dict<Value>): Dict<Value> {
    if Field(d, "analysis_urns").VDict? then Update(urns, Field(d, "analysis_urns").entries) else urns
  }

  /** `payload.update({"analysis_urns": cloud_analysis_urns_dict})` after the merge (lines 186-199). */
  function InjectUrns(urns: Dict<Value>, d: Dict<Value>): Dict<Value> {
    Put(d, "analysis_urns", VDict(MergeUrns(urns, d)))
  }

  /** The payload's own URNs win over the accumulated ones; without a dict there the
      accumulator is kept as it is. */
  lemma MergeUrnsPayloadWins(urns: Dict<Value>, d: Dict<Value>, key: string)
    requires Field(d, "analysis_urns").VDict? ==> UniqueKeys(Field(d, "analysis_urns").entries)
    ensures Get(MergeUrns(urns, d), key) ==
              if Field(d, "analysis_urns").VDict? && key in Keys(Field(d, "analysis_urns").entries)
              then Get(Field(d, "analysis_urns").entries, key)
              else Get(urns, key)
  {
    if Field(d, "analysis_urns").VDict? {
      GetUpdate(urns, Field(d, "analysis_urns").entries, key);
    }
  }

  /** The injected payload holds the merged URNs under `analysis_urns` and is otherwise the
      payload it was given; `Cloud_Settings` then validates with exactly those URNs. */
  lemma InjectUrnsReplaces(urns: Dict<Value>, d: Dict<Value>, other: string)
    requires other != "analysis_urns"
    ensures Field(InjectUrns(urns, d), "analysis_urns") == VDict(MergeUrns(urns, d))
    ensures Get(InjectUrns(urns, d), other) == Get(d, other)
    ensures ParseCloudSettings(InjectUrns(urns, d)).Ok? ==>
              ParseCloudSettings(InjectUrns(urns, d)).value.analysisUrns == Some(MergeUrns(urns, d))
  {
    GetPut(d, "analysis_urns", VDict(MergeUrns(urns, d)), other);
  }

  /** The characters of `"_Settings"`, which `rstrip` treats as a set. */
  const SettingsChars: set<char> := {'_', 'S', 'e', 't', 'i', 'n', 'g', 's'}

  /** `"Cloud_" + _class_header.rstrip("_Settings") + "_Pipeline"` */
  function PipelineKey(k: Kind): string {
    "Cloud_" + RStripChars(ClassHeader(k), SettingsChars) + "_Pipeline"
  }

  /** The set-based `rstrip` stops at the `L` of `TSO500L_Settings`. */
  lemma PipelineKeyOfTSO500L()
    ensures PipelineKey(CloudTSO500LSettingsKind) == "Cloud_TSO500L_Pipeline"
  {
    var h := ClassHeader(CloudTSO500LSettingsKind);
    assert h == "TSO500L" + "_Settings";
    RStripCharsIs(h, SettingsChars, 7);
    assert h[..7] == "TSO500L";
  }

  /** `stripped.replace("_settings", "_data")` names the tool's data section. */
  lemma DataNamesOfSettings()
    ensures ReplaceAll("tso500l_settings", "_settings", "_data") == "tso500l_data"
    ensures ReplaceAll("bclconvert_settings", "_settings", "_data") == "bclconvert_data"
  {
    assert "tso500l_settings" == "tso500l" + "_settings";
    assert "tso500l" + "_data" == "tso500l_data";
    ReplaceSuffix("tso500l", "_settings", "_data");
    assert "bclconvert_settings" == "bclconvert" + "_settings";
    assert "bclconvert" + "_data" == "bclconvert_data";
    ReplaceSuffix("bclconvert", "_settings", "_data");
  }

  /** Which registered class each harvest condition picks out. */
  lemma HarvestConditions(k: Kind, isCloudName: bool, stripped: string)
    requires Registered(k) && LowerHeader(k) == stripped && IsCloud(k) == isCloudName
    ensures isCloudName && ShapeOf(k) == KeyValue <==> k == CloudTSO500LSettingsKind
    ensures k == CloudTSO500LSettingsKind ==> stripped == "tso500l_settings"
    ensures stripped == "bclconvert_settings" <==> k == BCLConvertSettingsKind
  {
    if stripped == "bclconvert_settings" {
      assert |LowerHeader(k)| == 19;
    }
  }

  /** The `_data` names a settings section can mark for synthesis. */
  const MarkableNames: set<string> := {"bclconvert_data", "tso500l_data"}

  /** The harvest after constructing a section (lines 213-228): a cloud key-value section's
      `urn` goes in as `Cloud_<tool>_Pipeline`, `BCLConvert_Settings`'s as
      `BCLConvert_Pipeline`, and each marks its tool's `_data` section. */
  function Harvest(k: Kind, isCloudName: bool, stripped: string, sec: Section, urns: Dict<Value>,
                   marked: set<string>): (r: (Dict<Value>, set<string>))
    requires Registered(k) && LowerHeader(k) == stripped && IsCloud(k) == isCloudName
    ensures r.1 - marked <= MarkableNames
    ensures sec.urn.None? || !(k == CloudTSO500LSettingsKind || k == BCLConvertSettingsKind) ==> r == (urns, marked)
    ensures sec.urn.Some? && k == CloudTSO500LSettingsKind ==>
              r == (Put(urns, "Cloud_TSO500L_Pipeline", VStr(sec.urn.value)), marked + {"tso500l_data"})
    ensures sec.urn.Some? && k == BCLConvertSettingsKind ==>
              r == (Put(urns, "BCLConvert_Pipeline", VStr(sec.urn.value)), marked + {"bclconvert_data"})
  {
    HarvestConditions(k, isCloudName, stripped);
    DataNamesOfSettings();
    PipelineKeyOfTSO500L();
    if isCloudName && ShapeOf(k) == KeyValue then
      if sec.urn.Some? then
        (Put(urns, PipelineKey(k), VStr(sec.urn.value)), marked + {ReplaceAll(stripped, "_settings", "_data")})
      else (urns, marked)
    else if stripped == "bclconvert_settings" then
      if sec.urn.Some? then
        (Put(urns, "BCLConvert_Pipeline", VStr(sec.urn.value)), marked + {ReplaceAll(stripped, "_settings", "_data")})
      else (urns, marked)
    else (urns, marked)
  }

  // ---------------------------------------------------------------------------------------
  // populate_sections as a fold over the ordered sections

  /** The nine attributes, in creation order (lines 127-141), and the accumulators of
      `populate_sections`: `cloud_analysis_urns_dict` and the keys of `urs_bool_list`. */
  datatype PopState = PopState(slots: seq<Option<Section>>, urns: Dict<Value>, marked: set<string>)

  /** Each attribute holds a registered class that belongs in it. */
  predicate SlotsWellFormed(slots: seq<Option<Section>>) {
    && |slots| == |SlotKinds|
    && forall i :: 0 <= i < |slots| && slots[i].Some? ==>
         Registered(slots[i].value.kind) && SlotIndex(slots[i].value.kind) == i
  }

  predicate WellFormed(st: PopState) {
    SlotsWellFormed(st.slots) && st.marked <= MarkableNames
  }

  /** The attributes right after `__init__` sets them to None. */
  function EmptySlots(): (slots: seq<Option<Section>>)
    ensures SlotsWellFormed(slots) && forall i :: 0 <= i < |slots| ==> slots[i].None?
  {
    seq(|SlotKinds|, i => None)
  }

  /** `setattr(self, f"{stripped}_section", section)`: the section goes into its class's
      attribute and no other attribute changes. */
  function Store(slots: seq<Option<Section>>, sec: Section): (r: seq<Option<Section>>)
    requires SlotsWellFormed(slots) && Registered(sec.kind)
    ensures SlotsWellFormed(r) && r[SlotIndex(sec.kind)] == Some(sec)
    ensures forall j :: 0 <= j < |r| && j != SlotIndex(sec.kind) ==> r[j] == slots[j]
  {
    slots[SlotIndex(sec.kind) := Some(sec)]
  }

  /** A section name that can be marked for synthesis is not `cloud_data`. */
  lemma MarkedIsNotCloudData(k: Kind)
    requires LowerHeader(k) in MarkableNames
    ensures k != CloudDataKind
  {
  }

  /** What a step does to the attributes: the built section sits in its class's attribute,
      and `cloud_data_section` changes only for a `Cloud_Data` input or a synthesis. */
  predicate StepSlots(before: seq<Option<Section>>, after: PopState, k: Kind, hasCloudData: bool,
                      stripped: string)
    requires Registered(k) && |before| == |SlotKinds| == |after.slots|
  {
    && after.slots[SlotIndex(k)].Some? && after.slots[SlotIndex(k)].value.kind == k
    && (forall j :: 0 <= j < |SlotKinds| && j != SlotIndex(k) && j != SlotIndex(CloudDataKind) ==>
          after.slots[j] == before[j])
    && (after.slots[SlotIndex(CloudDataKind)] != before[SlotIndex(CloudDataKind)] ==>
          k == CloudDataKind || (!hasCloudData && stripped in after.marked))
  }

  /** The part of the loop body after construction (lines 207-237): store, harvest, and
      synthesise `Cloud_Data` from a marked section when no input section provides one. */
  function Record(st: PopState, hasCloudData: bool, k: Kind, isCloudName: bool, stripped: string,
                  sec: Section): (r: Result<PopState>)
    requires WellFormed(st) && Registered(k) && sec.kind == k
    requires LowerHeader(k) == stripped && IsCloud(k) == isCloudName
    ensures r.Ok? ==> WellFormed(r.value) && StepSlots(st.slots, r.value, k, hasCloudData, stripped)
    ensures r.Ok? ==> r.value.slots[SlotIndex(k)] == Some(sec)
  {
    var slots := Store(st.slots, sec);
    var harvested := Harvest(k, isCloudName, stripped, sec, st.urns, st.marked);
    if stripped in harvested.1 && !hasCloudData then
      MarkedIsNotCloudData(k);
      var cd :- Synthesise(sec);
      Ok(PopState(Store(slots, cd), harvested.0, harvested.1))
    else
      Ok(PopState(slots, harvested.0, harvested.1))
  }

  /** One pass of the loop body of `populate_sections` (lines 168-237). */
  function PopulateStep(st: PopState, hasCloudData: bool, item: (string, Value)): (r: Result<PopState>)
    requires WellFormed(st)
    ensures r.Ok? ==> WellFormed(r.value)
    ensures Resolve(item.0).None? ==> r == Err(UnknownSection(item.0))
    ensures r.Ok? ==> Resolve(item.0).Some?
                      && StepSlots(st.slots, r.value, Resolve(item.0).value, hasCloudData, StrippedSectionName(item.0))
  {
    var name, payload := item.0, item.1;
    var found := Resolve(name);
    if found.None? then Err(UnknownSection(name))
    else
      var k := found.value;
      var prepared :- Prepare(k, st.urns, payload);
      var sec :- BuildSection(k, prepared.1);
      Record(PopState(st.slots, prepared.0, st.marked), hasCloudData, k, IsCloudSectionName(name),
             StrippedSectionName(name), sec)
  }

  /** The URN accumulator and the payload handed to the class: only `Cloud_Settings` sees
      the accumulated URNs (lines 186-199). */
  function Prepare(k: Kind, urns: Dict<Value>, payload: Value): Result<(Dict<Value>, Value)> {
    if k != CloudSettingsKind then Ok((urns, payload))
    else if !payload.VDict? then Err(WrongPayloadShape(ClassHeader(k)))
    else Ok((MergeUrns(urns, payload.entries), VDict(InjectUrns(urns, payload.entries))))
  }

  /** A step whose section resolved and whose payload was prepared continues with the
      construction and then the rest of the loop body. */
  lemma PopulateStepUnfold(st: PopState, hasCloudData: bool, item: (string, Value))
    requires WellFormed(st) && Resolve(item.0).Some?
    ensures var k := Resolve(item.0).value;
            var p := Prepare(k, st.urns, item.1);
            PopulateStep(st, hasCloudData, item) ==
              if p.Err? then Err(p.error)
              else
                var b := BuildSection(k, p.value.1);
                if b.Err? then Err(b.error)
                else Record(PopState(st.slots, p.value.0, st.marked), hasCloudData, k, IsCloudSectionName(item.0),
                            StrippedSectionName(item.0), b.value)
  {
  }

  /** `for section_dict in sections_dict_as_list`: the steps in order, stopping at the first
      exception. */
  function PopulateFrom(st: PopState, hasCloudData: bool, items: Dict<Value>): (r: Result<PopState>)
    requires WellFormed(st)
    ensures r.Ok? ==> WellFormed(r.value)
    decreases |items|
  {
    if items == [] then Ok(st)
    else
      var st' :- PopulateStep(st, hasCloudData, items[0]);
      PopulateFrom(st', hasCloudData, items[1..])
  }

  /** With a `Cloud_Data` input, nothing but that input touches `cloud_data_section`. */
  lemma NoSynthesisWithCloudData(st: PopState, item: (string, Value))
    requires WellFormed(st) && PopulateStep(st, true, item).Ok?
    requires Resolve(item.0) != Some(CloudDataKind)
    ensures PopulateStep(st, true, item).value.slots[SlotIndex(CloudDataKind)] == st.slots[SlotIndex(CloudDataKind)]
  {
  }

  /** A name that resolves to no registry class stops the whole construction. */
  lemma PopulateFromUnknown(st: PopState, hasCloudData: bool, items: Dict<Value>, i: nat)
    requires WellFormed(st) && i < |items| && Resolve(items[i].0).None?
    ensures PopulateFrom(st, hasCloudData, items).Err?
  {
    if PopulateFrom(st, hasCloudData, items).Ok? {
      PopulateFromResolves(st, hasCloudData, items);
      AllHoldAt(items, Known, i);
    }
  }

  /** The section's name resolves to a registry class. */
  predicate Known(item: (string, Value)) {
    Resolve(item.0).Some?
  }

  /** Every element, front to back, satisfies `p`. */
  predicate AllHold<T>(xs: seq<T>, p: T -> bool) {
    xs == [] || (p(xs[0]) && AllHold(xs[1..], p))
  }

  lemma {:induction false} AllHoldAt<T>(xs: seq<T>, p: T -> bool, i: nat)
    requires AllHold(xs, p) && i < |xs|
    ensures p(xs[i])
  {
    if i > 0 {
      AllHoldAt(xs[1..], p, i - 1);
    }
  }

  /** A fold that succeeds has resolved every name it was given. */
  lemma {:induction false} PopulateFromResolves(st: PopState, hasCloudData: bool, items: Dict<Value>)
    requires WellFormed(st) && PopulateFrom(st, hasCloudData, items).Ok?
    ensures AllHold(items, Known)
    decreases |items|
  {
    if items != [] {
      var st' := PopulateStep(st, hasCloudData, items[0]).value;
      PopulateFromOk(st, hasCloudData, items, st');
      PopulateFromResolves(st', hasCloudData, items[1..]);
    }
  }

  /** A step that fails ends the fold with its error. */
  lemma PopulateFromStops(st: PopState, hasCloudData: bool, items: Dict<Value>, i: nat)
    requires WellFormed(st) && i < |items| && PopulateStep(st, hasCloudData, items[i]).Err?
    ensures PopulateFrom(st, hasCloudData, items[i..]) == Err(PopulateStep(st, hasCloudData, items[i]).error)
  {
    assert items[i..][0] == items[i];
    PopulateFromCons(st, hasCloudData, items[i..]);
  }

  /** A step that succeeds leaves the rest of the fold to run from its new state. */
  lemma PopulateFromAdvances(st: PopState, hasCloudData: bool, items: Dict<Value>, i: nat)
    requires WellFormed(st) && i < |items| && PopulateStep(st, hasCloudData, items[i]).Ok?
    ensures PopulateFrom(st, hasCloudData, items[i..]) ==
              PopulateFrom(PopulateStep(st, hasCloudData, items[i]).value, hasCloudData, items[i + 1..])
  {
    assert items[i..][0] == items[i] && items[i..][1..] == items[i + 1..];
    PopulateFromCons(st, hasCloudData, items[i..]);
  }

  lemma PopulateFromCons(st: PopState, hasCloudData: bool, items: Dict<Value>)
    requires WellFormed(st) && items != []
    ensures var r := PopulateStep(st, hasCloudData, items[0]);
            PopulateFrom(st, hasCloudData, items) == if r.Err? then Err(r.error) else PopulateFrom(r.value, hasCloudData, items[1..])
  {
  }

  lemma PopulateFromOk(st: PopState, hasCloudData: bool, items: Dict<Value>, st': PopState)
    requires WellFormed(st) && items != [] && PopulateStep(st, hasCloudData, items[0]) == Ok(st')
    ensures WellFormed(st') && PopulateFrom(st, hasCloudData, items) == PopulateFrom(st', hasCloudData, items[1..])
  {
  }

  /** `SampleSheet(sections_dict)`: the import-order sort (which raises on a name the order
      does not know), then `populate_sections` from all-None attributes and empty
      accumulators. */
  function NewSlots(sectionsDict: Dict<Value>): Result<seq<Option<Section>>> {
    var ordered :- ImportOrder(sectionsDict);
    var st :- PopulateFrom(PopState(EmptySlots(), [], {}), HasCloudData(ordered), ordered);
    Ok(st.slots)
  }

  // ---------------------------------------------------------------------------------------
  // section_list

  /** The index of the first class in `_all_sections` that attribute `i` can hold. */
  function SlotFloor(i: nat): nat
    requires i < |SlotKinds|
  {
    SlotKindsRegistered(i);
    RegistryIndex(SlotKinds[i])
  }

  /** `(name, _all_sections.index(type(value)))` for every attribute from `i` on that ends in
      `_section` and is not None, in `__dict__` (creation) order. */
  function SlotEntries(slots: seq<Option<Section>>, i: nat): (r: seq<(string, nat)>)
    requires SlotsWellFormed(slots) && i <= |slots|
    ensures KeysAscend(r)
    ensures forall m :: 0 <= m < |r| ==> r[m].1 < |AllSections|
    ensures i < |slots| ==> forall m :: 0 <= m < |r| ==> SlotFloor(i) <= r[m].1
    decreases |slots| - i
  {
    if i == |slots| then []
    else
      var rest := SlotEntries(slots, i + 1);
      if slots[i].Some? then
        SlotEntriesSome(slots, i, rest);
        [(SlotNames()[i], RegistryIndex(slots[i].value.kind))] + rest
      else
        SlotEntriesNone(slots, i, rest);
        rest
  }

  /** An attribute holding a section adds its entry in front, below every later entry. */
  lemma SlotEntriesSome(slots: seq<Option<Section>>, i: nat, rest: seq<(string, nat)>)
    requires SlotsWellFormed(slots) && i < |slots| && slots[i].Some?
    requires KeysAscend(rest) && forall m :: 0 <= m < |rest| ==> rest[m].1 < |AllSections|
    requires i + 1 < |slots| ==> forall m :: 0 <= m < |rest| ==> SlotFloor(i + 1) <= rest[m].1
    requires i + 1 == |slots| ==> rest == []
    ensures var r := [(SlotNames()[i], RegistryIndex(slots[i].value.kind))] + rest;
            && KeysAscend(r)
            && (forall m :: 0 <= m < |r| ==> r[m].1 < |AllSections|)
            && forall m :: 0 <= m < |r| ==> SlotFloor(i) <= r[m].1
  {
    var k := slots[i].value.kind;
    SlotRegistryBounds(k, i);
    if i + 1 < |slots| {
      SlotRegistryBounds(k, i + 1);
      SlotKindsRegistered(i + 1);
      SlotRegistryBounds(SlotKinds[i + 1], i);
    }
    SlotEntriesCons((SlotNames()[i], RegistryIndex(k)), rest);
  }

  /** An attribute holding None adds nothing; the later entries sit above this slot's floor. */
  lemma SlotEntriesNone(slots: seq<Option<Section>>, i: nat, rest: seq<(string, nat)>)
    requires SlotsWellFormed(slots) && i < |slots|
    requires i + 1 < |slots| ==> forall m :: 0 <= m < |rest| ==> SlotFloor(i + 1) <= rest[m].1
    requires i + 1 == |slots| ==> rest == []
    ensures forall m :: 0 <= m < |rest| ==> SlotFloor(i) <= rest[m].1
  {
    if i + 1 < |slots| {
      SlotKindsRegistered(i + 1);
      SlotRegistryBounds(SlotKinds[i + 1], i);
    }
  }

  lemma SlotEntriesCons(e: (string, nat), rest: seq<(string, nat)>)
    requires KeysAscend(rest) && forall m :: 0 <= m < |rest| ==> e.1 <= rest[m].1
    ensures KeysAscend([e] + rest)
  {
    var r := [e] + rest;
    forall i, j | 0 <= i < j < |r| ensures r[i].1 <= r[j].1 {
      assert r[j] == rest[j - 1];
      if i > 0 {
        assert r[i] == rest[i - 1];
      }
    }
  }

  /** `section_list`: the names, sorted by their class's position in `_all_sections`
      (lines 239-251). */
  function SectionList(slots: seq<Option<Section>>): seq<string>
    requires SlotsWellFormed(slots)
  {
    Untag(SortByKey(SlotEntries(slots, 0), |AllSections|))
  }

  /** The attributes already come in registry order, so the sort keeps creation order. */
  lemma SectionListInCreationOrder(slots: seq<Option<Section>>)
    requires SlotsWellFormed(slots)
    ensures SectionList(slots) == Untag(SlotEntries(slots, 0))
    ensures KeysAscend(SlotEntries(slots, 0))
  {
    SortByKeyOfSorted(SlotEntries(slots, 0), |AllSections|);
  }

  lemma {:induction false} SlotEntriesNames(slots: seq<Option<Section>>, i: nat, j: nat)
    requires SlotsWellFormed(slots) && i <= |slots| && j < |slots|
    ensures SlotNames()[j] in Untag(SlotEntries(slots, i)) <==> i <= j && slots[j].Some?
    decreases |slots| - i
  {
    if i < |slots| {
      SlotEntriesNames(slots, i + 1, j);
      var rest := SlotEntries(slots, i + 1);
      if slots[i].Some? {
        var e := (SlotNames()[i], RegistryIndex(slots[i].value.kind));
        UntagAppend([e], rest);
        assert Untag([e]) == [SlotNames()[i]];
        if i < j {
          SlotNamesDistinct(i, j);
        } else if j < i {
          SlotNamesDistinct(j, i);
        }
      }
    }
  }

  /** An attribute is listed exactly when it holds a section. */
  lemma SectionListMembers(slots: seq<Option<Section>>, j: nat)
    requires SlotsWellFormed(slots) && j < |slots|
    ensures SlotNames()[j] in SectionList(slots) <==> slots[j].Some?
  {
    SectionListInCreationOrder(slots);
    SlotEntriesNames(slots, 0, j);
  }

  // ---------------------------------------------------------------------------------------
  // The object

  class SampleSheet {
    /** `header_section` .. `tso500l_data_section`, in creation order. */
    var slots: seq<Option<Section>>
    var sectionList: seq<string>

    /** The attribute initialisation of `__init__` (lines 127-144). */
    constructor Empty()
      ensures slots == EmptySlots() && sectionList == []
    {
      slots := EmptySlots();
      sectionList := [];
    }

    /** `populate_sections(sections_dict_as_list)`, then the `section_list` it leaves behind. */
    method PopulateSections(ordered: Dict<Value>) returns (err: Option<Error>)
      requires SlotsWellFormed(slots)
      modifies this
      ensures SlotsWellFormed(slots)
      ensures var r := PopulateFrom(PopState(old(slots), [], {}), HasCloudData(ordered), ordered);
              && (err.None? <==> r.Ok?)
              && (r.Err? ==> err == Some(r.error))
              && (r.Ok? ==> slots == r.value.slots && sectionList == SectionList(slots))
    {
      err := PopulateLoop(ordered);
      if err.None? {
        sectionList := SectionList(slots);
      }
    }

    /** The loop of `populate_sections` (lines 166-237), one input section per pass. */
    method PopulateLoop(ordered: Dict<Value>) returns (err: Option<Error>)
      requires SlotsWellFormed(slots)
      modifies this
      ensures SlotsWellFormed(slots)
      ensures var r := PopulateFrom(PopState(old(slots), [], {}), HasCloudData(ordered), ordered);
              && (err.None? <==> r.Ok?)
              && (r.Err? ==> err == Some(r.error))
              && (r.Ok? ==> slots == r.value.slots)
    {
      var hasCloudData := HasCloudData(ordered);
      var urns: Dict<Value> := [];
      var marked: set<string> := {};
      ghost var start := PopState(slots, urns, marked);
      var rest := ordered;
      while rest != []
        invariant WellFormed(PopState(slots, urns, marked))
        invariant PopulateFrom(start, hasCloudData, ordered) ==
                    PopulateFrom(PopState(slots, urns, marked), hasCloudData, rest)
      {
        var failed;
        urns, marked, failed := PopulateAt(start, ordered, rest, hasCloudData, urns, marked);
        if failed.Some? {
          return failed;
        }
        rest := rest[1..];
      }
      return None;
    }

    /** The pass of the loop over the first of the sections `rest` still holds: it ends the
        fold begun at `start` with its error, or the fold goes on from the state it leaves. */
    method PopulateAt(ghost start: PopState, ghost ordered: Dict<Value>, rest: Dict<Value>, hasCloudData: bool,
                      urns: Dict<Value>, marked: set<string>)
      returns (urns': Dict<Value>, marked': set<string>, failed: Option<Error>)
      requires WellFormed(start) && WellFormed(PopState(slots, urns, marked)) && rest != []
      requires PopulateFrom(start, hasCloudData, ordered) ==
                 PopulateFrom(PopState(slots, urns, marked), hasCloudData, rest)
      modifies this
      ensures failed.Some? ==>
                && slots == old(slots)
                && PopulateFrom(start, hasCloudData, ordered) == Err(failed.value)
      ensures failed.None? ==>
                && WellFormed(PopState(slots, urns', marked'))
                && PopulateFrom(start, hasCloudData, ordered)
                   == PopulateFrom(PopState(slots, urns', marked'), hasCloudData, rest[1..])
    {
      ghost var before := PopState(slots, urns, marked);
      urns', marked', failed := PopulateOne(rest[0].0, rest[0].1, hasCloudData, urns, marked);
      assert (rest[0].0, rest[0].1) == rest[0];
      PopulateFromCons(before, hasCloudData, rest);
    }

    /** One pass of the loop body (lines 168-207): resolve the name, hand `Cloud_Settings`
        the accumulated URNs, construct the section, then store and harvest it. */
    method PopulateOne(name: string, payload: Value, hasCloudData: bool, urns: Dict<Value>, marked: set<string>)
      returns (urns': Dict<Value>, marked': set<string>, err: Option<Error>)
      requires WellFormed(PopState(slots, urns, marked))
      modifies this
      ensures var r := PopulateStep(PopState(old(slots), urns, marked), hasCloudData, (name, payload));
              && (err.None? <==> r.Ok?)
              && (r.Err? ==> err == Some(r.error) && slots == old(slots))
              && (r.Ok? ==> r.value == PopState(slots, urns', marked'))
    {
      urns', marked' := urns, marked;
      ghost var before := PopState(slots, urns, marked);
      var stripped := StrippedSectionName(name);
      var isCloudName := IsCloudSectionName(name);
      var found := Lookup(stripped, isCloudName);
      if found.None? {
        return urns', marked', Some(UnknownSection(name));
      }
      var k := found.value;
      PopulateStepUnfold(before, hasCloudData, (name, payload));
      var given := payload;
      if k == CloudSettingsKind {
        if !given.VDict? {
          return urns', marked', Some(WrongPayloadShape(ClassHeader(k)));
        }
        var theirs := Field(given.entries, "analysis_urns");
        if theirs.VDict? {
          urns' := Update(urns', theirs.entries);
        }
        given := VDict(Put(given.entries, "analysis_urns", VDict(urns')));
      }
      assert Prepare(k, urns, payload) == Ok((urns', given));
      var built := BuildSection(k, given);
      if built.Err? {
        return urns', marked', Some(built.error);
      }
      urns', marked', err := StoreSection(k, isCloudName, stripped, built.value, hasCloudData, urns', marked');
    }

    /** The rest of the loop body (lines 207-237): store the section, harvest its URN, and
        build `Cloud_Data` from a marked section when no input section provides one. */
    method StoreSection(k: Kind, isCloudName: bool, stripped: string, sec: Section, hasCloudData: bool,
                        urns: Dict<Value>, marked: set<string>)
      returns (urns': Dict<Value>, marked': set<string>, err: Option<Error>)
      requires WellFormed(PopState(slots, urns, marked)) && Registered(k) && sec.kind == k
      requires LowerHeader(k) == stripped && IsCloud(k) == isCloudName
      modifies this
      ensures var r := Record(PopState(old(slots), urns, marked), hasCloudData, k, isCloudName, stripped, sec);
              && (err.None? <==> r.Ok?)
              && (r.Err? ==> err == Some(r.error) && slots == old(slots))
              && (r.Ok? ==> r.value == PopState(slots, urns', marked'))
    {
      urns', marked' := urns, marked;
      var stored := slots[SlotIndex(k) := Some(sec)];
      if isCloudName && ShapeOf(k) == KeyValue {
        if sec.urn.Some? {
          urns' := Put(urns', PipelineKey(k), VStr(sec.urn.value));
          marked' := marked' + {ReplaceAll(stripped, "_settings", "_data")};
        }
      } else if stripped == "bclconvert_settings" {
        if sec.urn.Some? {
          marked' := marked' + {ReplaceAll(stripped, "_settings", "_data")};
          urns' := Put(urns', "BCLConvert_Pipeline", VStr(sec.urn.value));
        }
      }
      assert (urns', marked') == Harvest(k, isCloudName, stripped, sec, urns, marked);
      if stripped in marked' && !hasCloudData {
        var cd := Synthesise(sec);
        if cd.Err? {
          return urns', marked', Some(cd.error);
        }
        stored := stored[SlotIndex(CloudDataKind) := Some(cd.value)];
      }
      slots := stored;
      return urns', marked', None;
    }

    /** `SampleSheet(sections_dict)`: sort, initialise, populate. */
    static method New(sectionsDict: Dict<Value>) returns (r: Result<SampleSheet>)
      ensures r.Ok? <==> NewSlots(sectionsDict).Ok?
      ensures r.Err? ==> r.error == NewSlots(sectionsDict).error
      ensures r.Ok? ==> fresh(r.value) && r.value.slots == NewSlots(sectionsDict).value
                        && r.value.sectionList == SectionList(r.value.slots)
    {
      var ordered := ImportOrder(sectionsDict);
      if ordered.Err? {
        return Err(ordered.error);
      }
      var sheet := new SampleSheet.Empty();
      var err := sheet.PopulateSections(ordered.value);
      if err.Some? {
        return Err(err.value);
      }
      return Ok(sheet);
    }
  }

  // ---------------------------------------------------------------------------------------
  // to_csv

  /** `sep.join(parts + [p])` */
  lemma {:induction false} JoinSnoc(sep: string, parts: seq<string>, p: string)
    requires parts != []
    ensures Join(sep, parts + [p]) == Join(sep, parts) + sep + p
    decreases |parts|
  {
    if |parts| == 1 {
      assert parts + [p] == [parts[0], p];
    } else {
      assert (parts + [p])[1..] == parts[1..] + [p];
      JoinSnoc(sep, parts[1..], p);
    }
  }

  /** The loop of `to_csv` (lines 263-266): every section is written, followed by a newline
      unless it is the last, so the sections come out joined by newlines. */
  method WriteSections(rendered: seq<string>) returns (out: string)
    ensures out == Join("\n", rendered)
  {
    out := "";
    var n := |rendered|;
    for i := 0 to n
      invariant i == 0 ==> out == ""
      invariant 0 < i < n ==> out == Join("\n", rendered[..i]) + "\n"
      invariant 0 < i && i == n ==> out == Join("\n", rendered[..i])
    {
      var addNewLineAfterSection := if i == n - 1 then false else true;
      if i > 0 {
        assert rendered[..i + 1] == rendered[..i] + [rendered[i]];
        JoinSnoc("\n", rendered[..i], rendered[i]);
      } else {
        assert rendered[..1] == [rendered[0]];
      }
      out := out + rendered[i] + (if addNewLineAfterSection then "\n" else "");
    }
    assert rendered[..n] == rendered;
  }
}
