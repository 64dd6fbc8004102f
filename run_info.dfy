/** `samplesheet_to_run_info_json`: the RunInfo document (as JSON) of a samplesheet, its
    `Read` list numbered from the cycle counts of the Reads section. */
module RunInfoJson {
  import opened Wrappers
  import opened Text
  import opened Dicts
  import opened Values
  import opened Registry
  import opened RunInfoModels
  import opened SampleSheets

  /** The cycle attributes of `samplesheet.reads_section`: those of its validated model. A
      samplesheet without a Reads section has `None` there, and the first `getattr` fails. */
  function ReadsOf(slot: Option<Section>): (r: Result<ReadsModel>)
    ensures slot.None? ==> r == Err(NoneAttribute("read_1_cycles"))
    ensures slot.Some? && slot.value.payload.VDict? ==> r == ParseReads(slot.value.payload.entries)
  {
    match slot
    case None => Err(NoneAttribute("read_1_cycles"))
    case Some(sec) =>
      if sec.payload.VDict? then ParseReads(sec.payload.entries) else Err(WrongPayloadShape("Reads"))
  }

  /** The pairs the loop walks through: `zip([...names], [...cycle counts])`. */
  function CycleFields(m: ReadsModel): seq<(string, Option<int>)> {
    [ ("read_1_cycles", Some(m.read1Cycles)),
      ("index_1_cycles", m.index1Cycles),
      ("index_2_cycles", m.index2Cycles),
      ("read_2_cycles", m.read2Cycles) ]
  }

  /** `"N"` for a `read_*` entry, `"Y"` for an `index_*` one. */
  function IndexedFlag(name: string): string {
    if StartsWith(name, "read") then "N" else "Y"
  }

  /** One element of `Reads.Read`. */
  function ReadEntry(number: nat, name: string, cycles: int): Value {
    VDict([("@Number", VInt(number)), ("@NumCycles", VInt(cycles)), ("@IsIndexedRead", VStr(IndexedFlag(name)))])
  }

  /** The loop of lines 48-60 over `fields`, with `count` reads already emitted. */
  function ReadsListFrom(fields: seq<(string, Option<int>)>, count: nat): seq<Value>
    decreases |fields|
  {
    if fields == [] then []
    else if fields[0].1.None? then ReadsListFrom(fields[1..], count)
    else [ReadEntry(count + 1, fields[0].0, fields[0].1.value)] + ReadsListFrom(fields[1..], count + 1)
  }

  /** The fields that carry a cycle count, in their order. */
  function Present(fields: seq<(string, Option<int>)>): (r: seq<(string, int)>)
    ensures |r| <= |fields|
  {
    if fields == [] then []
    else if fields[0].1.None? then Present(fields[1..])
    else [(fields[0].0, fields[0].1.value)] + Present(fields[1..])
  }

  /** Each present field gives one read, in field order, numbered on from `count`. */
  lemma {:induction false} ReadsListNumbered(fields: seq<(string, Option<int>)>, count: nat)
    ensures |ReadsListFrom(fields, count)| == |Present(fields)|
    ensures forall j :: 0 <= j < |Present(fields)| ==>
      ReadsListFrom(fields, count)[j] == ReadEntry(count + j + 1, Present(fields)[j].0, Present(fields)[j].1)
    decreases |fields|
  {
    if fields != [] {
      ReadsListNumbered(fields[1..], if fields[0].1.None? then count else count + 1);
    }
  }

  /** The fields with a cycle count are read 1, index 1, index 2 and read 2 in that order,
      each one left out when its count is None; so there are one to four reads. */
  lemma PresentInOrder(m: ReadsModel)
    ensures Present(CycleFields(m)) ==
      [("read_1_cycles", m.read1Cycles)]
      + ((if m.index1Cycles.Some? then [("index_1_cycles", m.index1Cycles.value)] else [])
      + ((if m.index2Cycles.Some? then [("index_2_cycles", m.index2Cycles.value)] else [])
      + (if m.read2Cycles.Some? then [("read_2_cycles", m.read2Cycles.value)] else [])))
  {
    var a, b, c, d := ("read_1_cycles", Some(m.read1Cycles)), ("index_1_cycles", m.index1Cycles),
                      ("index_2_cycles", m.index2Cycles), ("read_2_cycles", m.read2Cycles);
    PresentCons(d, []);
    PresentCons(c, [d]);
    PresentCons(b, [c, d]);
    PresentCons(a, [b, c, d]);
    assert CycleFields(m) == [a] + [b, c, d];
    assert [b, c, d] == [b] + [c, d] && [c, d] == [c] + [d] && [d] == [d] + [];
  }

  lemma PresentCons(x: (string, Option<int>), rest: seq<(string, Option<int>)>)
    ensures Present([x] + rest) == (if x.1.Some? then [(x.0, x.1.value)] else []) + Present(rest)
  {
    assert ([x] + rest)[1..] == rest;
  }

  /** `read_*` entries are flagged `N`, `index_*` entries `Y`. */
  lemma IndexedFlags()
    ensures IndexedFlag("read_1_cycles") == "N" && IndexedFlag("read_2_cycles") == "N"
    ensures IndexedFlag("index_1_cycles") == "Y" && IndexedFlag("index_2_cycles") == "Y"
  {
    assert "index_1_cycles"[..4] == "inde";
    assert "index_2_cycles"[..4] == "inde";
  }

  /** The reads of a Reads section: one to four, one per cycle count given, the first
      always read 1 (`@Number` 1, not indexed). */
  lemma ReadsOfModel(m: ReadsModel)
    ensures var list := ReadsListFrom(CycleFields(m), 0);
            && 1 <= |list| <= 4
            && |list| == 1 + (if m.index1Cycles.Some? then 1 else 0) + (if m.index2Cycles.Some? then 1 else 0)
                           + (if m.read2Cycles.Some? then 1 else 0)
            && list[0] == ReadEntry(1, "read_1_cycles", m.read1Cycles)
  {
    ReadsListNumbered(CycleFields(m), 0);
    PresentInOrder(m);
  }

  /** `if x is not None: d[key] = x` */
  function PutOpt(d: Dict<Value>, key: string, x: Option<Value>): Dict<Value> {
    if x.Some? then Put(d, key, x.value) else d
  }

  /** The entry a conditional assignment adds: none when the value is None. */
  function OptEntry(key: string, x: Option<Value>): Dict<Value> {
    if x.Some? then [(key, x.value)] else []
  }

  predicate KeysWithin(d: Dict<Value>, names: set<string>) {
    forall i :: 0 <= i < |d| ==> d[i].0 in names
  }

  lemma {:induction false} PutNew(d: Dict<Value>, key: string, v: Value)
    requires key !in Keys(d)
    ensures Put(d, key, v) == d + [(key, v)]
  {
    if d != [] {
      assert Keys(d[1..]) == Keys(d)[1..];
      PutNew(d[1..], key, v);
      assert d == [d[0]] + d[1..];
    }
  }

  /** A conditional assignment of a key not yet in the dictionary appends its entry. */
  lemma PutOptAppends(d: Dict<Value>, names: set<string>, key: string, x: Option<Value>)
    requires KeysWithin(d, names) && key !in names
    ensures PutOpt(d, key, x) == d + OptEntry(key, x)
    ensures KeysWithin(PutOpt(d, key, x), names + {key})
  {
    if x.Some? {
      assert key !in Keys(d);
      PutNew(d, key, x.value);
    }
  }

  /** An argument stored as it was passed, unless it is None. `number`, `flowcell` and
      `instrument` are annotated `int`, `int` and `str`, but nothing checks that: a flowcell
      id such as `H5HLHDSXC` is text, and is stored as such. */
  function Given(v: Value): Option<Value> {
    if v.VNone? then None else Some(v)
  }

  function DictOpt(o: Option<Dict<Value>>): Option<Value> {
    if o.Some? then Some(VDict(o.value)) else None
  }

  /** `date.strftime("%m/%d/%Y %I:%M:%S %p")` when a date is given. */
  function DateOpt<D>(date: Option<D>, strftime: D -> string): Option<Value> {
    if date.Some? then Some(VStr(strftime(date.value))) else None
  }

  /** `"Y" if align_to_phix else None` when the flag is given. */
  function PhiXOpt(alignToPhiX: Option<bool>): Option<Value> {
    if alignToPhiX.None? then None else if alignToPhiX.value then Some(VStr("Y")) else Some(VNone)
  }

  /** `run_dict` of lines 62-84: `@Id` and `Reads`, then each optional argument that is not None. */
  function RunDict<D>(readList: seq<Value>, runId: string, number: Value, flowcell: Value,
                      instrument: Value, date: Option<D>, strftime: D -> string,
                      alignToPhiX: Option<bool>, imageDimensions: Option<Dict<Value>>,
                      imageChannels: Option<Dict<Value>>): Dict<Value>
  {
    var d0 := [("@Id", VStr(runId)), ("Reads", VDict([("Read", VList(readList))]))];
    var d1 := PutOpt(d0, "@Number", Given(number));
    var d2 := PutOpt(d1, "Flowcell", Given(flowcell));
    var d3 := PutOpt(d2, "Instrument", Given(instrument));
    var d4 := PutOpt(d3, "Date", DateOpt(date, strftime));
    var d5 := PutOpt(d4, "AlignToPhiX", PhiXOpt(alignToPhiX));
    var d6 := PutOpt(d5, "ImageDimensions", DictOpt(imageDimensions));
    PutOpt(d6, "ImageChannels", DictOpt(imageChannels))
  }

  /** The whole function: `{"Run": run_dict}`, or the failure reading the Reads section. */
  function RunInfo<D>(cycles: Result<ReadsModel>, runId: string, number: Value, flowcell: Value,
                      instrument: Value, date: Option<D>, strftime: D -> string,
                      alignToPhiX: Option<bool>, imageDimensions: Option<Dict<Value>>,
                      imageChannels: Option<Dict<Value>>): (r: Result<Value>)
    ensures r.Err? <==> cycles.Err?
  {
    var m :- cycles;
    Ok(VDict([("Run", VDict(RunDict(ReadsListFrom(CycleFields(m), 0), runId, number, flowcell, instrument,
                                   date, strftime, alignToPhiX, imageDimensions, imageChannels)))]))
  }

  /** `@Id` and `Reads` come first and are always there; then each optional key, in the
      order of the function's parameters, exactly when its argument is not None, with that
      argument's value (`AlignToPhiX` being `Y` or None). */
  lemma RunDictFields<D>(readList: seq<Value>, runId: string, number: Value, flowcell: Value,
                         instrument: Value, date: Option<D>, strftime: D -> string,
                         alignToPhiX: Option<bool>, imageDimensions: Option<Dict<Value>>,
                         imageChannels: Option<Dict<Value>>)
    ensures RunDict(readList, runId, number, flowcell, instrument, date, strftime, alignToPhiX,
                    imageDimensions, imageChannels) ==
      [("@Id", VStr(runId)), ("Reads", VDict([("Read", VList(readList))]))]
      + OptEntry("@Number", if number.VNone? then None else Some(number))
      + OptEntry("Flowcell", if flowcell.VNone? then None else Some(flowcell))
      + OptEntry("Instrument", if instrument.VNone? then None else Some(instrument))
      + OptEntry("Date", if date.Some? then Some(VStr(strftime(date.value))) else None)
      + OptEntry("AlignToPhiX", if alignToPhiX.None? then None
                                else if alignToPhiX.value then Some(VStr("Y")) else Some(VNone))
      + OptEntry("ImageDimensions", if imageDimensions.Some? then Some(VDict(imageDimensions.value)) else None)
      + OptEntry("ImageChannels", if imageChannels.Some? then Some(VDict(imageChannels.value)) else None)
  {
    var n2, n3, n4, n5, n6, n7, n8 := RunKeySets();
    var d0 := [("@Id", VStr(runId)), ("Reads", VDict([("Read", VList(readList))]))];
    var d4 := RunDictFirstHalf(d0, n2, n3, n4, n5, n6, number, flowcell, instrument, date, strftime);
    PutOptAppends(d4, n6, "AlignToPhiX", PhiXOpt(alignToPhiX));
    var d5 := PutOpt(d4, "AlignToPhiX", PhiXOpt(alignToPhiX));
    PutOptAppends(d5, n7, "ImageDimensions", DictOpt(imageDimensions));
    var d6 := PutOpt(d5, "ImageDimensions", DictOpt(imageDimensions));
    PutOptAppends(d6, n8, "ImageChannels", DictOpt(imageChannels));
  }

  /** The keys of the run dictionary after each assignment; each assignment's key is new. */
  lemma RunKeySets() returns (n2: set<string>, n3: set<string>, n4: set<string>, n5: set<string>,
                              n6: set<string>, n7: set<string>, n8: set<string>)
    ensures n2 == {"@Id", "Reads"}
    ensures n3 == n2 + {"@Number"} && n4 == n3 + {"Flowcell"} && n5 == n4 + {"Instrument"}
    ensures n6 == n5 + {"Date"} && n7 == n6 + {"AlignToPhiX"} && n8 == n7 + {"ImageDimensions"}
    ensures "@Number" !in n2 && "Flowcell" !in n3 && "Instrument" !in n4 && "Date" !in n5
    ensures "AlignToPhiX" !in n6 && "ImageDimensions" !in n7 && "ImageChannels" !in n8
  {
    n2 := {"@Id", "Reads"};
    n3 := n2 + {"@Number"};
    n4 := n3 + {"Flowcell"};
    n5 := n4 + {"Instrument"};
    n6 := n5 + {"Date"};
    n7 := n6 + {"AlignToPhiX"};
    n8 := n7 + {"ImageDimensions"};
  }

  /** The first four conditional assignments of `RunDict`, appending to the two fixed keys. */
  lemma RunDictFirstHalf<D>(d0: Dict<Value>, n2: set<string>, n3: set<string>, n4: set<string>,
                            n5: set<string>, n6: set<string>, number: Value, flowcell: Value,
                            instrument: Value, date: Option<D>, strftime: D -> string)
      returns (d4: Dict<Value>)
    requires KeysWithin(d0, n2)
    requires n3 == n2 + {"@Number"} && n4 == n3 + {"Flowcell"} && n5 == n4 + {"Instrument"} && n6 == n5 + {"Date"}
    requires "@Number" !in n2 && "Flowcell" !in n3 && "Instrument" !in n4 && "Date" !in n5
    ensures d4 == PutOpt(PutOpt(PutOpt(PutOpt(d0, "@Number", Given(number)), "Flowcell", Given(flowcell)),
                                "Instrument", Given(instrument)), "Date", DateOpt(date, strftime))
    ensures d4 == d0 + OptEntry("@Number", Given(number)) + OptEntry("Flowcell", Given(flowcell))
                  + OptEntry("Instrument", Given(instrument)) + OptEntry("Date", DateOpt(date, strftime))
    ensures KeysWithin(d4, n6)
  {
    PutOptAppends(d0, n2, "@Number", Given(number));
    var d1 := PutOpt(d0, "@Number", Given(number));
    PutOptAppends(d1, n3, "Flowcell", Given(flowcell));
    var d2 := PutOpt(d1, "Flowcell", Given(flowcell));
    PutOptAppends(d2, n4, "Instrument", Given(instrument));
    var d3 := PutOpt(d2, "Instrument", Given(instrument));
    PutOptAppends(d3, n5, "Date", DateOpt(date, strftime));
    d4 := PutOpt(d3, "Date", DateOpt(date, strftime));
  }

  /** `samplesheet_to_run_info_json` on a constructed samplesheet. */
  method SamplesheetToRunInfoJson<D>(samplesheet: SampleSheet, runId: string, number: Value,
                                     flowcell: Value, instrument: Value, date: Option<D>,
                                     strftime: D -> string, alignToPhiX: Option<bool>,
                                     imageDimensions: Option<Dict<Value>>, imageChannels: Option<Dict<Value>>)
      returns (r: Result<Value>)
    requires SlotsWellFormed(samplesheet.slots)
    ensures r == RunInfo(ReadsOf(samplesheet.slots[SlotIndex(ReadsKind)]), runId, number, flowcell, instrument,
                         date, strftime, alignToPhiX, imageDimensions, imageChannels)
  {
    var readsSection := ReadsOf(samplesheet.slots[SlotIndex(ReadsKind)]);
    r := RunInfoFromReads(readsSection, runId, number, flowcell, instrument, date, strftime, alignToPhiX,
                          imageDimensions, imageChannels);
  }

  /** Lines 45-88, once the Reads section has been read (or has failed to be). */
  method RunInfoFromReads<D>(readsSection: Result<ReadsModel>, runId: string, number: Value,
                             flowcell: Value, instrument: Value, date: Option<D>,
                             strftime: D -> string, alignToPhiX: Option<bool>,
                             imageDimensions: Option<Dict<Value>>, imageChannels: Option<Dict<Value>>)
      returns (r: Result<Value>)
    ensures r == RunInfo(readsSection, runId, number, flowcell, instrument, date, strftime, alignToPhiX,
                         imageDimensions, imageChannels)
  {
    if readsSection.Err? {
      return Err(readsSection.error);
    }
    var readsList := ReadsList(CycleFields(readsSection.value));
    var runDict := AppendOptionalFields(readsList, runId, number, flowcell, instrument, date, strftime,
                                        alignToPhiX, imageDimensions, imageChannels);
    return Ok(VDict([("Run", VDict(runDict))]));
  }

  /** Lines 45-60: one read per field that has a cycle count, numbered as it is appended. */
  method ReadsList(fields: seq<(string, Option<int>)>) returns (readsList: seq<Value>)
    ensures readsList == ReadsListFrom(fields, 0)
  {
    readsList := [];
    var indexIter: nat := 0;
    for i := 0 to |fields|
      invariant readsList + ReadsListFrom(fields[i..], indexIter) == ReadsListFrom(fields, 0)
    {
      assert fields[i..][0] == fields[i] && fields[i..][1..] == fields[i + 1..];
      var sectionName, section := fields[i].0, fields[i].1;
      if section.Some? {
        indexIter := indexIter + 1;
        readsList := readsList + [ReadEntry(indexIter, sectionName, section.value)];
      }
    }
    assert fields[|fields|..] == [];
  }

  /** Lines 62-84: the run dictionary, extended key by key. */
  method AppendOptionalFields<D>(readsList: seq<Value>, runId: string, number: Value,
                                 flowcell: Value, instrument: Value, date: Option<D>,
                                 strftime: D -> string, alignToPhiX: Option<bool>,
                                 imageDimensions: Option<Dict<Value>>, imageChannels: Option<Dict<Value>>)
      returns (runDict: Dict<Value>)
    ensures runDict == RunDict(readsList, runId, number, flowcell, instrument, date, strftime, alignToPhiX,
                               imageDimensions, imageChannels)
  {
    runDict := [("@Id", VStr(runId)), ("Reads", VDict([("Read", VList(readsList))]))];
    ghost var before := runDict;
    if !number.VNone? {
      runDict := Put(runDict, "@Number", number);
    }
    assert runDict == PutOpt(before, "@Number", Given(number));
    before := runDict;
    if !flowcell.VNone? {
      runDict := Put(runDict, "Flowcell", flowcell);
    }
    assert runDict == PutOpt(before, "Flowcell", Given(flowcell));
    before := runDict;
    if !instrument.VNone? {
      runDict := Put(runDict, "Instrument", instrument);
    }
    assert runDict == PutOpt(before, "Instrument", Given(instrument));
    before := runDict;
    if date.Some? {
      runDict := Put(runDict, "Date", VStr(strftime(date.value)));
    }
    assert runDict == PutOpt(before, "Date", DateOpt(date, strftime));
    before := runDict;
    if alignToPhiX.Some? {
      runDict := Put(runDict, "AlignToPhiX", if alignToPhiX.value then VStr("Y") else VNone);
    }
    assert runDict == PutOpt(before, "AlignToPhiX", PhiXOpt(alignToPhiX));
    before := runDict;
    if imageDimensions.Some? {
      runDict := Put(runDict, "ImageDimensions", VDict(imageDimensions.value));
    }
    assert runDict == PutOpt(before, "ImageDimensions", DictOpt(imageDimensions));
    before := runDict;
    if imageChannels.Some? {
      runDict := Put(runDict, "ImageChannels", VDict(imageChannels.value));
    }
    assert runDict == PutOpt(before, "ImageChannels", DictOpt(imageChannels));
  }
}
