/** `generate_run_info_xml_from_minimal_inputs`: a minimal RunInfo dictionary completed in
    place, the missing run fields taken from a run id `YYMMDD_INSTRUMENT_NUMBER_[A|B]FLOWCELL`. */
module RunInfoWriter {
  import opened Wrappers
  import opened Text
  import opened Dicts
  import opened Values

  // ---------------------------------------------------------------------------
  // The run id pattern (line 147), hand-matched

  /** `[A-Z0-9]` */
  predicate IsUpperAlnum(c: char) {
    IsUpper(c) || IsDigit(c)
  }

  predicate AllUpperAlnum(s: string) {
    forall i :: 0 <= i < |s| ==> IsUpperAlnum(s[i])
  }

  /** `\d` when `digits`, otherwise `[A-Z0-9]`. */
  predicate InClass(c: char, digits: bool) {
    if digits then IsDigit(c) else IsUpperAlnum(c)
  }

  /** How far a greedy `\d+` or `[A-Z0-9]+` reaches from the start of `s`: the longest prefix
      inside the class. */
  function Span(s: string, digits: bool): (n: nat)
    ensures n <= |s|
    ensures forall i :: 0 <= i < n ==> InClass(s[i], digits)
    ensures n < |s| ==> !InClass(s[n], digits)
    decreases |s|
  {
    if s == [] || !InClass(s[0], digits) then 0 else 1 + Span(s[1..], digits)
  }

  /** A run of class characters ended by the end of `s` or by a character outside the class
      is what the greedy span finds. */
  lemma SpanIs(s: string, digits: bool, n: nat)
    requires n <= |s|
    requires forall i :: 0 <= i < n ==> InClass(s[i], digits)
    requires n < |s| ==> !InClass(s[n], digits)
    ensures Span(s, digits) == n
  {
  }

  /** Every character of `s` is in the class. */
  predicate AllInClass(s: string, digits: bool) {
    forall i :: 0 <= i < |s| ==> InClass(s[i], digits)
  }

  /** The four groups of a match, None for a group outside the alternative that matched. */
  datatype RunIdGroups = RunIdGroups(date: Option<string>, instrument: Option<string>,
                                     number: Option<string>, flowcell: Option<string>)

  /** `a_b` */
  function Joined(a: string, b: string): string {
    a + "_" + b
  }

  /** Where the two parts of `a_b` sit. */
  lemma JoinedParts(a: string, b: string)
    ensures var s := Joined(a, b);
            && |s| == |a| + 1 + |b| && s[..|a|] == a && s[|a|] == '_' && s[|a| + 1..] == b
  {
    var s := Joined(a, b);
    assert s[..|a|] == a;
    assert s[|a| + 1..] == b;
  }

  /** A prefix of `a_b` that reaches into `b` is `a_` and a prefix of `b`. */
  lemma JoinedPrefix(a: string, b: string, p: nat)
    requires p <= |b|
    ensures Joined(a, b)[..|a| + 1 + p] == Joined(a, b[..p])
  {
    var s := Joined(a, b);
    assert s[..|a| + 1 + p] == a + "_" + b[..p];
  }

  /** Text after `a_` is appended to its second part. */
  lemma JoinedAppend(a: string, b: string, t: string)
    ensures Joined(a, b) + t == Joined(a, b + t)
  {
    assert a + "_" + b + t == a + "_" + (b + t);
  }

  /** `X+_` for the class of `X`: the greedy run at the start of `t` when a `_` follows it,
      with the text after that `_`. A run that stops elsewhere is no match: neither class
      holds `_`, so the run cannot be shortened to reach one. */
  function Word(t: string, digits: bool): (r: Option<(string, string)>)
    ensures r.Some? ==> |r.value.0| >= 1 && AllInClass(r.value.0, digits) && t == Joined(r.value.0, r.value.1)
  {
    var i := Span(t, digits);
    if 1 <= i < |t| && t[i] == '_' then
      assert t == t[..i] + "_" + t[i + 1..];
      Some((t[..i], t[i + 1..]))
    else None
  }

  /** A class run followed by `_` is read back as that run. */
  lemma WordOf(w: string, rest: string, digits: bool)
    requires |w| >= 1 && AllInClass(w, digits)
    ensures Word(Joined(w, rest), digits) == Some((w, rest))
  {
    var t := Joined(w, rest);
    JoinedParts(w, rest);
    SpanIs(t, digits, |w|);
  }

  /** What the three leading groups of the pattern accept. */
  predicate HeadParts(date: string, instrument: string, number: string) {
    |date| == 6 && AllDigits(date) && |instrument| >= 1 && AllUpperAlnum(instrument)
    && |number| >= 1 && AllDigits(number)
  }

  /** `date_instrument_number_rest` */
  function HeadText(date: string, instrument: string, number: string, rest: string): string {
    Joined(date, Joined(instrument, Joined(number, rest)))
  }

  /** `(\d{6})_([A-Z0-9]+)_(\d+)_` at the start of `s`: its three groups and the text after the
      last `_`. Each greedy run must stop at the `_` that follows it, so the match, when
      there is one, is the only one. */
  function MatchHead(s: string): (r: Option<(string, string, string, string)>)
    ensures r.Some? ==> HeadParts(r.value.0, r.value.1, r.value.2)
    ensures r.Some? ==> s == HeadText(r.value.0, r.value.1, r.value.2, r.value.3)
  {
    if |s| >= 7 && AllDigits(s[..6]) && s[6] == '_' then
      assert s == Joined(s[..6], s[7..]);
      match Word(s[7..], false)
      case None => None
      case Some((instrument, afterInstrument)) =>
        match Word(afterInstrument, true)
        case None => None
        case Some((number, rest)) => Some((s[..6], instrument, number, rest))
    else None
  }

  /** The pattern at line 147, and the one its comment describes (line 135). */
  datatype Pattern =
    // `(\d{6})_([A-Z0-9]+)_(\d+)_A|B([A-Z0-9]+)`: the `|` binds loosest, so this is
    // `(\d{6})_([A-Z0-9]+)_(\d+)_A` or `B([A-Z0-9]+)`
    | AsWritten
    // `(\d{6})_([A-Z0-9]+)_(\d+)_[AB]([A-Z0-9]+)`
    | Intended

  /** `re.match(pattern, s)`: the groups of the match at the start of `s`, if there is one. */
  function MatchRunId(p: Pattern, s: string): (r: Option<RunIdGroups>)
    ensures r.Some? && r.value.number.Some? ==>
              r.value.date.Some? && r.value.instrument.Some?
              && HeadParts(r.value.date.value, r.value.instrument.value, r.value.number.value)
  {
    var head := MatchHead(s);
    match p
    case AsWritten =>
      if head.Some? && head.value.3 != [] && head.value.3[0] == 'A' then
        Some(RunIdGroups(Some(head.value.0), Some(head.value.1), Some(head.value.2), None))
      else if |s| >= 1 && s[0] == 'B' && Span(s[1..], false) >= 1 then
        Some(RunIdGroups(None, None, None, Some(s[1..1 + Span(s[1..], false)])))
      else None
    case Intended =>
      if head.Some? && SideFlowcell(head.value.3).Some? then
        Some(RunIdGroups(Some(head.value.0), Some(head.value.1), Some(head.value.2), SideFlowcell(head.value.3)))
      else None
  }

  /** `[AB]([A-Z0-9]+)` at the start of `rest`: the flowcell group. */
  function SideFlowcell(rest: string): Option<string> {
    if rest != [] && rest[0] in {'A', 'B'} && Span(rest[1..], false) >= 1 then
      Some(rest[1..1 + Span(rest[1..], false)])
    else None
  }

  /** The run id of a run: date, instrument, run number, flowcell side and flowcell. */
  function RunIdText(date: string, instrument: string, number: string, side: char, flowcell: string): string {
    HeadText(date, instrument, number, [side] + flowcell)
  }

  predicate RunIdParts(date: string, instrument: string, number: string, side: char, flowcell: string) {
    HeadParts(date, instrument, number) && (side == 'A' || side == 'B')
    && |flowcell| >= 1 && AllUpperAlnum(flowcell)
  }

  /** The head of a well-formed run id is matched into its three parts. */
  lemma MatchHeadOf(date: string, instrument: string, number: string, rest: string)
    requires HeadParts(date, instrument, number)
    ensures MatchHead(HeadText(date, instrument, number, rest)) == Some((date, instrument, number, rest))
  {
    var s := HeadText(date, instrument, number, rest);
    JoinedParts(date, Joined(instrument, Joined(number, rest)));
    assert AllInClass(instrument, false);
    WordOf(instrument, Joined(number, rest), false);
    assert AllInClass(number, true);
    WordOf(number, rest, true);
  }

  /** A run id followed by `tail` is its head followed by the side, the flowcell and `tail`;
      it opens with a digit. */
  lemma RunIdTextAppend(date: string, instrument: string, number: string, side: char,
                        flowcell: string, tail: string)
    requires |date| == 6 && AllDigits(date)
    ensures RunIdText(date, instrument, number, side, flowcell) + tail
            == HeadText(date, instrument, number, [side] + (flowcell + tail))
    ensures IsDigit((RunIdText(date, instrument, number, side, flowcell) + tail)[0])
  {
    var fc := [side] + flowcell;
    JoinedAppend(number, fc, tail);
    JoinedAppend(instrument, Joined(number, fc), tail);
    JoinedAppend(date, Joined(instrument, Joined(number, fc)), tail);
    assert fc + tail == [side] + (flowcell + tail);
    JoinedParts(date, Joined(instrument, Joined(number, fc)) + tail);
  }

  /** After the side, the flowcell group takes exactly the flowcell, stopping before the tail. */
  lemma FlowcellSpan(side: char, flowcell: string, tail: string)
    requires (side == 'A' || side == 'B') && |flowcell| >= 1 && AllUpperAlnum(flowcell)
    requires tail == [] || !IsUpperAlnum(tail[0])
    ensures SideFlowcell([side] + (flowcell + tail)) == Some(flowcell)
  {
    var rest := [side] + (flowcell + tail);
    assert rest[1..] == flowcell + tail;
    SpanIs(flowcell + tail, false, |flowcell|);
    assert rest[1..1 + |flowcell|] == (flowcell + tail)[..|flowcell|];
  }

  /** A well-formed run id, followed by anything that does not extend the flowcell, is
      matched back into its parts by the intended pattern. */
  lemma MatchRunIdRoundTrip(date: string, instrument: string, number: string, side: char,
                            flowcell: string, tail: string)
    requires RunIdParts(date, instrument, number, side, flowcell)
    requires tail == [] || !IsUpperAlnum(tail[0])
    ensures MatchRunId(Intended, RunIdText(date, instrument, number, side, flowcell) + tail)
            == Some(RunIdGroups(Some(date), Some(instrument), Some(number), Some(flowcell)))
  {
    RunIdTextAppend(date, instrument, number, side, flowcell, tail);
    MatchHeadOf(date, instrument, number, [side] + (flowcell + tail));
    FlowcellSpan(side, flowcell, tail);
  }

  /** As written, the pattern keeps the first three parts of an `A` run id but not its
      flowcell, and matches no `B` run id at all. */
  lemma MatchRunIdAsWritten(date: string, instrument: string, number: string, side: char,
                            flowcell: string, tail: string)
    requires RunIdParts(date, instrument, number, side, flowcell)
    requires tail == [] || !IsUpperAlnum(tail[0])
    ensures MatchRunId(AsWritten, RunIdText(date, instrument, number, side, flowcell) + tail)
            == if side == 'A' then Some(RunIdGroups(Some(date), Some(instrument), Some(number), None))
               else None
  {
    RunIdTextAppend(date, instrument, number, side, flowcell, tail);
    MatchHeadOf(date, instrument, number, [side] + (flowcell + tail));
  }

  /** The prefix of `date_instrument_number_rest` that ends `p` characters into `rest`, and
      the text from where `rest` begins. */
  lemma HeadTextPrefix(date: string, instrument: string, number: string, rest: string, p: nat)
    requires p <= |rest|
    ensures var s := HeadText(date, instrument, number, rest);
            var n := |date| + |instrument| + |number| + 3;
            && n + p <= |s| && s[..n + p] == HeadText(date, instrument, number, rest[..p]) && s[n..] == rest
  {
    JoinedPrefix(number, rest, p);
    JoinedPrefix(instrument, Joined(number, rest), |number| + 1 + p);
    JoinedPrefix(date, Joined(instrument, Joined(number, rest)), |instrument| + 1 + |number| + 1 + p);
    JoinedParts(number, rest);
    JoinedParts(instrument, Joined(number, rest));
    JoinedParts(date, Joined(instrument, Joined(number, rest)));
  }

  /** The flowcell group of the intended pattern: class characters, ended by the end of the
      text or by a character outside the class. */
  lemma FlowcellGroup(rest: string)
    requires SideFlowcell(rest).Some?
    ensures var f := SideFlowcell(rest).value;
            && 1 + |f| <= |rest| && (rest[0] == 'A' || rest[0] == 'B') && |f| >= 1 && AllUpperAlnum(f)
            && rest[..1 + |f|] == [rest[0]] + f
            && (1 + |f| == |rest| || !IsUpperAlnum(rest[1 + |f|]))
  {
    var k := Span(rest[1..], false);
    var flowcell := rest[1..1 + k];
    forall x | 0 <= x < k ensures IsUpperAlnum(flowcell[x]) {
      assert flowcell[x] == rest[1..][x];
    }
    assert 1 + k < |rest| ==> rest[1 + k] == rest[1..][k];
    assert rest[..1 + k] == [rest[0]] + rest[1..1 + k];
  }

  /** Conversely, whatever the intended pattern matches (all four groups take part, by
      `IntendedGroups`) is a well-formed run id followed by something that does not extend
      its flowcell. */
  lemma MatchRunIdSound(s: string, date: string, instrument: string, number: string, flowcell: string)
    requires MatchRunId(Intended, s) == Some(RunIdGroups(Some(date), Some(instrument), Some(number), Some(flowcell)))
    ensures var n := |date| + |instrument| + |number| + 3;
            var m := n + 1 + |flowcell|;
            && n < m <= |s|
            && RunIdParts(date, instrument, number, s[n], flowcell)
            && s[..m] == RunIdText(date, instrument, number, s[n], flowcell)
            && (m == |s| || !IsUpperAlnum(s[m]))
  {
    IntendedGroups(s);
    var rest := MatchHead(s).value.3;
    SoundPrefix(s, date, instrument, number, rest, flowcell);
    SoundSide(s, date, instrument, number, rest, flowcell);
  }

  /** A text made of a well-formed head, then a side and a flowcell, opens with that run id. */
  lemma SoundPrefix(s: string, date: string, instrument: string, number: string, rest: string, flowcell: string)
    requires s == HeadText(date, instrument, number, rest) && SideFlowcell(rest) == Some(flowcell)
    ensures var n := |date| + |instrument| + |number| + 3;
            var m := n + 1 + |flowcell|;
            && n < m <= |s|
            && s[..m] == RunIdText(date, instrument, number, rest[0], flowcell)
  {
    FlowcellGroup(rest);
    HeadTextPrefix(date, instrument, number, rest, 1 + |flowcell|);
  }

  /** ... and its side, flowcell and what follows are those a run id allows. */
  lemma SoundSide(s: string, date: string, instrument: string, number: string, rest: string, flowcell: string)
    requires s == HeadText(date, instrument, number, rest)
    requires HeadParts(date, instrument, number) && SideFlowcell(rest) == Some(flowcell)
    ensures var n := |date| + |instrument| + |number| + 3;
            var m := n + 1 + |flowcell|;
            && n < m <= |s| && s[n] == rest[0]
            && RunIdParts(date, instrument, number, s[n], flowcell)
            && (m == |s| || !IsUpperAlnum(s[m]))
  {
    var n := |date| + |instrument| + |number| + 3;
    FlowcellGroup(rest);
    HeadTextPrefix(date, instrument, number, rest, 1 + |flowcell|);
    SuffixAt(s, n, rest, 1 + |flowcell|);
  }

  /** Where `rest` begins at `n` in `s`, the characters of `s` from there on are those of `rest`. */
  lemma SuffixAt(s: string, n: nat, rest: string, j: nat)
    requires n <= |s| && s[n..] == rest && 0 < j <= |rest|
    ensures |s| == n + |rest| && s[n] == rest[0] && (n + j < |s| ==> s[n + j] == rest[j])
  {
  }

  /** The groups of an intended match: the three of the head, and the flowcell after it; so
      all four take part. */
  lemma IntendedGroups(s: string)
    requires MatchRunId(Intended, s).Some?
    ensures MatchHead(s).Some? && SideFlowcell(MatchHead(s).value.3).Some?
    ensures var head := MatchHead(s).value;
            MatchRunId(Intended, s).value
            == RunIdGroups(Some(head.0), Some(head.1), Some(head.2), SideFlowcell(head.3))
  {
  }

  // ---------------------------------------------------------------------------
  // Completing the dictionary (lines 126-185)

  /** What a call raised, if anything, and the caller's dictionary after it: the function
      edits `input_dict` and `input_dict["Run"]` in place, and an edit made before a
      failure stays made. */
  datatype Completion = Completion(error: Option<Error>, inputDict: Dict<Value>)

  const DefaultImageDimensions: Value := VDict([("@Width", VStr("3200")), ("@Height", VStr("3607"))])
  const DefaultImageChannels: Value := VDict([("Name", VList([VStr("RED"), VStr("GREEN")]))])

  /** A group's text, or None for a group that did not take part. */
  function GroupValue(g: Option<string>): (v: Value)
    ensures g.None? <==> v.VNone?
    ensures g.Some? ==> v == VStr(g.value)
  {
    if g.Some? then VStr(g.value) else VNone
  }

  /** Lines 131-132: `@Version` becomes `"5"` when it is absent or None. */
  function Versioned(d: Dict<Value>): (r: Dict<Value>)
    ensures Field(r, "@Version") == if Field(d, "@Version").VNone? then VStr("5") else Field(d, "@Version")
    ensures forall key :: key != "@Version" ==> Get(r, key) == Get(d, key)
  {
    if Field(d, "@Version").VNone? then
      GetPutAll(d, "@Version", VStr("5"));
      Put(d, "@Version", VStr("5"))
    else d
  }

  /** `d[key] = value` leaves every other key's lookup alone. */
  lemma GetPutAll(d: Dict<Value>, key: string, value: Value)
    ensures Get(Put(d, key, value), key) == Some(value)
    ensures forall other :: other != key ==> Get(Put(d, key, value), other) == Get(d, other)
  {
    forall other | other != key ensures Get(Put(d, key, value), other) == Get(d, other) {
      GetPut(d, key, value, other);
    }
    GetPut(d, key, value, key);
  }

  /** Line 145: none of `@Number`, `Flowcell`, `Instrument` and `Date` is absent or None. */
  predicate AllGiven(run: Dict<Value>) {
    !Field(run, "@Number").VNone? && !Field(run, "Flowcell").VNone?
    && !Field(run, "Instrument").VNone? && !Field(run, "Date").VNone?
  }

  /** Lines 156-165: the four fields overwritten from the groups of the match. */
  function ParsedRun(run: Dict<Value>, number: string, g: RunIdGroups, date: string): Dict<Value> {
    Put(Put(Put(Put(run, "@Number", VStr(number)), "Flowcell", GroupValue(g.flowcell)),
            "Instrument", GroupValue(g.instrument)), "Date", VStr(date))
  }

  /** `if run.get(key) is None: run[key] = value` */
  function PutDefault(run: Dict<Value>, key: string, value: Value): Dict<Value> {
    if Field(run, key).VNone? then Put(run, key, value) else run
  }

  /** Lines 167-185: the defaults for `AlignToPhiX`, `ImageDimensions` and `ImageChannels`. */
  function WithDefaults(run: Dict<Value>): Dict<Value> {
    PutDefault(PutDefault(PutDefault(run, "AlignToPhiX", VNone), "ImageDimensions", DefaultImageDimensions),
               "ImageChannels", DefaultImageChannels)
  }

  /** Lines 147-185: the run dict with the fields taken from the run id `run["@Id"]`,
      or the failure. `reformatDate` stands for `strptime(..., "%y%m%d").strftime("%m/%d/%Y")`,
      None where `strptime` rejects the digits. */
  function ParseRunId(run: Dict<Value>, p: Pattern, reformatDate: string -> Option<string>): Result<Dict<Value>> {
    if !Field(run, "@Id").VStr? then Err(WrongPayloadShape("@Id"))
    else
      match MatchRunId(p, Field(run, "@Id").s)
      case None => Err(RunIdMismatch)
      case Some(g) =>
        if g.number.None? then Err(IntOfNone)
        else
          match reformatDate(g.date.value)
          case None => Err(BadDate)
          case Some(day) =>
            Ok(WithDefaults(ParsedRun(run, NatToString(DigitsValue(g.number.value)), g, day + " 12:00:00 AM")))
  }

  /** Lines 139-185 on the dictionary `d1` whose `Run` is `run`: nothing to do when all four
      fields are given, otherwise the parsed run stored back under `Run`. */
  function FillFromRunId(d1: Dict<Value>, run: Dict<Value>, p: Pattern,
                         reformatDate: string -> Option<string>): (c: Completion)
    ensures c.error.Some? ==> c.inputDict == d1
    ensures c.error.None? ==> forall key :: key != "Run" ==> Get(c.inputDict, key) == Get(d1, key)
  {
    if AllGiven(run) then Completion(None, d1)
    else
      match ParseRunId(run, p, reformatDate)
      case Err(e) => Completion(Some(e), d1)
      case Ok(parsed) =>
        GetPutAll(d1, "Run", VDict(parsed));
        Completion(None, Put(d1, "Run", VDict(parsed)))
  }

  /** Lines 126-185 with the pattern `p`. */
  function Complete(d: Dict<Value>, p: Pattern, reformatDate: string -> Option<string>): Completion {
    match Get(d, "Run")
    case None => Completion(Some(KeyMissing("Run")), d)
    case Some(runValue) =>
      if !runValue.VDict? then Completion(Some(WrongPayloadShape("Run")), d)
      else if Field(runValue.entries, "@Id").VNone? then Completion(Some(MissingRunId), d)
      else FillFromRunId(Versioned(d), runValue.entries, p, reformatDate)
  }

  /** Lines 126-185, editing the caller's dictionary step by step as the source does. */
  method CompleteMinimalInputs(inputDict: Dict<Value>, p: Pattern, reformatDate: string -> Option<string>)
      returns (error: Option<Error>, updated: Dict<Value>)
    ensures Completion(error, updated) == Complete(inputDict, p, reformatDate)
  {
    updated := inputDict;
    var runValue := Get(updated, "Run");
    if runValue.None? {
      return Some(KeyMissing("Run")), updated;
    }
    if !runValue.value.VDict? {
      return Some(WrongPayloadShape("Run")), updated;
    }
    var run := runValue.value.entries;
    if Field(run, "@Id").VNone? {
      return Some(MissingRunId), updated;
    }
    if Field(updated, "@Version").VNone? {
      updated := Put(updated, "@Version", VStr("5"));
    }
    var number, flowcell := Field(run, "@Number"), Field(run, "Flowcell");
    var instrument, date := Field(run, "Instrument"), Field(run, "Date");
    if number.VNone? || flowcell.VNone? || instrument.VNone? || date.VNone? {
      error, run := FillRunFromId(run, p, reformatDate);
      if error.Some? {
        return error, updated;
      }
      updated := Put(updated, "Run", VDict(run));
    }
    error := None;
  }

  /** Lines 147-185 on `input_dict["Run"]`: match the run id, then overwrite the four fields
      and fill in the defaults, in the source's order. */
  method FillRunFromId(original: Dict<Value>, p: Pattern, reformatDate: string -> Option<string>)
      returns (error: Option<Error>, run: Dict<Value>)
    ensures error.Some? ==> ParseRunId(original, p, reformatDate) == Err(error.value)
    ensures error.None? ==> ParseRunId(original, p, reformatDate) == Ok(run)
  {
    run := original;
    var runId := Field(run, "@Id");
    if !runId.VStr? {
      return Some(WrongPayloadShape("@Id")), run;
    }
    var groups := MatchRunId(p, runId.s);
    if groups.None? {
      return Some(RunIdMismatch), run;
    }
    if groups.value.number.None? {
      return Some(IntOfNone), run;
    }
    var day := reformatDate(groups.value.date.value);
    if day.None? {
      return Some(BadDate), run;
    }
    run := Put(run, "@Number", VStr(NatToString(DigitsValue(groups.value.number.value))));
    run := Put(run, "Flowcell", GroupValue(groups.value.flowcell));
    run := Put(run, "Instrument", GroupValue(groups.value.instrument));
    run := Put(run, "Date", VStr(day.value + " 12:00:00 AM"));
    ghost var parsed := run;
    if Field(run, "AlignToPhiX").VNone? {
      run := Put(run, "AlignToPhiX", VNone);
    }
    if Field(run, "ImageDimensions").VNone? {
      run := Put(run, "ImageDimensions", DefaultImageDimensions);
    }
    if Field(run, "ImageChannels").VNone? {
      run := Put(run, "ImageChannels", DefaultImageChannels);
    }
    assert run == WithDefaults(parsed);
    error := None;
  }

  /** `input_dict["Run"]` is a dict with a run id: the function gets past line 128. */
  predicate HasRunId(d: Dict<Value>) {
    Get(d, "Run").Some? && Get(d, "Run").value.VDict? && !Field(Get(d, "Run").value.entries, "@Id").VNone?
  }

  /** Nothing is edited before the run id is checked; every failure after that leaves
      exactly the `@Version` edit behind; a completion that succeeds changes no key but `Run`
      and `@Version`. */
  lemma CompleteEdits(d: Dict<Value>, p: Pattern, reformatDate: string -> Option<string>)
    ensures !HasRunId(d) ==> Complete(d, p, reformatDate).error.Some?
                             && Complete(d, p, reformatDate).inputDict == d
    ensures HasRunId(d) && Complete(d, p, reformatDate).error.Some? ==>
              Complete(d, p, reformatDate).inputDict == Versioned(d)
    ensures Complete(d, p, reformatDate).error.None? ==>
              HasRunId(d)
              && forall key :: key != "Run" ==>
                   Get(Complete(d, p, reformatDate).inputDict, key) == Get(Versioned(d), key)
  {
  }

  /** When `@Number`, `Flowcell`, `Instrument` and `Date` are all given, the run id is not
      parsed: only `@Version` may change, whatever the pattern and the date conversion. */
  lemma CompleteAllGiven(d: Dict<Value>, p: Pattern, reformatDate: string -> Option<string>,
                         p': Pattern, reformatDate': string -> Option<string>)
    requires HasRunId(d) && AllGiven(Get(d, "Run").value.entries)
    ensures Complete(d, p, reformatDate) == Completion(None, Versioned(d))
    ensures Complete(d, p, reformatDate) == Complete(d, p', reformatDate')
    ensures Get(Versioned(d), "Run") == Get(d, "Run")
  {
  }

  lemma {:induction false} PutDefaultFacts(run: Dict<Value>, key: string, value: Value)
    ensures var r := PutDefault(run, key, value);
            && key in Keys(r)
            && Field(r, key) == (if Field(run, key).VNone? then value else Field(run, key))
            && forall other :: other != key ==> Get(r, other) == Get(run, other)
  {
    GetPutAll(run, key, value);
  }

  /** The keys the function writes into `Run` are distinct. */
  lemma RunKeysDistinct()
    ensures "@Number" != "Flowcell" && "@Number" != "Instrument" && "@Number" != "Date"
    ensures "Flowcell" != "Instrument" && "Flowcell" != "Date" && "Instrument" != "Date"
    ensures "AlignToPhiX" != "ImageDimensions" && "AlignToPhiX" != "ImageChannels"
    ensures "ImageDimensions" != "ImageChannels"
  {
    assert "@Number"[0] != "Flowcell"[0] && "@Number"[0] != "Instrument"[0] && "@Number"[0] != "Date"[0];
    assert "Flowcell"[0] != "Instrument"[0] && "Flowcell"[0] != "Date"[0] && "Instrument"[0] != "Date"[0];
    assert "AlignToPhiX"[0] != "ImageDimensions"[0] && "AlignToPhiX"[0] != "ImageChannels"[0];
    assert "ImageDimensions"[5] != "ImageChannels"[5];
  }

  /** Line 156-165: the four fields hold the parsed values, supplied ones included; the other
      keys keep theirs. */
  lemma ParsedRunFields(run: Dict<Value>, number: string, g: RunIdGroups, date: string)
    ensures var r := ParsedRun(run, number, g, date);
            && Field(r, "@Number") == VStr(number) && Field(r, "Flowcell") == GroupValue(g.flowcell)
            && Field(r, "Instrument") == GroupValue(g.instrument) && Field(r, "Date") == VStr(date)
            && forall key :: key != "@Number" && key != "Flowcell" && key != "Instrument" && key != "Date"
                 ==> Get(r, key) == Get(run, key)
  {
    var r1 := Put(run, "@Number", VStr(number));
    var r2 := Put(r1, "Flowcell", GroupValue(g.flowcell));
    var r3 := Put(r2, "Instrument", GroupValue(g.instrument));
    RunKeysDistinct();
    GetPutAll(run, "@Number", VStr(number));
    GetPutAll(r1, "Flowcell", GroupValue(g.flowcell));
    GetPutAll(r2, "Instrument", GroupValue(g.instrument));
    GetPutAll(r3, "Date", VStr(date));
  }

  /** Lines 167-185: `AlignToPhiX` becomes a key, and the image fields get their defaults,
      each only where it was absent or None. */
  lemma DefaultsFields(run: Dict<Value>)
    ensures var r := WithDefaults(run);
            && "AlignToPhiX" in Keys(r) && Field(r, "AlignToPhiX") == Field(run, "AlignToPhiX")
            && Field(r, "ImageDimensions") == (if Field(run, "ImageDimensions").VNone? then DefaultImageDimensions
                                               else Field(run, "ImageDimensions"))
            && Field(r, "ImageChannels") == (if Field(run, "ImageChannels").VNone? then DefaultImageChannels
                                             else Field(run, "ImageChannels"))
  {
    var r1 := PutDefault(run, "AlignToPhiX", VNone);
    var r2 := PutDefault(r1, "ImageDimensions", DefaultImageDimensions);
    RunKeysDistinct();
    PutDefaultFacts(run, "AlignToPhiX", VNone);
    PutDefaultFacts(r1, "ImageDimensions", DefaultImageDimensions);
    PutDefaultFacts(r2, "ImageChannels", DefaultImageChannels);
    assert "AlignToPhiX" in Keys(r1);
    GetPutAll(r2, "ImageChannels", DefaultImageChannels);
  }

  /** The defaults touch no other key. */
  lemma DefaultsKeep(run: Dict<Value>, key: string)
    requires key != "AlignToPhiX" && key != "ImageDimensions" && key != "ImageChannels"
    ensures Get(WithDefaults(run), key) == Get(run, key)
  {
    var r1 := PutDefault(run, "AlignToPhiX", VNone);
    var r2 := PutDefault(r1, "ImageDimensions", DefaultImageDimensions);
    PutDefaultFacts(run, "AlignToPhiX", VNone);
    PutDefaultFacts(r1, "ImageDimensions", DefaultImageDimensions);
    PutDefaultFacts(r2, "ImageChannels", DefaultImageChannels);
  }

  // ---------------------------------------------------------------------------
  // The whole function (lines 187-191)

  /** What the call returns or raises, and the caller's dictionary after it. */
  datatype Outcome = Outcome(result: Result<Value>, inputDict: Dict<Value>)

  /** The call that ends the function, `generate_run_info_xml_from_minimal_inputs({"RunInfo":
      input_dict})`, fails at once: its argument has no `Run` key, and it edits nothing. */
  lemma RecursiveCallRaises(x: Value, p: Pattern, reformatDate: string -> Option<string>)
    ensures Complete([("RunInfo", x)], p, reformatDate) == Completion(Some(KeyMissing("Run")), [("RunInfo", x)])
  {
    assert Get([("RunInfo", x)], "Run") == None by {
      assert "RunInfo" != "Run";
      assert Keys([("RunInfo", x)]) == ["RunInfo"];
    }
  }

  /** The function as written: a completion that succeeds goes on into the final call, whose
      `KeyError` (`RecursiveCallRaises`) is what every call ends in. */
  function GenerateAsWritten(d: Dict<Value>, reformatDate: string -> Option<string>): (o: Outcome)
    ensures o.inputDict == Complete(d, AsWritten, reformatDate).inputDict
  {
    var c := Complete(d, AsWritten, reformatDate);
    if c.error.Some? then Outcome(Err(c.error.value), c.inputDict)
    else
      RecursiveCallRaises(VDict(c.inputDict), AsWritten, reformatDate);
      Outcome(Err(KeyMissing("Run")), c.inputDict)
  }

  /** As written, no call returns: even a complete, well-formed input ends in `KeyError`. */
  lemma AsWrittenNeverReturns(d: Dict<Value>, reformatDate: string -> Option<string>)
    ensures GenerateAsWritten(d, reformatDate).result.Err?
    ensures Complete(d, AsWritten, reformatDate).error.None? ==>
              GenerateAsWritten(d, reformatDate).result == Err(KeyMissing("Run"))
  {
  }

  /** The function as intended: the completed dictionary, wrapped as the document's
      `RunInfo` element (the shape of the docstring, lines 6-52). */
  function Generate(d: Dict<Value>, reformatDate: string -> Option<string>): (o: Outcome)
    ensures o.result.Ok? <==> Complete(d, Intended, reformatDate).error.None?
    ensures o.result.Err? ==> o.result.error == Complete(d, Intended, reformatDate).error.value
    ensures o.result.Ok? ==> o.result.value == VDict([("RunInfo", VDict(o.inputDict))])
    ensures o.inputDict == Complete(d, Intended, reformatDate).inputDict
  {
    var c := Complete(d, Intended, reformatDate);
    if c.error.Some? then Outcome(Err(c.error.value), c.inputDict)
    else Outcome(Ok(VDict([("RunInfo", VDict(c.inputDict))])), c.inputDict)
  }

  /** The function with the intended pattern and return, on the caller's dictionary. */
  method GenerateRunInfoFromMinimalInputs(inputDict: Dict<Value>, reformatDate: string -> Option<string>)
      returns (result: Result<Value>, updated: Dict<Value>)
    ensures Outcome(result, updated) == Generate(inputDict, reformatDate)
  {
    var error;
    error, updated := CompleteMinimalInputs(inputDict, Intended, reformatDate);
    if error.Some? {
      return Err(error.value), updated;
    }
    result := Ok(VDict([("RunInfo", VDict(updated))]));
  }

  /** A minimal `Run` with a well-formed run id and a missing field: the intended function
      fills `@Number` (leading zeros dropped), `Flowcell`, `Instrument` and `Date` from the
      run id and returns the wrapped document. */
  lemma FieldsFromRunId(d: Dict<Value>, reformatDate: string -> Option<string>, date: string,
                        instrument: string, number: string, side: char, flowcell: string,
                        tail: string, day: string)
    requires RunIdParts(date, instrument, number, side, flowcell)
    requires tail == [] || !IsUpperAlnum(tail[0])
    requires Get(d, "Run").Some? && Get(d, "Run").value.VDict?
    requires Field(Get(d, "Run").value.entries, "@Id") == VStr(RunIdText(date, instrument, number, side, flowcell) + tail)
    requires !AllGiven(Get(d, "Run").value.entries)
    requires reformatDate(date) == Some(day)
    ensures var o := Generate(d, reformatDate);
            && o.result.Ok?
            && Get(o.inputDict, "Run").Some? && Get(o.inputDict, "Run").value.VDict?
            && var run := Get(o.inputDict, "Run").value.entries;
               && Field(run, "@Number") == VStr(NatToString(DigitsValue(number)))
               && Field(run, "Flowcell") == VStr(flowcell)
               && Field(run, "Instrument") == VStr(instrument)
               && Field(run, "Date") == VStr(day + " 12:00:00 AM")
  {
    MatchRunIdRoundTrip(date, instrument, number, side, flowcell, tail);
    ParsedFilled(d, Get(d, "Run").value.entries, Intended, reformatDate,
                 RunIdGroups(Some(date), Some(instrument), Some(number), Some(flowcell)), day);
  }

  /** The same input as written: an `A` run id gets a None flowcell and the call still
      raises `KeyError`, and a `B` run id is rejected. */
  lemma AsWrittenFieldsFromRunId(d: Dict<Value>, reformatDate: string -> Option<string>, date: string,
                                 instrument: string, number: string, side: char, flowcell: string,
                                 tail: string, day: string)
    requires RunIdParts(date, instrument, number, side, flowcell)
    requires tail == [] || !IsUpperAlnum(tail[0])
    requires Get(d, "Run").Some? && Get(d, "Run").value.VDict?
    requires Field(Get(d, "Run").value.entries, "@Id") == VStr(RunIdText(date, instrument, number, side, flowcell) + tail)
    requires !AllGiven(Get(d, "Run").value.entries)
    requires reformatDate(date) == Some(day)
    ensures side == 'A' ==>
              var o := GenerateAsWritten(d, reformatDate);
              && o.result == Err(KeyMissing("Run"))
              && Get(o.inputDict, "Run").Some? && Get(o.inputDict, "Run").value.VDict?
              && Field(Get(o.inputDict, "Run").value.entries, "Flowcell") == VNone
    ensures side == 'B' ==> GenerateAsWritten(d, reformatDate).result == Err(RunIdMismatch)
  {
    MatchRunIdAsWritten(date, instrument, number, side, flowcell, tail);
    if side == 'A' {
      ParsedFilled(d, Get(d, "Run").value.entries, AsWritten, reformatDate,
                   RunIdGroups(Some(date), Some(instrument), Some(number), None), day);
    }
  }

  /** A parse that succeeds stores the parsed fields under `Run` (lines 156-165). */
  lemma ParsedFilled(d: Dict<Value>, run: Dict<Value>, p: Pattern, reformatDate: string -> Option<string>,
                     g: RunIdGroups, day: string)
    requires Get(d, "Run") == Some(VDict(run)) && !Field(run, "@Id").VNone? && !AllGiven(run)
    requires Field(run, "@Id").VStr? && MatchRunId(p, Field(run, "@Id").s) == Some(g)
    requires g.number.Some? && reformatDate(g.date.value) == Some(day)
    ensures var c := Complete(d, p, reformatDate);
            && c.error.None?
            && Get(c.inputDict, "Run").Some? && Get(c.inputDict, "Run").value.VDict?
            && var r := Get(c.inputDict, "Run").value.entries;
               && Field(r, "@Number") == VStr(NatToString(DigitsValue(g.number.value)))
               && Field(r, "Flowcell") == GroupValue(g.flowcell)
               && Field(r, "Instrument") == GroupValue(g.instrument)
               && Field(r, "Date") == VStr(day + " 12:00:00 AM")
  {
    var number := NatToString(DigitsValue(g.number.value));
    var r := WithDefaults(ParsedRun(run, number, g, day + " 12:00:00 AM"));
    ParsedRunKeepsFields(run, number, g, day + " 12:00:00 AM");
    assert ParseRunId(run, p, reformatDate) == Ok(r);
    assert Complete(d, p, reformatDate) == Completion(None, Put(Versioned(d), "Run", VDict(r)));
    GetPutAll(Versioned(d), "Run", VDict(r));
  }

  /** The defaults that follow the parse leave the four parsed fields alone. */
  lemma ParsedRunKeepsFields(run: Dict<Value>, number: string, g: RunIdGroups, date: string)
    ensures var r := WithDefaults(ParsedRun(run, number, g, date));
            && Field(r, "@Number") == VStr(number) && Field(r, "Flowcell") == GroupValue(g.flowcell)
            && Field(r, "Instrument") == GroupValue(g.instrument) && Field(r, "Date") == VStr(date)
  {
    var parsed := ParsedRun(run, number, g, date);
    ParsedRunFields(run, number, g, date);
    DefaultsKeep(parsed, "@Number");
    DefaultsKeep(parsed, "Flowcell");
    DefaultsKeep(parsed, "Instrument");
    DefaultsKeep(parsed, "Date");
  }

  /** The run of the docstring (lines 10-13), with one of the four fields missing: the
      intended function derives run number `184`, flowcell `HNVH5DMXY` and instrument
      `A01052` from its run id; as written the flowcell comes out None. */
  lemma DocstringRunId(d: Dict<Value>, run: Dict<Value>, reformatDate: string -> Option<string>)
    requires Get(d, "Run") == Some(VDict(run)) && !AllGiven(run)
    requires Field(run, "@Id") == VStr("240229_A01052_0184_AHNVH5DMXY")
    requires reformatDate("240229") == Some("02/29/2024")
    ensures var o := Generate(d, reformatDate);
            && o.result.Ok?
            && Get(o.inputDict, "Run").Some? && Get(o.inputDict, "Run").value.VDict?
            && var r := Get(o.inputDict, "Run").value.entries;
               && Field(r, "@Number") == VStr("184") && Field(r, "Flowcell") == VStr("HNVH5DMXY")
               && Field(r, "Instrument") == VStr("A01052") && Field(r, "Date") == VStr("02/29/2024" + " 12:00:00 AM")
    ensures var o := GenerateAsWritten(d, reformatDate);
            && o.result == Err(KeyMissing("Run"))
            && Get(o.inputDict, "Run").Some? && Get(o.inputDict, "Run").value.VDict?
            && Field(Get(o.inputDict, "Run").value.entries, "Flowcell") == VNone
  {
    var date, instrument, number, flowcell := DocstringIdParts();
    DocstringNumber(number);
    FieldsFromRunId(d, reformatDate, date, instrument, number, 'A', flowcell, [], "02/29/2024");
    AsWrittenFieldsFromRunId(d, reformatDate, date, instrument, number, 'A', flowcell, [], "02/29/2024");
  }

  /** The parts of the docstring's run id. */
  lemma DocstringIdParts() returns (date: string, instrument: string, number: string, flowcell: string)
    ensures date == "240229" && instrument == "A01052" && number == "0184" && flowcell == "HNVH5DMXY"
    ensures RunIdParts(date, instrument, number, 'A', flowcell)
    ensures "240229_A01052_0184_AHNVH5DMXY" == RunIdText(date, instrument, number, 'A', flowcell) + []
  {
    date, instrument, number, flowcell := "240229", "A01052", "0184", "HNVH5DMXY";
    assert HeadParts(date, instrument, number);
    assert AllUpperAlnum(flowcell);
  }

  /** `str(int("0184"))` */
  lemma DocstringNumber(number: string)
    requires number == "0184"
    ensures AllDigits(number) && NatToString(DigitsValue(number)) == "184"
  {
    StrOfIntDropsLeadingZeros(number);
    LStripCharsIs(number, {'0'}, 1);
    assert number[1..] == "184";
  }
}
