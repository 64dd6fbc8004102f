/** `SampleSheet.read_from_samplesheet_csv`: the text of a v2 samplesheet, taken as the
    sequence of its lines, grouped by `[Section]` header, turned into a dictionary of
    snake-case section names to payloads, and handed to the samplesheet constructor. */
module SampleSheetReader {
  import opened Wrappers
  import opened Text
  import opened Dicts
  import opened Values
  import opened CaseConversion
  import opened SampleSheets

  // ---------------------------------------------------------------------------------------
  // Grouping the lines by section header
  // ---------------------------------------------------------------------------------------

  /** A stripped line that opens a section: `line.startswith("[") and line.endswith("]")`. */
  predicate IsHeaderLine(line: string) {
    StartsWith(line, "[") && EndsWith(line, "]")
  }

  /** `line.lstrip("[").rstrip("]")` */
  function HeaderName(line: string): string {
    RStripChars(LStripChars(line, {'['}), {']'})
  }

  /** The state of the reading loop: the groups stored so far, the open section (if any)
      and the lines collected since the last header. */
  datatype Grouping = Grouping(groups: Dict<seq<string>>, open: Option<string>, lines: seq<string>)

  const Start: Grouping := Grouping([], None, [])

  /** One pass of the loop body, on one raw line of the file. */
  function GroupStep(g: Grouping, raw: string): Grouping {
    var line := Strip(raw);
    if line == "" then g
    else if IsHeaderLine(line) then
      Grouping(if g.open.Some? then Put(g.groups, g.open.value, g.lines) else g.groups,
               Some(HeaderName(line)), [])
    else Grouping(g.groups, g.open, g.lines + [line])
  }

  /** The loop run over `raw`, one line after the other, starting from `g`. */
  function GroupFrom(g: Grouping, raw: seq<string>): Grouping
    decreases |raw|
  {
    if raw == [] then g else GroupStep(GroupFrom(g, raw[..|raw| - 1]), raw[|raw| - 1])
  }

  /** The dictionary of section name to section lines, or the error for a text without any
      header line. */
  function GroupLines(raw: seq<string>): Result<Dict<seq<string>>> {
    var g := GroupFrom(Start, raw);
    if g.open.None? then Err(NoSectionHeader) else Ok(Put(g.groups, g.open.value, g.lines))
  }

  predicate NoHeaderIn(raw: seq<string>) {
    forall i :: 0 <= i < |raw| ==> !IsHeaderLine(Strip(raw[i]))
  }

  /** Running the loop over two stretches of lines is running it over their concatenation. */
  lemma {:induction false} GroupFromAppend(g: Grouping, a: seq<string>, b: seq<string>)
    ensures GroupFrom(g, a + b) == GroupFrom(GroupFrom(g, a), b)
    decreases |b|
  {
    if b == [] {
      assert a + b == a;
    } else {
      var b' := b[..|b| - 1];
      assert (a + b)[..|a + b| - 1] == a + b';
      assert (a + b)[|a + b| - 1] == b[|b| - 1];
      GroupFromAppend(g, a, b');
    }
  }

  /** Lines without a header leave the stored groups and the open section alone. */
  lemma {:induction false} NoHeaderKeepsGroups(g: Grouping, raw: seq<string>)
    requires NoHeaderIn(raw)
    ensures GroupFrom(g, raw).groups == g.groups && GroupFrom(g, raw).open == g.open
    decreases |raw|
  {
    if raw != [] {
      NoHeaderKeepsGroups(g, raw[..|raw| - 1]);
    }
  }

  /** Once a header has been seen the loop always has an open section. */
  lemma {:induction false} HeaderOpens(g: Grouping, raw: seq<string>, i: nat)
    requires i < |raw| && IsHeaderLine(Strip(raw[i]))
    ensures GroupFrom(g, raw).open.Some?
    decreases |raw|
  {
    if i < |raw| - 1 {
      HeaderOpens(g, raw[..|raw| - 1], i);
    }
  }

  /** `ValueError` exactly when no line of the text is a section header. */
  lemma NoSectionHeaderIff(raw: seq<string>)
    ensures GroupLines(raw) == Err(NoSectionHeader) <==> NoHeaderIn(raw)
    ensures GroupLines(raw).Err? ==> GroupLines(raw) == Err(NoSectionHeader)
  {
    if NoHeaderIn(raw) {
      NoHeaderKeepsGroups(Start, raw);
    } else {
      var i :| 0 <= i < |raw| && IsHeaderLine(Strip(raw[i]));
      HeaderOpens(Start, raw, i);
    }
  }

  /** A line that strips to nothing changes nothing, wherever it stands. */
  lemma BlankLineIgnored(g: Grouping, a: seq<string>, blank: string, b: seq<string>)
    requires Strip(blank) == ""
    ensures GroupFrom(g, a + [blank] + b) == GroupFrom(g, a + b)
  {
    GroupFromAppend(g, a + [blank], b);
    GroupFromAppend(g, a, b);
    assert (a + [blank])[..|a + [blank]| - 1] == a;
  }

  /** The lines in front of the first header belong to no section and are dropped. */
  lemma LinesBeforeFirstHeaderDropped(pre: seq<string>, header: string, rest: seq<string>)
    requires NoHeaderIn(pre) && IsHeaderLine(Strip(header))
    ensures GroupLines(pre + [header] + rest) == GroupLines([header] + rest)
  {
    NoHeaderKeepsGroups(Start, pre);
    GroupFromAppend(Start, pre + [header], rest);
    GroupFromAppend(Start, [header], rest);
    assert (pre + [header])[..|pre + [header]| - 1] == pre;
    assert [header][..0] == [];
  }

  lemma GroupFromSnoc(g: Grouping, raw: seq<string>, line: string)
    ensures GroupFrom(g, raw + [line]) == GroupStep(GroupFrom(g, raw), line)
  {
    assert (raw + [line])[..|raw|] == raw;
  }

  /** The loop over four lines is four passes of its body. */
  lemma GroupFromFour(raw: seq<string>)
    requires |raw| == 4
    ensures GroupFrom(Start, raw) == GroupStep(GroupStep(GroupStep(GroupStep(Start, raw[0]), raw[1]), raw[2]), raw[3])
  {
    var r1, r2, r3 := raw[..1], raw[..2], raw[..3];
    assert r3[..2] == r2 && r2[..1] == r1 && r1[..0] == [];
    assert GroupFrom(Start, r1) == GroupStep(Start, raw[0]);
    assert GroupFrom(Start, r2) == GroupStep(GroupFrom(Start, r1), raw[1]);
    assert GroupFrom(Start, r3) == GroupStep(GroupFrom(Start, r2), raw[2]);
  }

  /** A section header seen twice: the second group of lines replaces the first. */
  lemma RepeatedHeaderReplaces(header: string, first: string, second: string)
    requires IsHeaderLine(Strip(header))
    requires Strip(first) != "" && !IsHeaderLine(Strip(first))
    requires Strip(second) != "" && !IsHeaderLine(Strip(second))
    ensures GroupLines([header, first, header, second]) == Ok([(HeaderName(Strip(header)), [Strip(second)])])
  {
    var name := HeaderName(Strip(header));
    var raw := [header, first, header, second];
    GroupFromFour(raw);
    var g2 := GroupStep(GroupStep(Start, header), first);
    HeaderThenLine(Start, header, first);
    HeaderThenLine(g2, header, second);
    PutOverOne(name, [Strip(first)], [Strip(second)]);
  }

  /** A header and one content line: the open section is stored, and the new one holds
      that line. */
  lemma HeaderThenLine(g: Grouping, header: string, line: string)
    requires IsHeaderLine(Strip(header))
    requires Strip(line) != "" && !IsHeaderLine(Strip(line))
    ensures GroupStep(GroupStep(g, header), line)
            == Grouping(if g.open.Some? then Put(g.groups, g.open.value, g.lines) else g.groups,
                        Some(HeaderName(Strip(header))), [Strip(line)])
  {
    StepHeader(g, header);
    StepContent(GroupStep(g, header), line);
    assert [] + [Strip(line)] == [Strip(line)];
  }

  /** Storing under the only key of a one-entry dictionary replaces its value. */
  lemma PutOverOne<V>(key: string, v: V, w: V)
    ensures Put([(key, v)], key, w) == [(key, w)]
  {
    assert [(key, v)][1..] == [];
  }

  /** A header line closes the open section, if any, and opens its own. */
  lemma StepHeader(g: Grouping, raw: string)
    requires IsHeaderLine(Strip(raw))
    ensures GroupStep(g, raw)
            == Grouping(if g.open.Some? then Put(g.groups, g.open.value, g.lines) else g.groups,
                        Some(HeaderName(Strip(raw))), [])
  {
    assert Strip(raw) != "";
  }

  /** A content line is collected, stripped, into the open section. */
  lemma StepContent(g: Grouping, raw: string)
    requires Strip(raw) != "" && !IsHeaderLine(Strip(raw))
    ensures GroupStep(g, raw) == Grouping(g.groups, g.open, g.lines + [Strip(raw)])
  {
  }

  /** Every line kept in a group is stripped, non-blank and not a header. */
  predicate ContentLine(line: string) {
    line != "" && Strip(line) == line && !IsHeaderLine(line)
  }

  predicate AllContent(lines: seq<string>) {
    forall j :: 0 <= j < |lines| ==> ContentLine(lines[j])
  }

  predicate GroupsContent(d: Dict<seq<string>>) {
    forall k :: 0 <= k < |d| ==> AllContent(d[k].1)
  }

  predicate GroupingClean(g: Grouping) {
    AllContent(g.lines) && GroupsContent(g.groups)
  }

  lemma StripStripped(s: string)
    ensures Strip(Strip(s)) == Strip(s)
  {
    StripUnpadded(Strip(s));
  }

  lemma {:induction false} PutClean(d: Dict<seq<string>>, key: string, lines: seq<string>)
    requires GroupsContent(d) && AllContent(lines)
    ensures GroupsContent(Put(d, key, lines))
  {
    if d != [] && d[0].0 != key {
      assert forall k :: 0 < k < |d| ==> d[1..][k - 1] == d[k];
      PutClean(d[1..], key, lines);
      assert Put(d, key, lines) == [d[0]] + Put(d[1..], key, lines);
    }
  }

  lemma GroupStepClean(g: Grouping, raw: string)
    requires GroupingClean(g)
    ensures GroupingClean(GroupStep(g, raw))
  {
    var line := Strip(raw);
    StripStripped(raw);
    if line != "" && IsHeaderLine(line) {
      if g.open.Some? {
        PutClean(g.groups, g.open.value, g.lines);
      }
    } else if line != "" {
      assert ContentLine(line);
    }
  }

  lemma {:induction false} GroupFromClean(raw: seq<string>)
    ensures GroupingClean(GroupFrom(Start, raw))
    decreases |raw|
  {
    if raw != [] {
      GroupFromClean(raw[..|raw| - 1]);
      GroupStepClean(GroupFrom(Start, raw[..|raw| - 1]), raw[|raw| - 1]);
    }
  }

  /** The grouped lines are the stripped, non-blank, non-header lines of the text. */
  lemma GroupedLinesAreContent(raw: seq<string>)
    ensures GroupLines(raw).Ok? ==> GroupsContent(GroupLines(raw).value)
  {
    GroupFromClean(raw);
    var g := GroupFrom(Start, raw);
    if g.open.Some? {
      PutClean(g.groups, g.open.value, g.lines);
    }
  }

  /** The reading loop of lines 317-343. */
  method ReadGroups(raw: seq<string>) returns (r: Result<Dict<seq<string>>>)
    ensures r == GroupLines(raw)
  {
    var samplesheetDict: Dict<seq<string>> := [];
    var sectionName: Option<string> := None;
    var sectionLines: seq<string> := [];
    for i := 0 to |raw|
      invariant GroupFrom(Start, raw[..i]) == Grouping(samplesheetDict, sectionName, sectionLines)
    {
      assert raw[..i + 1][..i] == raw[..i];
      var line := Strip(raw[i]);
      if line != "" {
        if StartsWith(line, "[") && EndsWith(line, "]") {
          if sectionName.Some? {
            samplesheetDict := Put(samplesheetDict, sectionName.value, sectionLines);
          }
          sectionName := Some(RStripChars(LStripChars(line, {'['}), {']'}));
          sectionLines := [];
        } else {
          sectionLines := sectionLines + [line];
        }
      }
    }
    assert raw[..|raw|] == raw;
    if sectionName.Some? {
      samplesheetDict := Put(samplesheetDict, sectionName.value, sectionLines);
      return Ok(samplesheetDict);
    } else {
      return Err(NoSectionHeader);
    }
  }

  // ---------------------------------------------------------------------------------------
  // Sanitising: snake-case names, `_data` sections as records, the rest as key/value pairs
  // ---------------------------------------------------------------------------------------

  /** `list(map(pascal_case_to_snake_case, xs))` */
  function SnakeAll(xs: seq<string>): (r: seq<string>)
    ensures |r| == |xs| && forall j :: 0 <= j < |xs| ==> r[j] == PascalToSnake(xs[j])
  {
    seq(|xs|, j requires 0 <= j < |xs| => PascalToSnake(xs[j]))
  }

  /** The cell of column `j` in a row of `cells`: padded with `None` past the row's end. */
  function Cell(cells: seq<string>, j: nat): (v: Value)
    ensures j < |cells| ==> v == VStr(cells[j])
    ensures j >= |cells| ==> v == VNone
  {
    if j < |cells| then VStr(cells[j]) else VNone
  }

  /** One record of `to_dict(orient="records")`: the columns in order, a repeated column name
      keeping its first position and its last value. */
  function RecordOf(columns: seq<string>, cells: seq<string>): Dict<Value>
    decreases |columns|
  {
    if columns == [] then []
    else
      var n := |columns| - 1;
      Put(RecordOf(columns[..n], cells), columns[n], Cell(cells, n))
  }

  predicate Distinct(xs: seq<string>) {
    forall i, j :: 0 <= i < j < |xs| ==> xs[i] != xs[j]
  }

  /** With distinct column names a record has exactly the columns as keys, each holding its
      own cell. */
  lemma {:induction false} RecordOfDistinct(columns: seq<string>, cells: seq<string>)
    requires Distinct(columns)
    ensures Keys(RecordOf(columns, cells)) == columns
    ensures forall j :: 0 <= j < |columns| ==> Get(RecordOf(columns, cells), columns[j]) == Some(Cell(cells, j))
    decreases |columns|
  {
    if columns != [] {
      var n := |columns| - 1;
      var prefix := columns[..n];
      RecordOfDistinct(prefix, cells);
      var before := RecordOf(prefix, cells);
      assert columns[n] !in Keys(before);
      assert columns == prefix + [columns[n]];
      forall j | 0 <= j < |columns|
        ensures Get(RecordOf(columns, cells), columns[j]) == Some(Cell(cells, j))
      {
        GetPut(before, columns[n], Cell(cells, n), columns[j]);
        if j < n {
          assert prefix[j] == columns[j];
        }
      }
    }
  }

  /** The number of cells of the widest row. */
  function Width(rows: seq<seq<string>>): (w: nat)
    ensures forall i :: 0 <= i < |rows| ==> |rows[i]| <= w
    ensures rows != [] ==> exists i :: 0 <= i < |rows| && |rows[i]| == w
    ensures rows == [] ==> w == 0
  {
    if rows == [] then 0
    else
      var rest := Width(rows[1..]);
      assert forall i :: 1 <= i < |rows| ==> rows[i] == rows[1..][i - 1];
      if |rows[0]| >= rest then |rows[0]| else rest
  }

  /** The data lines of a `_data` section split at commas. */
  function CellRows(dataLines: seq<string>): (rows: seq<seq<string>>)
    ensures |rows| == |dataLines| && forall i :: 0 <= i < |dataLines| ==> rows[i] == Split(dataLines[i], ',')
  {
    seq(|dataLines|, i requires 0 <= i < |dataLines| => Split(dataLines[i], ','))
  }

  /** `pd.DataFrame(columns=columns, data=rows).to_dict(orient="records")`: pandas pads the
      short rows with `None` and refuses the table unless its widest row has as many cells as
      there are columns. */
  function Records(columns: seq<string>, dataLines: seq<string>): (r: Result<seq<Value>>)
    ensures r.Err? ==> r.error == RaggedRow
    ensures r.Ok? ==> |r.value| == |dataLines|
  {
    var rows := CellRows(dataLines);
    if rows != [] && Width(rows) != |columns| then Err(RaggedRow)
    else Ok(seq(|rows|, i requires 0 <= i < |rows| => VDict(RecordOf(columns, rows[i]))))
  }

  /** The table is refused exactly when some row is longer than the header, or every row is
      shorter. */
  lemma RecordsRefused(columns: seq<string>, dataLines: seq<string>)
    ensures Records(columns, dataLines).Err? <==>
      (exists i :: 0 <= i < |dataLines| && |Split(dataLines[i], ',')| > |columns|) ||
      (dataLines != [] && forall i :: 0 <= i < |dataLines| ==> |Split(dataLines[i], ',')| < |columns|)
  {
    var rows := CellRows(dataLines);
    if rows != [] {
      var w := Width(rows);
      var i :| 0 <= i < |rows| && |rows[i]| == w;
      assert |Split(dataLines[i], ',')| == w;
    }
  }

  /** Each accepted row becomes the record of its cells under the (distinct) columns. */
  lemma RecordsContents(columns: seq<string>, dataLines: seq<string>, i: nat, j: nat)
    requires Distinct(columns) && Records(columns, dataLines).Ok?
    requires i < |dataLines| && j < |columns|
    ensures Records(columns, dataLines).value[i].VDict?
    ensures Keys(Records(columns, dataLines).value[i].entries) == columns
    ensures Get(Records(columns, dataLines).value[i].entries, columns[j]) == Some(Cell(Split(dataLines[i], ','), j))
  {
    RecordOfDistinct(columns, Split(dataLines[i], ','));
  }

  /** The dict comprehension `{snake(line.split(",")[0]): line.split(",")[1] for line in lines}`
      continued from `acc`. */
  function KeyValuesFrom(acc: Dict<Value>, lines: seq<string>): Result<Dict<Value>>
    decreases |lines|
  {
    if lines == [] then Ok(acc)
    else
      var parts := Split(lines[0], ',');
      if |parts| < 2 then Err(IndexOutOfRange)
      else KeyValuesFrom(Put(acc, PascalToSnake(parts[0]), VStr(parts[1])), lines[1..])
  }

  function KeyValues(lines: seq<string>): Result<Dict<Value>> {
    KeyValuesFrom([], lines)
  }

  predicate StrValues(d: Dict<Value>) {
    forall k :: 0 <= k < |d| ==> d[k].1.VStr?
  }

  lemma {:induction false} PutStrValues(d: Dict<Value>, key: string, s: string)
    requires StrValues(d)
    ensures StrValues(Put(d, key, VStr(s)))
  {
    if d != [] && d[0].0 != key {
      assert forall k :: 0 < k < |d| ==> d[1..][k - 1] == d[k];
      PutStrValues(d[1..], key, s);
      assert Put(d, key, VStr(s)) == [d[0]] + Put(d[1..], key, VStr(s));
    }
  }

  /** The comprehension fails, with an index error, exactly when some line has no comma. */
  lemma {:induction false} KeyValuesFails(acc: Dict<Value>, lines: seq<string>)
    ensures KeyValuesFrom(acc, lines).Ok? <==> forall i :: 0 <= i < |lines| ==> ',' in lines[i]
    ensures KeyValuesFrom(acc, lines).Err? ==> KeyValuesFrom(acc, lines).error == IndexOutOfRange
    decreases |lines|
  {
    if lines != [] {
      var parts := Split(lines[0], ',');
      SplitInTwo(lines[0], ',');
      if |parts| >= 2 {
        KeyValuesFails(Put(acc, PascalToSnake(parts[0]), VStr(parts[1])), lines[1..]);
        assert forall i :: 1 <= i < |lines| ==> lines[1..][i - 1] == lines[i];
      }
    }
  }

  /** A comprehension that succeeds repeats no key and holds only strings. */
  lemma {:induction false} KeyValuesShape(acc: Dict<Value>, lines: seq<string>)
    requires UniqueKeys(acc) && StrValues(acc) && KeyValuesFrom(acc, lines).Ok?
    ensures UniqueKeys(KeyValuesFrom(acc, lines).value) && StrValues(KeyValuesFrom(acc, lines).value)
    decreases |lines|
  {
    if lines != [] {
      var parts := Split(lines[0], ',');
      var key := PascalToSnake(parts[0]);
      PutUnique(acc, key, VStr(parts[1]));
      PutStrValues(acc, key, parts[1]);
      KeyValuesShape(Put(acc, key, VStr(parts[1])), lines[1..]);
    }
  }

  /** A comprehension that succeeds keeps the keys it started from and holds every line's
      converted first field as a key. */
  lemma {:induction false} KeyValuesKeys(acc: Dict<Value>, lines: seq<string>)
    requires KeyValuesFrom(acc, lines).Ok?
    ensures forall k :: k in Keys(acc) ==> k in Keys(KeyValuesFrom(acc, lines).value)
    ensures forall i :: 0 <= i < |lines| ==>
      PascalToSnake(Split(lines[i], ',')[0]) in Keys(KeyValuesFrom(acc, lines).value)
    decreases |lines|
  {
    if lines != [] {
      var parts := Split(lines[0], ',');
      var key := PascalToSnake(parts[0]);
      var acc' := Put(acc, key, VStr(parts[1]));
      KeyValuesKeys(acc', lines[1..]);
      assert forall i :: 1 <= i < |lines| ==> lines[1..][i - 1] == lines[i];
      assert key in Keys(acc');
    }
  }

  /** The payload of one section: a `_data` section becomes a list of records under its
      first line's columns, any other a dict of its `key,value` lines. */
  function SanitiseSection(name: string, lines: seq<string>): (r: Result<(string, Value)>)
    ensures r.Ok? ==> r.value.0 == PascalToSnake(name)
  {
    var sname := PascalToSnake(name);
    if EndsWith(sname, "_data") then
      if lines == [] then Err(IndexOutOfRange)
      else
        var rows :- Records(SnakeAll(Split(lines[0], ',')), lines[1..]);
        Ok((sname, VList(rows)))
    else
      var pairs :- KeyValues(lines);
      Ok((sname, VDict(pairs)))
  }

  /** The shape a sanitised payload has: records for a `_data` name, else a dict of strings. */
  predicate Shaped(name: string, v: Value) {
    if EndsWith(name, "_data") then v.VList? else v.VDict? && UniqueKeys(v.entries) && StrValues(v.entries)
  }

  predicate AllShaped(d: Dict<Value>) {
    forall k :: 0 <= k < |d| ==> Shaped(d[k].0, d[k].1)
  }

  lemma SanitiseSectionShaped(name: string, lines: seq<string>)
    requires SanitiseSection(name, lines).Ok?
    ensures Shaped(SanitiseSection(name, lines).value.0, SanitiseSection(name, lines).value.1)
  {
    if !EndsWith(PascalToSnake(name), "_data") {
      KeyValuesShape([], lines);
    }
  }

  /** The loop of lines 346-375 continued from `acc`: each section put under its snake-case
      name, a later section with the same snake-case name replacing an earlier one. */
  function SanitiseFrom(acc: Dict<Value>, groups: Dict<seq<string>>): Result<Dict<Value>>
    decreases |groups|
  {
    if groups == [] then Ok(acc)
    else
      var e :- SanitiseSection(groups[0].0, groups[0].1);
      SanitiseFrom(Put(acc, e.0, e.1), groups[1..])
  }

  function Sanitise(groups: Dict<seq<string>>): Result<Dict<Value>> {
    SanitiseFrom([], groups)
  }

  lemma {:induction false} PutShaped(d: Dict<Value>, key: string, v: Value)
    requires AllShaped(d) && Shaped(key, v)
    ensures AllShaped(Put(d, key, v))
  {
    if d != [] && d[0].0 != key {
      assert forall k :: 0 < k < |d| ==> d[1..][k - 1] == d[k];
      PutShaped(d[1..], key, v);
      assert Put(d, key, v) == [d[0]] + Put(d[1..], key, v);
    }
  }

  /** Sanitising fails exactly when one of the sections does. */
  lemma {:induction false} SanitiseFromFails(acc: Dict<Value>, groups: Dict<seq<string>>)
    ensures SanitiseFrom(acc, groups).Ok? <==>
      forall i :: 0 <= i < |groups| ==> SanitiseSection(groups[i].0, groups[i].1).Ok?
    decreases |groups|
  {
    if groups != [] {
      var e := SanitiseSection(groups[0].0, groups[0].1);
      assert forall i :: 1 <= i < |groups| ==> groups[1..][i - 1] == groups[i];
      if e.Ok? {
        SanitiseFromFails(Put(acc, e.value.0, e.value.1), groups[1..]);
      }
    }
  }

  /** A successful sanitising yields one entry per snake-case section name, without repeats,
      each of the shape its name calls for. */
  lemma {:induction false} SanitiseFromShaped(acc: Dict<Value>, groups: Dict<seq<string>>)
    requires UniqueKeys(acc) && AllShaped(acc)
    requires SanitiseFrom(acc, groups).Ok?
    ensures var d := SanitiseFrom(acc, groups).value;
      && UniqueKeys(d) && AllShaped(d)
      && (forall k :: k in Keys(acc) ==> k in Keys(d))
      && (forall i :: 0 <= i < |groups| ==> PascalToSnake(groups[i].0) in Keys(d))
    decreases |groups|
  {
    if groups != [] {
      var e := SanitiseSection(groups[0].0, groups[0].1);
      assert forall i :: 1 <= i < |groups| ==> groups[1..][i - 1] == groups[i];
      SanitiseSectionShaped(groups[0].0, groups[0].1);
      var acc' := Put(acc, e.value.0, e.value.1);
      PutUnique(acc, e.value.0, e.value.1);
      PutShaped(acc, e.value.0, e.value.1);
      SanitiseFromShaped(acc', groups[1..]);
      assert e.value.0 in Keys(acc');
    }
  }

  /** The sanitising loop of lines 346-375. */
  method SanitiseSections(groups: Dict<seq<string>>) returns (r: Result<Dict<Value>>)
    ensures r == Sanitise(groups)
  {
    var sanitised: Dict<Value> := [];
    for i := 0 to |groups|
      invariant Sanitise(groups) == SanitiseFrom(sanitised, groups[i..])
    {
      assert groups[i..][0] == groups[i] && groups[i..][1..] == groups[i + 1..];
      var sectionName, sectionLines := groups[i].0, groups[i].1;
      var sanitisedName := PascalCaseToSnakeCase(sectionName);
      var values: Value;
      if EndsWith(sanitisedName, "_data") {
        if sectionLines == [] {
          return Err(IndexOutOfRange);
        }
        var records := Records(SnakeAll(Split(sectionLines[0], ',')), sectionLines[1..]);
        if records.Err? {
          return Err(records.error);
        }
        values := VList(records.value);
      } else {
        var pairs := KeyValues(sectionLines);
        if pairs.Err? {
          return Err(pairs.error);
        }
        values := VDict(pairs.value);
      }
      sanitised := Put(sanitised, sanitisedName, values);
    }
    assert groups[|groups|..] == [];
    return Ok(sanitised);
  }

  // ---------------------------------------------------------------------------------------
  // The two exceptions: `library_prep_kits` as a list, `analysis_urns` collected
  // ---------------------------------------------------------------------------------------

  /** Lines 377-382: `sequencing.library_prep_kits` split at `;` into a list of strings. A
      `sequencing` payload that is not a dict, or kits that are not a string, would make
      the attribute lookups fail. */
  function SplitKits(sd: Dict<Value>): Result<Dict<Value>> {
    if "sequencing" !in Keys(sd) then Ok(sd)
    else
      var sequencing := Field(sd, "sequencing");
      if !sequencing.VDict? then Err(WrongPayloadShape("sequencing"))
      else if "library_prep_kits" !in Keys(sequencing.entries) then Ok(sd)
      else
        var kits := Field(sequencing.entries, "library_prep_kits");
        if !kits.VStr? then Err(WrongPayloadShape("library_prep_kits"))
        else Ok(Put(sd, "sequencing",
                    VDict(Put(sequencing.entries, "library_prep_kits", FromStrings(Split(kits.s, ';'))))))
  }

  /** A section of a sanitised dictionary that is not a `_data` section is a dict of strings. */
  lemma ShapedField(sd: Dict<Value>, name: string)
    requires AllShaped(sd) && name in Keys(sd) && !EndsWith(name, "_data")
    ensures Field(sd, name).VDict? && UniqueKeys(Field(sd, name).entries) && StrValues(Field(sd, name).entries)
  {
    var i :| 0 <= i < |sd| && sd[i] == (name, Field(sd, name));
    assert Shaped(sd[i].0, sd[i].1);
  }

  /** On a sanitised dictionary the split never fails, keeps the section order and changes no
      section but `sequencing`. */
  lemma SplitKitsKeeps(sd: Dict<Value>)
    requires AllShaped(sd)
    ensures SplitKits(sd).Ok?
    ensures Keys(SplitKits(sd).value) == Keys(sd)
    ensures forall k :: k != "sequencing" ==> Get(SplitKits(sd).value, k) == Get(sd, k)
  {
    if "sequencing" in Keys(sd) {
      assert !EndsWith("sequencing", "_data");
      ShapedField(sd, "sequencing");
      var sequencing := Field(sd, "sequencing");
      if "library_prep_kits" in Keys(sequencing.entries) {
        var kits := Field(sequencing.entries, "library_prep_kits");
        var j :| 0 <= j < |sequencing.entries| && sequencing.entries[j] == ("library_prep_kits", kits);
        assert sequencing.entries[j].1.VStr?;
        var entries := Put(sequencing.entries, "library_prep_kits", FromStrings(Split(kits.s, ';')));
        forall k { GetPut(sd, "sequencing", VDict(entries), k); }
      }
    }
  }

  /** The list of kits joins back, with `;`, to the text it was split from. */
  lemma SplitKitsJoins(sd: Dict<Value>)
    requires AllShaped(sd) && "sequencing" in Keys(sd) && Field(sd, "sequencing").VDict?
    requires "library_prep_kits" in Keys(Field(sd, "sequencing").entries)
    ensures SplitKits(sd).Ok?
    ensures var before := Field(Field(sd, "sequencing").entries, "library_prep_kits");
      var after := Field(SplitKits(sd).value, "sequencing");
      && before.VStr? && after.VDict?
      && var kits := Field(after.entries, "library_prep_kits");
         kits.VList? && AllStrings(kits.items) && Join(";", StringsOf(kits.items)) == before.s
  {
    assert !EndsWith("sequencing", "_data");
    ShapedField(sd, "sequencing");
    var sequencing := Field(sd, "sequencing");
    var kits := Field(sequencing.entries, "library_prep_kits");
    var j :| 0 <= j < |sequencing.entries| && sequencing.entries[j] == ("library_prep_kits", kits);
    assert sequencing.entries[j].1.VStr?;
    var parts := Split(kits.s, ';');
    var entries := Put(sequencing.entries, "library_prep_kits", FromStrings(parts));
    GetPut(sd, "sequencing", VDict(entries), "");
    GetPut(sequencing.entries, "library_prep_kits", FromStrings(parts), "");
    StringsOfFromStrings(parts);
    JoinSplit(kits.s, ';');
  }

  lemma {:induction false} StringsOfFromStrings(items: seq<string>)
    ensures AllStrings(FromStrings(items).items) && StringsOf(FromStrings(items).items) == items
  {
    var v := FromStrings(items).items;
    assert AllStrings(v);
    var back := StringsOf(v);
    assert |back| == |items| && forall i :: 0 <= i < |items| ==> back[i] == items[i];
  }

  /** `key.endswith("_pipeline") and value.startswith("urn:")` */
  predicate IsPipelineUrn(key: string, value: Value) {
    EndsWith(key, "_pipeline") && value.VStr? && StartsWith(value.s, "urn:")
  }

  /** The loop of lines 387-389 continued from `acc`; `startswith` on a value that is not a
      string fails. */
  function CollectUrns(acc: Dict<Value>, entries: Dict<Value>): Result<Dict<Value>>
    decreases |entries|
  {
    if entries == [] then Ok(acc)
    else
      var key, value := entries[0].0, entries[0].1;
      if EndsWith(key, "_pipeline") && !value.VStr? then Err(WrongPayloadShape(key))
      else CollectUrns(if IsPipelineUrn(key, value) then Put(acc, key, value) else acc, entries[1..])
  }

  /** Lines 384-391: the `_pipeline` urns of `cloud_settings` gathered under `analysis_urns`. */
  function HoistUrns(sd: Dict<Value>): Result<Dict<Value>> {
    if "cloud_settings" !in Keys(sd) then Ok(sd)
    else
      var cloudSettings := Field(sd, "cloud_settings");
      if !cloudSettings.VDict? then Err(WrongPayloadShape("cloud_settings"))
      else
        var urns :- CollectUrns([], cloudSettings.entries);
        Ok(Put(sd, "cloud_settings", VDict(Put(cloudSettings.entries, "analysis_urns", VDict(urns)))))
  }

  /** Collecting fails exactly when a `_pipeline` key holds something other than a string. */
  lemma {:induction false} CollectUrnsFails(acc: Dict<Value>, entries: Dict<Value>)
    ensures CollectUrns(acc, entries).Ok? <==>
      forall i :: 0 <= i < |entries| && EndsWith(entries[i].0, "_pipeline") ==> entries[i].1.VStr?
    decreases |entries|
  {
    if entries != [] {
      assert forall i :: 1 <= i < |entries| ==> entries[1..][i - 1] == entries[i];
      var key, value := entries[0].0, entries[0].1;
      CollectUrnsFails(if IsPipelineUrn(key, value) then Put(acc, key, value) else acc, entries[1..]);
    }
  }

  /** What is collected: a key holds its settings value when that value is a `_pipeline`
      urn, and otherwise whatever `acc` held. */
  lemma {:induction false} CollectUrnsGet(acc: Dict<Value>, entries: Dict<Value>, k: string)
    requires UniqueKeys(entries) && CollectUrns(acc, entries).Ok?
    ensures Get(CollectUrns(acc, entries).value, k) ==
      if Get(entries, k).Some? && IsPipelineUrn(k, Get(entries, k).value) then Get(entries, k) else Get(acc, k)
    decreases |entries|
  {
    if entries != [] {
      var key, value := entries[0].0, entries[0].1;
      var acc' := if IsPipelineUrn(key, value) then Put(acc, key, value) else acc;
      UniqueTail(entries);
      CollectUrnsGet(acc', entries[1..], k);
      GetPut(acc, key, value, k);
    }
  }

  /** Each `_pipeline` key holding a urn ends up in `analysis_urns` with its value, nothing
      else does, and every other setting is kept as it was. */
  lemma HoistUrnsFacts(sd: Dict<Value>)
    requires "cloud_settings" in Keys(sd) && HoistUrns(sd).Ok?
    requires UniqueKeys(Field(sd, "cloud_settings").entries)
    ensures var before := Field(sd, "cloud_settings").entries;
      var after := Field(HoistUrns(sd).value, "cloud_settings");
      && after.VDict?
      && (forall k :: k != "analysis_urns" ==> Get(after.entries, k) == Get(before, k))
      && Field(after.entries, "analysis_urns").VDict?
      && forall k :: Get(Field(after.entries, "analysis_urns").entries, k) ==
           if Get(before, k).Some? && IsPipelineUrn(k, Get(before, k).value) then Get(before, k) else None
  {
    var before := Field(sd, "cloud_settings").entries;
    var urns := CollectUrns([], before).value;
    var entries := Put(before, "analysis_urns", VDict(urns));
    forall k { GetPut(sd, "cloud_settings", VDict(entries), k); }
    forall k { GetPut(before, "analysis_urns", VDict(urns), k); }
    forall k { CollectUrnsGet([], before, k); }
  }

  /** Hoisting keeps the section order and changes no section but `cloud_settings`. */
  lemma HoistUrnsKeeps(sd: Dict<Value>)
    requires HoistUrns(sd).Ok?
    ensures Keys(HoistUrns(sd).value) == Keys(sd)
    ensures forall k :: k != "cloud_settings" ==> Get(HoistUrns(sd).value, k) == Get(sd, k)
  {
    if "cloud_settings" in Keys(sd) {
      var before := Field(sd, "cloud_settings").entries;
      var urns := CollectUrns([], before).value;
      var entries := Put(before, "analysis_urns", VDict(urns));
      forall k { GetPut(sd, "cloud_settings", VDict(entries), k); }
    }
  }

  /** The urn loop and the assignment of lines 384-391. */
  method HoistCloudUrns(sd: Dict<Value>) returns (r: Result<Dict<Value>>)
    ensures r == HoistUrns(sd)
  {
    if "cloud_settings" !in Keys(sd) {
      return Ok(sd);
    }
    var cloudSettings := Field(sd, "cloud_settings");
    if !cloudSettings.VDict? {
      return Err(WrongPayloadShape("cloud_settings"));
    }
    var entries := cloudSettings.entries;
    var cloudAnalysisUrns: Dict<Value> := [];
    for i := 0 to |entries|
      invariant CollectUrns([], entries) == CollectUrns(cloudAnalysisUrns, entries[i..])
    {
      assert entries[i..][0] == entries[i] && entries[i..][1..] == entries[i + 1..];
      var key, value := entries[i].0, entries[i].1;
      if EndsWith(key, "_pipeline") {
        if !value.VStr? {
          return Err(WrongPayloadShape(key));
        }
        if StartsWith(value.s, "urn:") {
          cloudAnalysisUrns := Put(cloudAnalysisUrns, key, value);
        }
      }
    }
    assert entries[|entries|..] == [];
    var updated := Put(entries, "analysis_urns", VDict(cloudAnalysisUrns));
    return Ok(Put(sd, "cloud_settings", VDict(updated)));
  }

  // ---------------------------------------------------------------------------------------
  // The whole reader
  // ---------------------------------------------------------------------------------------

  /** The sections dictionary `read_from_samplesheet_csv` hands to the constructor. */
  function ReadSections(raw: seq<string>): Result<Dict<Value>> {
    var groups :- GroupLines(raw);
    var sanitised :- Sanitise(groups);
    var split :- SplitKits(sanitised);
    HoistUrns(split)
  }

  /** The two exceptions never fail on sanitised input: reading fails only for a text without
      a header, a `_data` section without lines, a line without a comma or a ragged table. */
  lemma ReadSectionsFails(raw: seq<string>)
    ensures ReadSections(raw).Err? <==>
      GroupLines(raw).Err? || Sanitise(GroupLines(raw).value).Err?
    ensures ReadSections(raw).Err? ==> ReadSections(raw).error in {NoSectionHeader, IndexOutOfRange, RaggedRow}
  {
    NoSectionHeaderIff(raw);
    if GroupLines(raw).Ok? {
      var groups := GroupLines(raw).value;
      if Sanitise(groups).Ok? {
        var sanitised := Sanitise(groups).value;
        SanitiseFromShaped([], groups);
        SplitKitsKeeps(sanitised);
        HoistNeverFails(sanitised, SplitKits(sanitised).value);
      } else {
        SanitiseErrors([], groups);
      }
    }
  }

  lemma HoistNeverFails(sanitised: Dict<Value>, split: Dict<Value>)
    requires AllShaped(sanitised)
    requires forall k :: k != "sequencing" ==> Get(split, k) == Get(sanitised, k)
    requires Keys(split) == Keys(sanitised)
    ensures HoistUrns(split).Ok?
  {
    if "cloud_settings" in Keys(split) {
      assert !EndsWith("cloud_settings", "_data");
      ShapedField(sanitised, "cloud_settings");
      var settings := Field(sanitised, "cloud_settings");
      assert Field(split, "cloud_settings") == settings;
      CollectUrnsFails([], settings.entries);
    }
  }

  lemma {:induction false} SanitiseErrors(acc: Dict<Value>, groups: Dict<seq<string>>)
    ensures SanitiseFrom(acc, groups).Err? ==> SanitiseFrom(acc, groups).error in {IndexOutOfRange, RaggedRow}
    decreases |groups|
  {
    if groups != [] {
      var e := SanitiseSection(groups[0].0, groups[0].1);
      if e.Ok? {
        SanitiseErrors(Put(acc, e.value.0, e.value.1), groups[1..]);
      } else if !EndsWith(PascalToSnake(groups[0].0), "_data") {
        KeyValuesFails([], groups[0].1);
      }
    }
  }

  /** `SampleSheet.read_from_samplesheet_csv`, on the lines of the file. */
  method ReadFromSamplesheetCsv(raw: seq<string>) returns (r: Result<SampleSheet>)
    ensures r.Ok? <==> ReadSections(raw).Ok? && NewSlots(ReadSections(raw).value).Ok?
    ensures r.Err? ==> r.error == if ReadSections(raw).Err? then ReadSections(raw).error
                                  else NewSlots(ReadSections(raw).value).error
    ensures r.Ok? ==> fresh(r.value) && r.value.slots == NewSlots(ReadSections(raw).value).value
                      && r.value.sectionList == SectionList(r.value.slots)
  {
    var groups := ReadGroups(raw);
    if groups.Err? {
      return Err(groups.error);
    }
    var sanitised := SanitiseSections(groups.value);
    if sanitised.Err? {
      return Err(sanitised.error);
    }
    var split := SplitKits(sanitised.value);
    if split.Err? {
      return Err(split.error);
    }
    var hoisted := HoistCloudUrns(split.value);
    if hoisted.Err? {
      return Err(hoisted.error);
    }
    r := SampleSheet.New(hoisted.value);
  }
}
