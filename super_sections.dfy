/** The section base classes: None-filtering of key/value tables, the two text renderings, and
    the warning for every constructor argument a section did not use. */
module SuperSections {
  import opened Wrappers
  import opened Text
  import opened Dicts
  import opened Values

  // ---------------------------------------------------------------------------
  // KVSection.filter_dict

  /** `dict(filter(lambda kv: kv[1] is not None, d.items()))` */
  function FilterDict(d: Dict<Value>): (r: Dict<Value>)
    ensures |r| <= |d|
  {
    if d == [] then []
    else (if d[0].1 != VNone then [d[0]] else []) + FilterDict(d[1..])
  }

  /** The filtered dict holds exactly the entries whose value is not None. */
  lemma {:induction false} FilterDictMembers(d: Dict<Value>)
    ensures forall e :: e in FilterDict(d) <==> e in d && e.1 != VNone
  {
    if d != [] {
      FilterDictMembers(d[1..]);
      assert d == [d[0]] + d[1..];
    }
  }

  /** Filtering works entry by entry, so it keeps the original order. */
  lemma {:induction false} FilterDictAppend(a: Dict<Value>, b: Dict<Value>)
    ensures FilterDict(a + b) == FilterDict(a) + FilterDict(b)
  {
    if a == [] {
      assert a + b == b;
    } else {
      FilterDictAppend(a[1..], b);
      var ab := a + b;
      assert ab != [] && ab[0] == a[0] && ab[1..] == a[1..] + b;
      var head := if a[0].1 != VNone then [a[0]] else [];
      assert FilterDict(ab) == head + FilterDict(ab[1..]);
      assert FilterDict(a) == head + FilterDict(a[1..]);
      SeqAssoc(head, FilterDict(a[1..]), FilterDict(b));
    }
  }

  lemma SeqAssoc<T>(x: seq<T>, y: seq<T>, z: seq<T>)
    ensures x + (y + z) == (x + y) + z
  {
  }

  /** Filtering twice is filtering once. */
  lemma {:induction false} FilterDictIdempotent(d: Dict<Value>)
    ensures FilterDict(FilterDict(d)) == FilterDict(d)
  {
    if d != [] {
      FilterDictIdempotent(d[1..]);
      var head := if d[0].1 != VNone then [d[0]] else [];
      FilterDictAppend(head, FilterDict(d[1..]));
    }
  }

  /** The kept keys are some of the input's keys, kept unique, each with its own value. */
  lemma FilterDictKeys(d: Dict<Value>, key: string)
    requires UniqueKeys(d)
    ensures key in Keys(FilterDict(d)) ==> key in Keys(d)
    ensures UniqueKeys(FilterDict(d))
    ensures Get(FilterDict(d), key) == if Get(d, key).Some? && Get(d, key).value != VNone then Get(d, key) else None
  {
    var r := FilterDict(d);
    FilterDictMembers(d);
    if key in Keys(r) {
      var i :| 0 <= i < |r| && Keys(r)[i] == key;
      assert r[i] in d;
    }
    FilterUnique(d);
    FilterGet(d, key);
  }

  lemma {:induction false} FilterUnique(d: Dict<Value>)
    requires UniqueKeys(d)
    ensures UniqueKeys(FilterDict(d))
  {
    if d != [] {
      var rest := FilterDict(d[1..]);
      FilterUnique(d[1..]);
      FilterDictMembers(d[1..]);
      if d[0].1 != VNone {
        forall i | 0 <= i < |rest| ensures rest[i].0 != d[0].0 {
          assert rest[i] in d[1..];
          var j :| 0 <= j < |d[1..]| && d[1..][j] == rest[i];
          assert d[j + 1] == rest[i];
        }
        assert FilterDict(d) == [d[0]] + rest;
      }
    }
  }

  lemma {:induction false} FilterGet(d: Dict<Value>, key: string)
    requires UniqueKeys(d)
    ensures Get(FilterDict(d), key) == if Get(d, key).Some? && Get(d, key).value != VNone then Get(d, key) else None
  {
    if d != [] {
      UniqueTail(d);
      FilterGet(d[1..], key);
      GetCons(d[0], d[1..], key);
      assert d == [d[0]] + d[1..];
      var rest := FilterDict(d[1..]);
      if d[0].1 != VNone {
        GetCons(d[0], rest, key);
        assert FilterDict(d) == [d[0]] + rest;
      } else {
        assert FilterDict(d) == rest;
      }
    }
  }

  /** `a` is `b` with some elements left out and the rest in their original order. */
  predicate IsSubsequence<T(==)>(a: seq<T>, b: seq<T>)
    decreases |b|
  {
    a == [] || (b != [] && ((a[0] == b[0] && IsSubsequence(a[1..], b[1..])) || IsSubsequence(a, b[1..])))
  }

  /** A filtered table is a subsequence of the table, its keys a subsequence of the table's keys,
      and each of the table's keys looks up its own value exactly when that value is not None. */
  lemma {:induction false} FilterDictTable(t: Dict<Value>)
    requires UniqueKeys(t)
    ensures IsSubsequence(FilterDict(t), t)
    ensures IsSubsequence(Keys(FilterDict(t)), Keys(t))
    ensures forall i :: 0 <= i < |t| ==>
              Get(FilterDict(t), t[i].0) == if t[i].1.VNone? then None else Some(t[i].1)
  {
    if t != [] {
      UniqueTail(t);
      FilterDictTable(t[1..]);
      var rest := FilterDict(t[1..]);
      KeysCons(t);
      if t[0].1 != VNone {
        assert FilterDict(t) == [t[0]] + rest;
        KeysCons(FilterDict(t));
      } else {
        assert FilterDict(t) == rest;
      }
      forall i | 0 <= i < |t|
        ensures Get(FilterDict(t), t[i].0) == if t[i].1.VNone? then None else Some(t[i].1)
      {
        FilterGet(t, t[i].0);
        assert Get(t, t[i].0) == Some(t[i].1) by {
          GetOfUnique(t, i);
        }
      }
    }
  }

  /** `FilterDictTable` for a table whose key column is a given list of distinct names. */
  lemma FilterDictKeyed(t: Dict<Value>, ks: seq<string>)
    requires Keys(t) == ks
    requires forall i, j :: 0 <= i < j < |ks| ==> ks[i] != ks[j]
    ensures UniqueKeys(t)
    ensures IsSubsequence(Keys(FilterDict(t)), ks)
    ensures forall i :: 0 <= i < |t| ==>
              Get(FilterDict(t), ks[i]) == if t[i].1.VNone? then None else Some(t[i].1)
  {
    assert UniqueKeys(t) by {
      forall i, j | 0 <= i < j < |t| ensures t[i].0 != t[j].0 {
        assert t[i].0 == Keys(t)[i] && t[j].0 == Keys(t)[j];
      }
    }
    FilterDictTable(t);
  }

  // ---------------------------------------------------------------------------
  // KVSection.to_string

  /** `f"{str(k)},{str(v)}"` */
  function KvLine(k: string, v: Value): string {
    k + "," + Str(v)
  }

  function KvLines(d: Dict<Value>): seq<string> {
    seq(|d|, i requires 0 <= i < |d| => KvLine(d[i].0, d[i].1))
  }

  /** One `key,value` line per entry, joined by newlines, with one newline after the last. */
  function KvToString(d: Dict<Value>): (r: string)
    ensures |r| > 0 && r[|r| - 1] == '\n'
    ensures d == [] ==> r == "\n"
  {
    Join("\n", KvLines(d)) + "\n"
  }

  /** Lines joined by newlines and then terminated read back as the same lines: each line comes
      back whole and the final newline leaves one empty piece after them. */
  lemma TerminatedLines(lines: seq<string>)
    requires |lines| >= 1
    requires forall i :: 0 <= i < |lines| ==> '\n' !in lines[i]
    ensures Split(Join("\n", lines) + "\n", '\n') == lines + [""]
  {
    SplitJoin(lines, '\n');
    SplitAppendSep(Join("\n", lines), '\n');
  }

  /** Splitting the rendering at newlines gives back one `key,value` line per entry, in order. */
  lemma KvToStringLines(d: Dict<Value>)
    requires d != []
    requires forall i :: 0 <= i < |d| ==> '\n' !in d[i].0 && '\n' !in Str(d[i].1)
    ensures var lines := Split(KvToString(d), '\n');
            && |lines| == |d| + 1 && lines[|d|] == ""
            && forall i :: 0 <= i < |d| ==> lines[i] == d[i].0 + "," + Str(d[i].1)
  {
    var lines := KvLines(d);
    forall i | 0 <= i < |lines| ensures '\n' !in lines[i] {
      assert lines[i] == d[i].0 + "," + Str(d[i].1);
    }
    TerminatedLines(lines);
  }

  // ---------------------------------------------------------------------------
  // DataFrameSection.to_string, with the frame reduced to its column names and rendered cells

  datatype Table = Table(columns: seq<string>, rows: seq<seq<string>>)

  /** How a frame cell is written: a missing value as the empty string, anything else by `str`. */
  function CellText(v: Value): (r: string)
    ensures v.VNone? ==> r == ""
    ensures !v.VNone? ==> r == Str(v)
  {
    if v.VNone? then "" else Str(v)
  }

  /** Whether the csv writer's minimal quoting quotes a cell: it holds the delimiter `,`, the
      quote character `"` or a line break. */
  predicate NeedsQuotes(c: string) {
    ',' in c || '"' in c || '\n' in c || '\r' in c
  }

  /** The cell with every `"` written twice. */
  function Doubled(c: string): (r: string)
    ensures forall x :: x in r <==> x in c
  {
    if c == [] then []
    else
      assert c == [c[0]] + c[1..];
      (if c[0] == '"' then "\"\"" else [c[0]]) + Doubled(c[1..])
  }

  /** One cell as the writer puts it on a line: between quotes, its own quotes doubled, when it
      needs quoting, and as it is otherwise. Quoting adds no delimiter and no line break. */
  function QuoteField(c: string): (r: string)
    ensures !NeedsQuotes(c) ==> r == c
    ensures NeedsQuotes(c) ==> |r| >= 2 && r[0] == '"' && r[|r| - 1] == '"'
    ensures ',' in r <==> ',' in c
    ensures '\n' in r <==> '\n' in c
  {
    if NeedsQuotes(c) then "\"" + Doubled(c) + "\"" else c
  }

  /** A csv reader's view of one cell: a quoted cell loses its quotes and has its doubled quotes
      halved; any other cell is read as it is. */
  function Unquote(q: string): string {
    if |q| >= 2 && q[0] == '"' && q[|q| - 1] == '"' then Undoubled(q[1..|q| - 1]) else q
  }

  function Undoubled(s: string): string {
    if |s| >= 2 && s[0] == '"' && s[1] == '"' then "\"" + Undoubled(s[2..])
    else if s == [] then []
    else [s[0]] + Undoubled(s[1..])
  }

  lemma {:induction false} UndoubledDoubled(c: string)
    ensures Undoubled(Doubled(c)) == c
  {
    if c != [] {
      UndoubledDoubled(c[1..]);
      if c[0] == '"' {
        assert Doubled(c)[2..] == Doubled(c[1..]);
      } else {
        assert Doubled(c)[1..] == Doubled(c[1..]);
      }
      assert c == [c[0]] + c[1..];
    }
  }

  /** Reading a written cell back gives the cell. */
  lemma UnquoteQuoteField(c: string)
    ensures Unquote(QuoteField(c)) == c
  {
    if NeedsQuotes(c) {
      var q := QuoteField(c);
      assert q[1..|q| - 1] == Doubled(c);
      UndoubledDoubled(c);
    } else if c != [] {
      assert c[0] in c;
    }
  }

  /** One record as the writer lays it out: the cells quoted as needed and joined by `,`. A
      record of a single empty cell is written `""`, so that its line is not blank. */
  function CsvLine(cells: seq<string>): string {
    if cells == [""] then "\"\""
    else Join(",", QuotedCells(cells))
  }

  /** A line reads back as `cells`: it splits at `,` into one piece per cell, and each piece
      unquotes to its cell. */
  predicate ReadsBack(line: string, cells: seq<string>) {
    var pieces := Split(line, ',');
    |pieces| == |cells| && forall j :: 0 <= j < |cells| ==> Unquote(pieces[j]) == cells[j]
  }

  function QuotedCells(cells: seq<string>): (quoted: seq<string>)
    ensures |quoted| == |cells|
    ensures forall j :: 0 <= j < |cells| ==> quoted[j] == QuoteField(cells[j])
  {
    seq(|cells|, j requires 0 <= j < |cells| => QuoteField(cells[j]))
  }

  /** A record whose cells hold no `,` reads back from its line. */
  lemma CsvLineReadsBack(cells: seq<string>)
    requires |cells| >= 1 && forall j :: 0 <= j < |cells| ==> ',' !in cells[j]
    ensures ReadsBack(CsvLine(cells), cells)
  {
    if cells == [""] {
      SplitWithout("\"\"", ',');
    } else {
      var quoted := QuotedCells(cells);
      assert CsvLine(cells) == Join(",", quoted);
      forall j | 0 <= j < |cells| ensures ',' !in quoted[j] && Unquote(quoted[j]) == cells[j] {
        UnquoteQuoteField(cells[j]);
      }
      SplitJoin(quoted, ',');
    }
  }

  /** Quoting adds no line break: a record without one is written on one line. */
  lemma CsvLineOneLine(cells: seq<string>)
    requires forall j :: 0 <= j < |cells| ==> '\n' !in cells[j]
    ensures '\n' !in CsvLine(cells)
  {
    if cells != [""] {
      var quoted := QuotedCells(cells);
      assert CsvLine(cells) == Join(",", quoted);
      NoNewlineInJoin(quoted);
    }
  }

  /** Cells holding the delimiter or a quote are written quoted, their quotes doubled; a plain
      cell is not. */
  lemma CsvLineQuotes()
    ensures CsvLine([",", "\"", "z"]) == "\",\",\"\"\"\",z"
    ensures CsvLine([""]) == "\"\""
  {
    QuoteFieldExamples();
    assert QuotedCells([",", "\"", "z"]) == ["\",\"", "\"\"\"\"", "z"];
    JoinShort(",", ["\",\"", "\"\"\"\"", "z"]);
  }

  lemma QuoteFieldExamples()
    ensures QuoteField(",") == "\",\""
    ensures QuoteField("\"") == "\"\"\"\""
    ensures QuoteField("z") == "z"
  {
    assert ","[0] == ',';
    assert "\""[0] == '"';
  }

  function TableLines(t: Table): (lines: seq<string>)
    ensures |lines| == |t.rows| + 1
  {
    [CsvLine(t.columns)] + seq(|t.rows|, i requires 0 <= i < |t.rows| => CsvLine(t.rows[i]))
  }

  /** `to_csv(sep=",", header=True, index=False, lineterminator="\n")`: a header line of column
      names, then one line per row, each line written by the csv module's minimal quoting and
      ended by a newline. */
  function TableToString(t: Table): (r: string)
    ensures |r| > 0 && r[|r| - 1] == '\n'
  {
    Join("\n", TableLines(t)) + "\n"
  }

  /** With cells free of `,` and line breaks, the rendering splits into the header line and one
      line per row, and each line reads back as its cells. */
  lemma TableToStringCells(t: Table)
    requires |t.columns| >= 1 && forall j :: 0 <= j < |t.columns| ==> ',' !in t.columns[j] && '\n' !in t.columns[j]
    requires forall i :: 0 <= i < |t.rows| ==> |t.rows[i]| >= 1
    requires forall i, j :: 0 <= i < |t.rows| && 0 <= j < |t.rows[i]| ==> ',' !in t.rows[i][j] && '\n' !in t.rows[i][j]
    ensures var lines := Split(TableToString(t), '\n');
            && |lines| == |t.rows| + 2 && lines[|t.rows| + 1] == ""
            && ReadsBack(lines[0], t.columns)
            && forall i :: 0 <= i < |t.rows| ==> ReadsBack(lines[i + 1], t.rows[i])
  {
    var lines := TableLines(t);
    TableLinesRead(t);
    TerminatedLines(lines);
  }

  /** Each line of the table reads back as its cells and holds no line break. */
  lemma TableLinesRead(t: Table)
    requires |t.columns| >= 1 && forall j :: 0 <= j < |t.columns| ==> ',' !in t.columns[j] && '\n' !in t.columns[j]
    requires forall i :: 0 <= i < |t.rows| ==> |t.rows[i]| >= 1
    requires forall i, j :: 0 <= i < |t.rows| && 0 <= j < |t.rows[i]| ==> ',' !in t.rows[i][j] && '\n' !in t.rows[i][j]
    ensures ReadsBack(TableLines(t)[0], t.columns)
    ensures forall i :: 0 <= i < |t.rows| ==> ReadsBack(TableLines(t)[i + 1], t.rows[i])
    ensures forall i :: 0 <= i < |TableLines(t)| ==> '\n' !in TableLines(t)[i]
  {
    var lines := TableLines(t);
    CsvLineReadsBack(t.columns);
    CsvLineOneLine(t.columns);
    forall i | 0 <= i < |t.rows| ensures ReadsBack(lines[i + 1], t.rows[i]) && '\n' !in lines[i + 1] {
      assert lines[i + 1] == CsvLine(t.rows[i]);
      CsvLineReadsBack(t.rows[i]);
      CsvLineOneLine(t.rows[i]);
    }
    forall i | 0 <= i < |lines| ensures '\n' !in lines[i] {
      if i > 0 { assert '\n' !in lines[(i - 1) + 1]; }
    }
  }

  lemma {:induction false} NoNewlineInJoin(parts: seq<string>)
    requires forall j :: 0 <= j < |parts| ==> '\n' !in parts[j]
    ensures '\n' !in Join(",", parts)
  {
    if |parts| > 1 {
      NoNewlineInJoin(parts[1..]);
    }
  }

  // ---------------------------------------------------------------------------
  // Section.log_untouched_options

  function PositionalWarning(arg: Value): string {
    "Postional argument '" + Str(arg) + "' was not used"
  }

  function KeywordWarning(key: string, value: Value): string {
    "Keyword argument '" + key + "=" + Str(value) + "' was not used"
  }

  /** `list(*args)`: no argument gives `[]`, one is iterated, more than one is a TypeError. */
  function ListOfArgs(args: seq<Value>): (r: Result<seq<Value>>)
    ensures args == [] ==> r == Ok([])
    ensures |args| == 1 ==> r == Iterate(args[0])
    ensures |args| > 1 ==> r == Err(NotIterable)
  {
    if args == [] then Ok([]) else if |args| == 1 then Iterate(args[0]) else Err(NotIterable)
  }

  /** The warnings `log_untouched_options` emits, in order: a positional one per element of
      `list(*args)`, then a keyword one per keyword argument. */
  function UnusedWarnings(args: seq<Value>, kwargs: Dict<Value>): Result<seq<string>> {
    var positional :- ListOfArgs(args);
    Ok(seq(|positional|, i requires 0 <= i < |positional| => PositionalWarning(positional[i]))
       + seq(|kwargs|, i requires 0 <= i < |kwargs| => KeywordWarning(kwargs[i].0, kwargs[i].1)))
  }

  /** `Section.log_untouched_options`, returning the warnings it logs. */
  method LogUntouchedOptions(args: seq<Value>, kwargs: Dict<Value>) returns (r: Result<seq<string>>)
    ensures r == UnusedWarnings(args, kwargs)
  {
    var positional := ListOfArgs(args);
    if positional.Err? {
      return Err(positional.error);
    }
    var items := positional.value;
    var warnings: seq<string> := [];
    for i := 0 to |items|
      invariant warnings == seq(i, j requires 0 <= j < i => PositionalWarning(items[j]))
    {
      warnings := warnings + [PositionalWarning(items[i])];
    }
    ghost var prefix := warnings;
    for i := 0 to |kwargs|
      invariant warnings == prefix + seq(i, j requires 0 <= j < i => KeywordWarning(kwargs[j].0, kwargs[j].1))
    {
      warnings := warnings + [KeywordWarning(kwargs[i].0, kwargs[i].1)];
    }
    return Ok(warnings);
  }

  /** Keyword arguments alone never make construction fail: there is exactly one warning per
      unused keyword, naming that keyword, in the order given. */
  lemma KeywordsOnlyWarn(kwargs: Dict<Value>)
    ensures UnusedWarnings([], kwargs).Ok?
    ensures |UnusedWarnings([], kwargs).value| == |kwargs|
    ensures forall i :: 0 <= i < |kwargs| ==>
              UnusedWarnings([], kwargs).value[i] == KeywordWarning(kwargs[i].0, kwargs[i].1)
  {
  }

  /** A single iterable positional argument gives one warning per element, before the keyword
      ones; more than one positional argument fails. */
  lemma PositionalWarnings(args: seq<Value>, kwargs: Dict<Value>)
    ensures UnusedWarnings(args, kwargs).Ok? <==> args == [] || (|args| == 1 && Iterate(args[0]).Ok?)
    ensures UnusedWarnings(args, kwargs).Ok? ==>
              |UnusedWarnings(args, kwargs).value| == |ListOfArgs(args).value| + |kwargs|
  {
  }

  // ---------------------------------------------------------------------------
  // The two section bases

  /** A key/value section: its table stays None until a subclass builds it. */
  class KVSection {
    var sectionDict: Option<Dict<Value>>
    const warnings: seq<string>

    constructor (warnings: seq<string>)
      ensures sectionDict == None && this.warnings == warnings
    {
      sectionDict := None;
      this.warnings := warnings;
    }

    /** `KVSection.__init__(*args, **kwargs)` */
    static method New(args: seq<Value>, kwargs: Dict<Value>) returns (r: Result<KVSection>)
      ensures r.Ok? <==> UnusedWarnings(args, kwargs).Ok?
      ensures r.Err? ==> r.error == UnusedWarnings(args, kwargs).error
      ensures r.Ok? ==> fresh(r.value) && r.value.sectionDict == None
                        && r.value.warnings == UnusedWarnings(args, kwargs).value
    {
      var w := LogUntouchedOptions(args, kwargs);
      if w.Err? {
        return Err(w.error);
      }
      var section := new KVSection(w.value);
      return Ok(section);
    }

    /** `to_string`: reading the table of an unbuilt section is an AttributeError on None. */
    function ToString(): (r: Result<string>)
      reads this
      ensures sectionDict.None? ==> r == Err(NoneAttribute("items"))
      ensures sectionDict.Some? ==> r == Ok(KvToString(sectionDict.value))
    {
      if sectionDict.None? then Err(NoneAttribute("items")) else Ok(KvToString(sectionDict.value))
    }
  }

  /** A tabular section: its frame stays None until a subclass builds it. */
  class DataFrameSection {
    var sectionDf: Option<Table>
    const warnings: seq<string>

    constructor (warnings: seq<string>)
      ensures sectionDf == None && this.warnings == warnings
    {
      sectionDf := None;
      this.warnings := warnings;
    }

    /** `DataFrameSection.__init__(*args, **kwargs)` */
    static method New(args: seq<Value>, kwargs: Dict<Value>) returns (r: Result<DataFrameSection>)
      ensures r.Ok? <==> UnusedWarnings(args, kwargs).Ok?
      ensures r.Err? ==> r.error == UnusedWarnings(args, kwargs).error
      ensures r.Ok? ==> fresh(r.value) && r.value.sectionDf == None
                        && r.value.warnings == UnusedWarnings(args, kwargs).value
    {
      var w := LogUntouchedOptions(args, kwargs);
      if w.Err? {
        return Err(w.error);
      }
      var section := new DataFrameSection(w.value);
      return Ok(section);
    }

    function ToString(): (r: Result<string>)
      reads this
      ensures sectionDf.None? ==> r == Err(NoneAttribute("to_csv"))
      ensures sectionDf.Some? ==> r == Ok(TableToString(sectionDf.value))
    {
      if sectionDf.None? then Err(NoneAttribute("to_csv")) else Ok(TableToString(sectionDf.value))
    }
  }
}
