/** The two name stylings that map between the samplesheet's external keys (PascalCase,
    `Upper_Snake`) and the models' snake_case field names. */
module CaseConversion {
  import opened Wrappers
  import opened Text

  /** The acronym rewrites done before the underscores are deleted. */
  function PreReplaced(s: string): string {
    ReplaceAll(
      ReplaceAll(
        ReplaceAll(
          ReplaceAll(
            ReplaceAll(s, "UMI", "Umi"),
            "ID", "Id"),
          "BCLConvert", "Bclconvert"),
        "TSO500L", "Tso500l"),
      "TSO500", "Tso500")
  }

  /** `s` with every occurrence of `c` deleted. */
  function Remove(s: string, c: char): string {
    RemoveFrom(s, 0, c)
  }

  /** `s[i..]` with every occurrence of `c` deleted. */
  function RemoveFrom(s: string, i: nat, c: char): string
    requires i <= |s|
    decreases |s| - i
  {
    if i == |s| then [] else (if s[i] == c then [] else [s[i]]) + RemoveFrom(s, i + 1, c)
  }

  /** The deletion leaves no `c`, keeps only characters of `s`, and changes nothing when `s`
      has no `c`. */
  lemma {:induction false} RemoveFromFacts(s: string, i: nat, c: char)
    requires i <= |s|
    ensures c !in RemoveFrom(s, i, c)
    ensures forall x :: x in RemoveFrom(s, i, c) ==> x in s[i..]
    ensures c !in s[i..] ==> RemoveFrom(s, i, c) == s[i..]
    decreases |s| - i
  {
    if i < |s| {
      RemoveFromFacts(s, i + 1, c);
      assert s[i..] == [s[i]] + s[i + 1..];
    }
  }

  lemma {:induction false} RemoveFromShift(a: string, b: string, j: nat, c: char)
    requires j <= |b|
    ensures RemoveFrom(a + b, |a| + j, c) == RemoveFrom(b, j, c)
    decreases |b| - j
  {
    if j < |b| {
      RemoveFromShift(a, b, j + 1, c);
    }
  }

  lemma {:induction false} RemoveFromAppend(a: string, b: string, i: nat, c: char)
    requires i <= |a|
    ensures RemoveFrom(a + b, i, c) == RemoveFrom(a, i, c) + Remove(b, c)
    decreases |a| - i
  {
    if i == |a| {
      RemoveFromShift(a, b, 0, c);
    } else {
      var piece := if a[i] == c then [] else [a[i]];
      assert (a + b)[i] == a[i];
      assert RemoveFrom(a + b, i, c) == piece + RemoveFrom(a + b, i + 1, c);
      RemoveFromAppend(a, b, i + 1, c);
      AppendAssoc(piece, RemoveFrom(a, i + 1, c), Remove(b, c));
    }
  }

  lemma AppendAssoc<T>(x: seq<T>, y: seq<T>, z: seq<T>)
    ensures x + (y + z) == (x + y) + z
  {
  }

  lemma RemoveAppend(a: string, b: string, c: char)
    ensures Remove(a + b, c) == Remove(a, c) + Remove(b, c)
  {
    RemoveFromAppend(a, b, 0, c);
  }

  /** Deleting from a string with one more character in front. */
  lemma RemoveCons(x: char, rest: string, c: char)
    ensures Remove([x] + rest, c) == (if x == c then [] else [x]) + Remove(rest, c)
  {
    RemoveFromShift([x], rest, 0, c);
  }

  /** `"".join` over parts whose first part is empty. */
  lemma JoinEmptyHead(rest: seq<string>)
    requires |rest| >= 1
    ensures Join("", [""] + rest) == Join("", rest)
  {
    assert ([""] + rest)[1..] == rest;
  }

  /** `"".join` over parts whose first part gained a character in front. */
  lemma JoinGrowHead(x: char, head: string, tail: seq<string>)
    ensures Join("", [[x] + head] + tail) == [x] + Join("", [head] + tail)
  {
    var parts, rest := [[x] + head] + tail, [head] + tail;
    if tail != [] {
      assert parts[1..] == tail && rest[1..] == tail;
      JoinNoSep(parts);
      JoinNoSep(rest);
      AppendAssoc([x], head, Join("", tail));
    }
  }

  /** `"".join` of two or more parts: the first part, then the join of the others. */
  lemma JoinNoSep(parts: seq<string>)
    requires |parts| > 1
    ensures Join("", parts) == parts[0] + Join("", parts[1..])
  {
    assert parts[0] + "" == parts[0];
  }

  /** `"".join(s.split(c))` deletes every `c`. */
  lemma {:induction false} JoinSplitRemoves(s: string, c: char)
    ensures Join("", Split(s, c)) == Remove(s, c)
  {
    if s != [] {
      var rest := Split(s[1..], c);
      JoinSplitRemoves(s[1..], c);
      RemoveCons(s[0], s[1..], c);
      assert [s[0]] + s[1..] == s;
      if s[0] == c {
        JoinEmptyHead(rest);
      } else {
        assert rest == [rest[0]] + rest[1..];
        JoinGrowHead(s[0], rest[0], rest[1..]);
      }
    }
  }

  /** What the character loop appends for position `i`: `_` before an uppercase letter that
      is not first, then the letter lower-cased. */
  function Piece(c: char, i: nat): string {
    (if IsUpper(c) && i != 0 then "_" else "") + [Lower(c)]
  }

  /** The text the character loop appends for positions `i..` of `t`. */
  function UnderscoredFrom(t: string, i: nat): string
    requires i <= |t|
    decreases |t| - i
  {
    if i == |t| then "" else Piece(t[i], i) + UnderscoredFrom(t, i + 1)
  }

  /** The text the character loop builds from `t`. */
  function Underscored(t: string): string {
    UnderscoredFrom(t, 0)
  }

  /** The rewrites that split a digit off the word before it, done after the loop. */
  function PostReplaced(s: string): string {
    ReplaceAll(
      ReplaceAll(
        ReplaceAll(
          ReplaceAll(
            ReplaceAll(
              ReplaceAll(
                ReplaceAll(
                  ReplaceAll(s, "read1_cycles", "read_1_cycles"),
                  "read2_cycles", "read_2_cycles"),
                "index1_cycles", "index_1_cycles"),
              "index2_cycles", "index_2_cycles"),
            "barcode_mismatches_index1", "barcode_mismatches_index_1"),
          "barcode_mismatches_index2", "barcode_mismatches_index_2"),
        "adapter_read1", "adapter_read_1"),
      "adapter_read2", "adapter_read_2")
  }

  /** `pascal_case_to_snake_case` as a value. */
  function PascalToSnake(s: string): string {
    PostReplaced(Underscored(Remove(PreReplaced(s), '_')))
  }

  /** `pascal_case_to_snake_case`: the replace chain, the underscore deletion, then the loop over
      the characters, then the post-fixes. */
  method PascalCaseToSnakeCase(pascal: string) returns (snake: string)
    ensures snake == PascalToSnake(pascal)
    ensures NoUpper(snake)
  {
    var s := pascal;
    s := ReplaceAll(s, "UMI", "Umi");
    s := ReplaceAll(s, "ID", "Id");
    s := ReplaceAll(s, "BCLConvert", "Bclconvert");
    s := ReplaceAll(s, "TSO500L", "Tso500l");
    s := ReplaceAll(s, "TSO500", "Tso500");
    assert s == PreReplaced(pascal);
    JoinSplitRemoves(s, '_');
    s := Join("", Split(s, '_'));

    var acc := "";
    var i := 0;
    while i < |s|
      invariant 0 <= i <= |s|
      invariant acc + UnderscoredFrom(s, i) == Underscored(s)
    {
      if IsUpper(s[i]) && i != 0 {
        acc := acc + "_";
      }
      acc := acc + [Lower(s[i])];
      i := i + 1;
    }
    assert acc == Underscored(s);

    acc := ReplaceAll(acc, "read1_cycles", "read_1_cycles");
    acc := ReplaceAll(acc, "read2_cycles", "read_2_cycles");
    acc := ReplaceAll(acc, "index1_cycles", "index_1_cycles");
    acc := ReplaceAll(acc, "index2_cycles", "index_2_cycles");
    acc := ReplaceAll(acc, "barcode_mismatches_index1", "barcode_mismatches_index_1");
    acc := ReplaceAll(acc, "barcode_mismatches_index2", "barcode_mismatches_index_2");
    acc := ReplaceAll(acc, "adapter_read1", "adapter_read_1");
    acc := ReplaceAll(acc, "adapter_read2", "adapter_read_2");
    snake := acc;
    PascalToSnakeNoUpper(pascal);
  }

  lemma {:induction false} UnderscoredNoUpper(t: string, i: nat)
    requires i <= |t|
    ensures NoUpper(UnderscoredFrom(t, i))
    decreases |t| - i
  {
    if i < |t| {
      UnderscoredNoUpper(t, i + 1);
      var p := Piece(t[i], i);
      assert NoUpper(p) by {
        assert p == "_" + [Lower(t[i])] || p == [Lower(t[i])];
      }
    }
  }

  /** The loop only lower-cases and inserts underscores: deleting the underscores again gives
      the lower-cased input. */
  lemma {:induction false} UnderscoredIsLowerPlusUnderscores(t: string, i: nat)
    requires i <= |t| && '_' !in t
    ensures Remove(UnderscoredFrom(t, i), '_') == LowerStr(t[i..])
    decreases |t| - i
  {
    if i < |t| {
      UnderscoredIsLowerPlusUnderscores(t, i + 1);
      RemoveAppend(Piece(t[i], i), UnderscoredFrom(t, i + 1), '_');
      assert t[i] in t;
      var low := Lower(t[i]);
      assert low != '_';
      assert Remove([low], '_') == [low] by {
        assert [low][0] == low;
        assert RemoveFrom([low], 1, '_') == [];
      }
      assert Remove(Piece(t[i], i), '_') == [low] by {
        if IsUpper(t[i]) && i != 0 {
          assert Piece(t[i], i) == "_" + [low];
          RemoveAppend("_", [low], '_');
          assert RemoveFrom("_", 1, '_') == [];
          assert Remove("_", '_') == [];
        } else {
          assert Piece(t[i], i) == [low];
        }
      }
      assert t[i..][1..] == t[i + 1..];
    }
  }

  /** A word with no capital after its first character is only lower-cased by the loop. */
  lemma {:induction false} UnderscoredWordFrom(t: string, i: nat)
    requires i <= |t|
    requires forall k :: 1 <= k < |t| ==> !IsUpper(t[k])
    ensures UnderscoredFrom(t, i) == LowerStr(t[i..])
    decreases |t| - i
  {
    if i < |t| {
      UnderscoredWordFrom(t, i + 1);
      assert Piece(t[i], i) == [Lower(t[i])];
      assert LowerStr(t[i..]) == [Lower(t[i])] + LowerStr(t[i + 1..]);
    }
  }

  lemma {:induction false} UnderscoredFromShift(a: string, b: string, j: nat)
    requires 1 <= j <= |b| && a != []
    ensures UnderscoredFrom(a + b, |a| + j) == UnderscoredFrom(b, j)
    decreases |b| - j
  {
    if j < |b| {
      var j' := j + 1;
      UnderscoredFromShift(a, b, j');
      assert (a + b)[|a| + j] == b[j];
      assert Piece(b[j], |a| + j) == Piece(b[j], j);
      assert UnderscoredFrom(a + b, |a| + j) == Piece(b[j], j) + UnderscoredFrom(a + b, |a| + j');
    }
  }

  lemma {:induction false} UnderscoredFromConcat(a: string, b: string, i: nat)
    requires i <= |a|
    ensures UnderscoredFrom(a + b, i) == UnderscoredFrom(a, i) + UnderscoredFrom(a + b, |a|)
    decreases |a| - i
  {
    if i < |a| {
      UnderscoredFromConcat(a, b, i + 1);
    }
  }

  /** The loop treats each character on its own; only the first character of the whole string
      escapes the leading underscore. */
  lemma UnderscoredConcat(a: string, b: string)
    requires a != []
    ensures Underscored(a + b) ==
              Underscored(a) + (if b != [] && IsUpper(b[0]) then "_" else "") + Underscored(b)
  {
    UnderscoredFromConcat(a, b, 0);
    if b == [] {
      assert a + b == a;
    } else {
      var under, low, restB := if IsUpper(b[0]) then "_" else "", [Lower(b[0])], UnderscoredFrom(b, 1);
      if |b| > 1 {
        UnderscoredFromShift(a, b, 1);
      }
      assert (a + b)[|a|] == b[0];
      assert UnderscoredFrom(a + b, |a|) == (under + low) + restB;
      assert Underscored(b) == low + restB;
      AppendAssoc(under, low, restB);
      AppendAssoc(Underscored(a), under, low + restB);
    }
  }

  /** The replacements keep a string free of uppercase when their replacement text is. */
  lemma ReplaceKeepsNoUpper(s: string, pattern: string, replacement: string)
    requires |pattern| > 0 && NoUpper(s) && NoUpper(replacement)
    ensures NoUpper(ReplaceAll(s, pattern, replacement))
  {
    var r := ReplaceAll(s, pattern, replacement);
    ReplaceAllFacts(s, pattern, replacement);
    forall i | 0 <= i < |r|
      ensures !IsUpper(r[i])
    {
      assert r[i] in r;
    }
  }

  /** The output of `pascal_case_to_snake_case` has no uppercase letter. */
  lemma PascalToSnakeNoUpper(s: string)
    ensures NoUpper(PascalToSnake(s))
  {
    UnderscoredNoUpper(Remove(PreReplaced(s), '_'), 0);
    PostReplacedNoUpper(Underscored(Remove(PreReplaced(s), '_')));
  }

  lemma PostReplacedNoUpper(u: string)
    requires NoUpper(u)
    ensures NoUpper(PostReplaced(u))
  {
    var s4 := CycleFixesNoUpper(u);
    IndexFixesNoUpper(s4);
  }

  lemma CycleFixesNoUpper(u: string) returns (s4: string)
    requires NoUpper(u)
    ensures s4 == ReplaceAll(
                    ReplaceAll(
                      ReplaceAll(
                        ReplaceAll(u, "read1_cycles", "read_1_cycles"),
                        "read2_cycles", "read_2_cycles"),
                      "index1_cycles", "index_1_cycles"),
                    "index2_cycles", "index_2_cycles")
    ensures NoUpper(s4)
  {
    var s1 := ReplaceAll(u, "read1_cycles", "read_1_cycles");
    ReplaceKeepsNoUpper(u, "read1_cycles", "read_1_cycles");
    var s2 := ReplaceAll(s1, "read2_cycles", "read_2_cycles");
    ReplaceKeepsNoUpper(s1, "read2_cycles", "read_2_cycles");
    var s3 := ReplaceAll(s2, "index1_cycles", "index_1_cycles");
    ReplaceKeepsNoUpper(s2, "index1_cycles", "index_1_cycles");
    s4 := ReplaceAll(s3, "index2_cycles", "index_2_cycles");
    ReplaceKeepsNoUpper(s3, "index2_cycles", "index_2_cycles");
  }

  lemma IndexFixesNoUpper(s4: string)
    requires NoUpper(s4)
    ensures NoUpper(ReplaceAll(
                      ReplaceAll(
                        ReplaceAll(
                          ReplaceAll(s4, "barcode_mismatches_index1", "barcode_mismatches_index_1"),
                          "barcode_mismatches_index2", "barcode_mismatches_index_2"),
                        "adapter_read1", "adapter_read_1"),
                      "adapter_read2", "adapter_read_2"))
  {
    var s5 := ReplaceAll(s4, "barcode_mismatches_index1", "barcode_mismatches_index_1");
    ReplaceKeepsNoUpper(s4, "barcode_mismatches_index1", "barcode_mismatches_index_1");
    var s6 := ReplaceAll(s5, "barcode_mismatches_index2", "barcode_mismatches_index_2");
    ReplaceKeepsNoUpper(s5, "barcode_mismatches_index2", "barcode_mismatches_index_2");
    var s7 := ReplaceAll(s6, "adapter_read1", "adapter_read_1");
    ReplaceKeepsNoUpper(s6, "adapter_read1", "adapter_read_1");
    ReplaceKeepsNoUpper(s7, "adapter_read2", "adapter_read_2");
  }

  // ---------------------------------------------------------------------------
  // snake_case -> Upper_Snake_Case

  /** `part[0].title() + part[1:]`: an empty part has no `[0]` and raises IndexError. */
  function TitleFirst(part: string): (r: Result<string>)
    ensures r.Err? <==> part == []
    ensures r.Err? ==> r.error == IndexOutOfRange
    ensures r.Ok? ==> |r.value| == |part| && r.value[0] == Upper(part[0]) && r.value[1..] == part[1..]
  {
    if part == [] then Err(IndexOutOfRange) else Ok([Upper(part[0])] + part[1..])
  }

  /** `list(map(TitleFirst, parts))`: the first empty part stops the whole list. */
  function TitleParts(parts: seq<string>): (r: Result<seq<string>>)
    ensures r.Err? <==> HasEmptyPart(parts)
    ensures r.Err? ==> r.error == IndexOutOfRange
    ensures r.Ok? ==> |r.value| == |parts|
    ensures r.Ok? ==> forall i :: 0 <= i < |parts| ==> TitleFirst(parts[i]) == Ok(r.value[i])
  {
    if parts == [] then Ok([])
    else
      var head :- TitleFirst(parts[0]);
      var tail :- TitleParts(parts[1..]);
      assert forall i :: 1 <= i < |parts| ==> parts[i] == parts[1..][i - 1];
      Ok([head] + tail)
  }

  /** The titled parts of `snake_case_to_upper_snake_case`, joined, before the acronym fix. */
  function TitledJoin(s: string): Result<string> {
    var parts :- TitleParts(Split(s, '_'));
    Ok(Join("_", parts))
  }

  /** `snake_case_to_upper_snake_case(s)` */
  function SnakeToUpperSnake(s: string): (r: Result<string>)
    ensures r.Err? <==> TitledJoin(s).Err?
    ensures r.Ok? ==> r.value == ReplaceAll(TitledJoin(s).value, "Tso500l", "TSO500L")
  {
    var joined :- TitledJoin(s);
    Ok(ReplaceAll(joined, "Tso500l", "TSO500L"))
  }

  predicate HasEmptyPart(parts: seq<string>) {
    exists i :: 0 <= i < |parts| && parts[i] == []
  }

  /** A snake_case name with an empty `_`-separated part: the empty string, a leading or
      trailing underscore, or two underscores in a row. */
  predicate HasEmptySnakePart(s: string) {
    s == [] || s[0] == '_' || s[|s| - 1] == '_' || HasDoubleUnderscore(s)
  }

  /** The first piece of a split is empty exactly when the string is empty or starts with `_`. */
  lemma SplitFirstPiece(s: string)
    ensures Split(s, '_')[0] == [] <==> s == [] || s[0] == '_'
  {
    if s != [] && s[0] != '_' {
      assert Split(s, '_')[0] == [s[0]] + Split(s[1..], '_')[0];
    }
  }

  /** A later piece is empty exactly when the string ends in `_` or doubles an underscore. */
  lemma {:induction false} SplitLaterPieces(s: string)
    ensures HasEmptyPart(Split(s, '_')[1..]) <==>
            ((|s| > 0 && s[|s| - 1] == '_') || HasDoubleUnderscore(s))
  {
    if s != [] {
      var t := s[1..];
      SplitLaterPieces(t);
      SplitFirstPiece(t);
      var rest := Split(t, '_');
      if |s| >= 2 {
        DoubleUnderscoreShift(s);
        assert s[|s| - 1] == t[|t| - 1];
      } else {
        assert !HasDoubleUnderscore(s);
        assert !HasDoubleUnderscore(t);
      }
      if s[0] == '_' {
        assert Split(s, '_')[1..] == rest;
        assert HasEmptyPart(rest) <==> rest[0] == [] || HasEmptyPart(rest[1..]) by {
          if HasEmptyPart(rest) {
            var i :| 0 <= i < |rest| && rest[i] == [];
            if i > 0 { assert rest[1..][i - 1] == []; }
          }
          if HasEmptyPart(rest[1..]) {
            var i :| 0 <= i < |rest[1..]| && rest[1..][i] == [];
            assert rest[i + 1] == [];
          }
        }
      } else {
        assert Split(s, '_')[1..] == rest[1..];
      }
    }
  }

  /** `Split(s, '_')` has an empty piece exactly when `s` has an empty snake_case part. */
  lemma SplitHasEmptyPart(s: string)
    ensures HasEmptyPart(Split(s, '_')) <==> HasEmptySnakePart(s)
  {
    var parts := Split(s, '_');
    SplitFirstPiece(s);
    SplitLaterPieces(s);
    if HasEmptyPart(parts) {
      var i :| 0 <= i < |parts| && parts[i] == [];
      if i > 0 { assert parts[1..][i - 1] == []; }
    }
    if HasEmptyPart(parts[1..]) {
      var i :| 0 <= i < |parts[1..]| && parts[1..][i] == [];
      assert parts[i + 1] == [];
    }
  }

  predicate HasDoubleUnderscore(s: string) {
    exists j :: 0 <= j < |s| - 1 && s[j] == '_' && s[j + 1] == '_'
  }

  lemma DoubleUnderscoreShift(s: string)
    requires |s| >= 2
    ensures HasDoubleUnderscore(s) <==> (s[0] == '_' && s[1] == '_') || HasDoubleUnderscore(s[1..])
  {
    var t := s[1..];
    if HasDoubleUnderscore(s) {
      var j :| 0 <= j < |s| - 1 && s[j] == '_' && s[j + 1] == '_';
      if j > 0 {
        assert t[j - 1] == '_' && t[j] == '_';
      }
    }
    if HasDoubleUnderscore(t) {
      var j :| 0 <= j < |t| - 1 && t[j] == '_' && t[j + 1] == '_';
      assert s[j + 1] == '_' && s[j + 2] == '_';
    }
  }

  /** `snake_case_to_upper_snake_case` fails (IndexError) exactly on an empty part. */
  lemma UpperSnakeFailsOnEmptyPart(s: string)
    ensures SnakeToUpperSnake(s).Err? <==> HasEmptySnakePart(s)
    ensures SnakeToUpperSnake(s).Err? ==> SnakeToUpperSnake(s).error == IndexOutOfRange
  {
    SplitHasEmptyPart(s);
  }

  /** Before the acronym fix, the styled name has the same `_`-separated parts as the input,
      each with only its first character upper-cased. */
  lemma TitledJoinKeepsParts(s: string)
    requires TitledJoin(s).Ok?
    ensures var parts := Split(s, '_');
            var styled := Split(TitledJoin(s).value, '_');
            && |styled| == |parts|
            && forall i :: 0 <= i < |parts| ==>
                 |styled[i]| == |parts[i]| > 0 && styled[i][0] == Upper(parts[i][0]) && styled[i][1..] == parts[i][1..]
  {
    var parts := Split(s, '_');
    var titled := TitleParts(parts).value;
    forall i | 0 <= i < |titled| ensures '_' !in titled[i] {
      assert TitleFirst(parts[i]) == Ok(titled[i]);
      assert '_' !in parts[i];
      assert titled[i] == [Upper(parts[i][0])] + parts[i][1..];
      assert Upper(parts[i][0]) != '_';
      assert forall c :: c in parts[i][1..] ==> c in parts[i];
    }
    SplitJoin(titled, '_');
  }
}

/** Stages of the conversions `pascal_case_to_snake_case`'s documentation lists. */
module CaseConversionExamples {
  import opened Wrappers
  import opened Text
  import opened CaseConversion

  /** A word with no capital after its first character: the loop only lower-cases it. */
  lemma LowerWord(u: string, v: string)
    requires forall k :: 1 <= k < |u| ==> !IsUpper(u[k])
    requires LowerStr(u) == v
    ensures Underscored(u) == v
  {
    UnderscoredWordFrom(u, 0);
    assert u[0..] == u;
  }

  /** Two such words, the second opening with a capital: one `_` between them. */
  lemma TwoWords(a: string, b: string, la: string, lb: string)
    requires a != [] && b != [] && IsUpper(b[0])
    requires forall k :: 1 <= k < |a| ==> !IsUpper(a[k])
    requires forall k :: 1 <= k < |b| ==> !IsUpper(b[k])
    requires LowerStr(a) == la && LowerStr(b) == lb
    ensures Underscored(a + b) == la + ("_" + lb)
  {
    LowerWord(a, la);
    LowerWord(b, lb);
    UnderscoredConcat(a, b);
    assert la + "_" + lb == la + ("_" + lb);
  }

  /** A name without `_` loses nothing in the underscore deletion. */
  lemma RemoveAbsent(s: string)
    requires '_' !in s
    ensures Remove(s, '_') == s
  {
    RemoveFromFacts(s, 0, '_');
    assert s[0..] == s;
  }

  /** Two underscore-free words around one `_` lose just that `_`. */
  lemma RemoveJoined(head: string, tail: string)
    requires '_' !in head && '_' !in tail
    ensures Remove(head + ("_" + tail), '_') == head + tail
  {
    RemoveAppend(head, "_" + tail, '_');
    RemoveAppend("_", tail, '_');
    RemoveAbsent(head);
    RemoveAbsent(tail);
  }

  /** Deleting the underscore, then the loop, on two words joined by `_`. */
  lemma TwoWordsJoined(a: string, b: string, la: string, lb: string)
    requires a != [] && b != [] && IsUpper(b[0]) && '_' !in a && '_' !in b
    requires forall k :: 1 <= k < |a| ==> !IsUpper(a[k])
    requires forall k :: 1 <= k < |b| ==> !IsUpper(b[k])
    requires LowerStr(a) == la && LowerStr(b) == lb
    ensures Underscored(Remove(a + ("_" + b), '_')) == la + ("_" + lb)
  {
    RemoveJoined(a, b);
    TwoWords(a, b, la, lb);
  }

  /** A lower-case name without a digit `1` or `2` is left alone by the post-fixes. */
  lemma PostReplacedNoDigit(s: string)
    requires '1' !in s && '2' !in s
    ensures PostReplaced(s) == s
  {
    ReplaceAbsent(s, "read1_cycles", "read_1_cycles", '1');
    ReplaceAbsent(s, "read2_cycles", "read_2_cycles", '2');
    ReplaceAbsent(s, "index1_cycles", "index_1_cycles", '1');
    ReplaceAbsent(s, "index2_cycles", "index_2_cycles", '2');
    ReplaceAbsent(s, "barcode_mismatches_index1", "barcode_mismatches_index_1", '1');
    ReplaceAbsent(s, "barcode_mismatches_index2", "barcode_mismatches_index_2", '2');
    ReplaceAbsent(s, "adapter_read1", "adapter_read_1", '1');
    ReplaceAbsent(s, "adapter_read2", "adapter_read_2", '2');
  }

  /** The first two acronym rewrites leave alone a name with neither `U`/`M` nor `I`/`D`. */
  lemma FirstAcronymsAbsent(s: string, u: char, i: char)
    requires u in "UMI" && i in "ID" && u !in s && i !in s
    ensures ReplaceAll(ReplaceAll(s, "UMI", "Umi"), "ID", "Id") == s
  {
    ReplaceAbsent(s, "UMI", "Umi", u);
    ReplaceAbsent(s, "ID", "Id", i);
  }

  /** The two `TSO500` rewrites leave alone a name without one of `T`, `S`, `O`, `5`, `0`. */
  lemma LongAcronymsAbsent(s: string, t: char)
    requires t in "TSO500" && t !in s
    ensures ReplaceAll(ReplaceAll(s, "TSO500L", "Tso500l"), "TSO500", "Tso500") == s
  {
    assert t in "TSO500L" by {
      assert "TSO500L" == "TSO500" + "L";
    }
    ReplaceAbsent(s, "TSO500L", "Tso500l", t);
    ReplaceAbsent(s, "TSO500", "Tso500", t);
  }

  /** The last three acronym rewrites leave alone a name with none of `B` and `T`/`O`/`5`. */
  lemma LaterAcronymsAbsent(s: string, b: char, t: char)
    requires b in "BCLConvert" && t in "TSO500" && b !in s && t !in s
    ensures ReplaceAll(ReplaceAll(ReplaceAll(s, "BCLConvert", "Bclconvert"), "TSO500L", "Tso500l"), "TSO500", "Tso500") == s
  {
    ReplaceAbsent(s, "BCLConvert", "Bclconvert", b);
    LongAcronymsAbsent(s, t);
  }

  /** The acronym rewrites leave alone a name with none of `U`, `I`/`D`, `B` and `T`/`O`/`5`. */
  lemma PreReplacedAbsent(s: string, u: char, i: char, b: char, t: char)
    requires u in "UMI" && i in "ID" && b in "BCLConvert" && t in "TSO500"
    requires u !in s && i !in s && b !in s && t !in s
    ensures PreReplaced(s) == s
  {
    FirstAcronymsAbsent(s, u, i);
    LaterAcronymsAbsent(s, b, t);
  }

  /** The post-fixes after the first leave alone a name without `2`, `x` and `p`. */
  lemma LaterPostFixesAbsent(s: string)
    requires '2' !in s && 'x' !in s && 'p' !in s
    ensures ReplaceAll(ReplaceAll(ReplaceAll(ReplaceAll(ReplaceAll(ReplaceAll(ReplaceAll(s,
              "read2_cycles", "read_2_cycles"), "index1_cycles", "index_1_cycles"), "index2_cycles", "index_2_cycles"),
              "barcode_mismatches_index1", "barcode_mismatches_index_1"), "barcode_mismatches_index2", "barcode_mismatches_index_2"),
              "adapter_read1", "adapter_read_1"), "adapter_read2", "adapter_read_2") == s
  {
    ReplaceAbsent(s, "read2_cycles", "read_2_cycles", '2');
    ReplaceAbsent(s, "index1_cycles", "index_1_cycles", 'x');
    ReplaceAbsent(s, "index2_cycles", "index_2_cycles", '2');
    ReplaceAbsent(s, "barcode_mismatches_index1", "barcode_mismatches_index_1", 'x');
    ReplaceAbsent(s, "barcode_mismatches_index2", "barcode_mismatches_index_2", '2');
    ReplaceAbsent(s, "adapter_read1", "adapter_read_1", 'p');
    ReplaceAbsent(s, "adapter_read2", "adapter_read_2", '2');
  }

  // TrimUMI -> trim_umi

  /** TrimUMI -> TrimUmi: only the `UMI` rewrite applies. */
  lemma TrimUmiPre(s: string, t: string)
    requires s == "Trim" + "UMI" && t == "Trim" + "Umi"
    ensures PreReplaced(s) == t
  {
    ReplaceSuffix("Trim", "UMI", "Umi");
    ReplaceAbsent(t, "ID", "Id", 'D');
    LaterAcronymsAbsent(t, 'B', 'S');
  }

  /** TrimUmi -> trim_umi: no underscore to delete, then the character loop. */
  lemma TrimUmiUnderscored(t: string, v: string)
    requires t == "Trim" + "Umi" && v == "trim" + ("_" + "umi")
    ensures Underscored(Remove(t, '_')) == v
  {
    RemoveAbsent(t);
    TwoWords("Trim", "Umi", "trim", "umi");
  }

  /** trim_umi has no digit for the post-fixes. */
  lemma TrimUmiPost(v: string)
    requires v == "trim" + ("_" + "umi")
    ensures PostReplaced(v) == v
  {
    PostReplacedNoDigit(v);
  }

  /** TrimUMI and the names of its stages, spelled as the pieces the lemmas above use. */
  lemma TrimUmiSpelling(s: string)
    requires s == "TrimUMI"
    ensures s == "Trim" + "UMI"
    ensures "trim" + ("_" + "umi") == "trim_umi"
  {
  }

  /** TrimUMI -> trim_umi */
  lemma TrimUmiExample(s: string)
    requires s == "TrimUMI"
    ensures PascalToSnake(s) == "trim_umi"
  {
    TrimUmiSpelling(s);
    TrimUmiPre(s, "Trim" + "Umi");
    TrimUmiUnderscored("Trim" + "Umi", "trim" + ("_" + "umi"));
    TrimUmiPost("trim" + ("_" + "umi"));
  }

  // Sample_ID -> sample_id

  /** Sample_ID -> Sample_Id: only the `ID` rewrite applies. */
  lemma SampleIdPre(s: string, t: string)
    requires s == "Sample_" + "ID" && t == "Sample_" + "Id"
    ensures PreReplaced(s) == t
  {
    ReplaceAbsent(s, "UMI", "Umi", 'U');
    ReplaceSuffix("Sample_", "ID", "Id");
    LaterAcronymsAbsent(t, 'B', 'T');
  }

  /** Sample_Id -> SampleId -> sample_id */
  lemma SampleIdUnderscored(t: string, v: string)
    requires t == "Sample" + ("_" + "Id") && v == "sample" + ("_" + "id")
    ensures Underscored(Remove(t, '_')) == v
  {
    TwoWordsJoined("Sample", "Id", "sample", "id");
  }

  /** sample_id has no digit for the post-fixes. */
  lemma SampleIdPost(v: string)
    requires v == "sample" + ("_" + "id")
    ensures PostReplaced(v) == v
  {
    PostReplacedNoDigit(v);
  }

  /** Sample_ID and the names of its stages, spelled as the pieces the lemmas above use. */
  lemma SampleIdSpelling(s: string)
    requires s == "Sample_ID"
    ensures s == "Sample_" + "ID"
    ensures "Sample_" + "Id" == "Sample" + ("_" + "Id")
    ensures "sample" + ("_" + "id") == "sample_id"
  {
  }

  /** Sample_ID -> sample_id */
  lemma SampleIdExample(s: string)
    requires s == "Sample_ID"
    ensures PascalToSnake(s) == "sample_id"
  {
    SampleIdSpelling(s);
    SampleIdPre(s, "Sample_" + "Id");
    SampleIdUnderscored("Sample" + ("_" + "Id"), "sample" + ("_" + "id"));
    SampleIdPost("sample" + ("_" + "id"));
  }

  // Index_ID -> index_id

  /** Index_ID -> Index_Id: only the `ID` rewrite applies; the leading `I` is not followed by `D`. */
  lemma IndexIdPre(s: string, t: string)
    requires s == "I" + ("ndex_" + "ID") && t == "I" + ("ndex_" + "Id")
    ensures PreReplaced(s) == t
  {
    ReplaceAbsent(s, "UMI", "Umi", 'U');
    assert s[..2] == "In";
    ReplaceSkip(s, "ID", "Id");
    ReplaceSuffix("ndex_", "ID", "Id");
    assert s[1..] == "ndex_" + "ID";
    LaterAcronymsAbsent(t, 'B', 'T');
  }

  /** Index_Id -> IndexId -> index_id */
  lemma IndexIdUnderscored(t: string, v: string)
    requires t == "Index" + ("_" + "Id") && v == "index" + ("_" + "id")
    ensures Underscored(Remove(t, '_')) == v
  {
    TwoWordsJoined("Index", "Id", "index", "id");
  }

  /** index_id has no digit for the post-fixes. */
  lemma IndexIdPost(v: string)
    requires v == "index" + ("_" + "id")
    ensures PostReplaced(v) == v
  {
    PostReplacedNoDigit(v);
  }

  /** Index_ID and the names of its stages, spelled as the pieces the lemmas above use. */
  lemma IndexIdSpelling(s: string)
    requires s == "Index_ID"
    ensures s == "I" + ("ndex_" + "ID")
    ensures "I" + ("ndex_" + "Id") == "Index" + ("_" + "Id")
    ensures "index" + ("_" + "id") == "index_id"
  {
  }

  /** Index_ID -> index_id */
  lemma IndexIdExample(s: string)
    requires s == "Index_ID"
    ensures PascalToSnake(s) == "index_id"
  {
    IndexIdSpelling(s);
    IndexIdPre(s, "I" + ("ndex_" + "Id"));
    IndexIdUnderscored("Index" + ("_" + "Id"), "index" + ("_" + "id"));
    IndexIdPost("index" + ("_" + "id"));
  }

  // BCLConvert_Settings -> bclconvert_settings

  /** The characters the rewrites below look for, and which of them the two names lack. */
  lemma BclConvertSettingsChars(s: string, t: string)
    requires s == "BCLConvert" + "_Settings" && t == "Bclconvert" + "_Settings"
    ensures 'U' !in s && 'D' !in s && 'B' !in "_Settings" && '5' !in t
  {
  }

  /** BCLConvert_Settings -> Bclconvert_Settings: only the `BCLConvert` rewrite applies. */
  lemma BclConvertSettingsPre(s: string, t: string)
    requires s == "BCLConvert" + "_Settings" && t == "Bclconvert" + "_Settings"
    ensures PreReplaced(s) == t
  {
    BclConvertSettingsChars(s, t);
    FirstAcronymsAbsent(s, 'U', 'D');
    ReplacePrefix("BCLConvert", "_Settings", "Bclconvert", 'B');
    LongAcronymsAbsent(t, '5');
  }

  /** Bclconvert_Settings -> BclconvertSettings -> bclconvert_settings */
  lemma BclConvertSettingsUnderscored(t: string, v: string)
    requires t == "Bclconvert" + ("_" + "Settings") && v == "bclconvert" + ("_" + "settings")
    ensures Underscored(Remove(t, '_')) == v
  {
    TwoWordsJoined("Bclconvert", "Settings", "bclconvert", "settings");
  }

  /** bclconvert_settings has no digit for the post-fixes. */
  lemma BclConvertSettingsPost(v: string)
    requires v == "bclconvert" + ("_" + "settings")
    ensures PostReplaced(v) == v
  {
    PostReplacedNoDigit(v);
  }

  /** BCLConvert_Settings and the names of its stages, spelled as the pieces the lemmas above use. */
  lemma BclConvertSettingsSpelling(s: string)
    requires s == "BCLConvert_Settings"
    ensures s == "BCLConvert" + "_Settings"
    ensures "_Settings" == "_" + "Settings"
    ensures "bclconvert" + ("_" + "settings") == "bclconvert_settings"
  {
  }

  /** BCLConvert_Settings -> bclconvert_settings */
  lemma BclConvertSettingsExample(s: string)
    requires s == "BCLConvert_Settings"
    ensures PascalToSnake(s) == "bclconvert_settings"
  {
    BclConvertSettingsSpelling(s);
    BclConvertSettingsPre(s, "Bclconvert" + "_Settings");
    BclConvertSettingsUnderscored("Bclconvert" + ("_" + "Settings"), "bclconvert" + ("_" + "settings"));
    BclConvertSettingsPost("bclconvert" + ("_" + "settings"));
  }

  // TSO500L_Settings -> tso500l_settings

  /** The characters the rewrites below look for, and which of them the two names lack. */
  lemma TSO500LSettingsChars(s: string, t: string)
    requires s == "TSO500L" + "_Settings" && t == "Tso500l" + "_Settings"
    ensures 'U' !in s && 'I' !in s && 'B' !in s && 'T' !in "_Settings" && 'O' !in t
  {
  }

  /** TSO500L_Settings -> Tso500l_Settings: the longer acronym is rewritten first, so the
      `TSO500` rewrite finds nothing left. */
  lemma TSO500LSettingsPre(s: string, t: string)
    requires s == "TSO500L" + "_Settings" && t == "Tso500l" + "_Settings"
    ensures PreReplaced(s) == t
  {
    TSO500LSettingsChars(s, t);
    FirstAcronymsAbsent(s, 'U', 'I');
    ReplaceAbsent(s, "BCLConvert", "Bclconvert", 'B');
    ReplacePrefix("TSO500L", "_Settings", "Tso500l", 'T');
    ReplaceAbsent(t, "TSO500", "Tso500", 'O');
  }

  /** Tso500l_Settings -> Tso500lSettings -> tso500l_settings */
  lemma TSO500LSettingsUnderscored(t: string, v: string)
    requires t == "Tso500l" + ("_" + "Settings") && v == "tso500l" + ("_" + "settings")
    ensures Underscored(Remove(t, '_')) == v
  {
    TwoWordsJoined("Tso500l", "Settings", "tso500l", "settings");
  }

  /** tso500l_settings has no digit `1` or `2` for the post-fixes. */
  lemma TSO500LSettingsPost(v: string)
    requires v == "tso500l" + ("_" + "settings")
    ensures PostReplaced(v) == v
  {
    PostReplacedNoDigit(v);
  }

  /** TSO500L_Settings and the names of its stages, spelled as the pieces the lemmas above use. */
  lemma TSO500LSettingsSpelling(s: string)
    requires s == "TSO500L_Settings"
    ensures s == "TSO500L" + "_Settings"
    ensures "_Settings" == "_" + "Settings"
    ensures "tso500l" + ("_" + "settings") == "tso500l_settings"
  {
  }

  /** TSO500L_Settings -> tso500l_settings */
  lemma TSO500LSettingsExample(s: string)
    requires s == "TSO500L_Settings"
    ensures PascalToSnake(s) == "tso500l_settings"
  {
    TSO500LSettingsSpelling(s);
    TSO500LSettingsPre(s, "Tso500l" + "_Settings");
    TSO500LSettingsUnderscored("Tso500l" + ("_" + "Settings"), "tso500l" + ("_" + "settings"));
    TSO500LSettingsPost("tso500l" + ("_" + "settings"));
  }

  // Read1Cycles -> read_1_cycles

  /** Read1Cycles lacks a letter of each acronym, and `_`. */
  lemma Read1CyclesChars(s: string)
    requires s == "Read1" + "Cycles"
    ensures 'U' !in s && 'I' !in s && 'B' !in s && 'T' !in s && '_' !in s
  {
  }

  /** Read1Cycles is left alone by the acronym rewrites and the underscore deletion. */
  lemma Read1CyclesPre(s: string)
    requires s == "Read1" + "Cycles"
    ensures Remove(PreReplaced(s), '_') == s
  {
    Read1CyclesChars(s);
    PreReplacedAbsent(s, 'U', 'I', 'B', 'T');
    RemoveAbsent(s);
  }

  /** Read1Cycles -> read1_cycles: the digit does not open a word, the capital `C` does. */
  lemma Read1CyclesUnderscored(u: string, v: string)
    requires u == "Read1" + "Cycles" && v == "read1" + ("_" + "cycles")
    ensures Underscored(u) == v
  {
    TwoWords("Read1", "Cycles", "read1", "cycles");
  }

  /** read_1_cycles is left alone by the post-fixes after the first. */
  lemma Read1CyclesRest(v: string)
    requires v == "read_1" + "_cycles"
    ensures ReplaceAll(ReplaceAll(ReplaceAll(ReplaceAll(ReplaceAll(ReplaceAll(ReplaceAll(v,
              "read2_cycles", "read_2_cycles"), "index1_cycles", "index_1_cycles"), "index2_cycles", "index_2_cycles"),
              "barcode_mismatches_index1", "barcode_mismatches_index_1"), "barcode_mismatches_index2", "barcode_mismatches_index_2"),
              "adapter_read1", "adapter_read_1"), "adapter_read2", "adapter_read_2") == v
  {
    LaterPostFixesAbsent(v);
  }

  /** read1_cycles -> read_1_cycles: the post-fix for a digit after a word. */
  lemma Read1CyclesPost(u: string, v: string)
    requires u == "read1" + ("_" + "cycles") && v == "read_1" + "_cycles"
    ensures PostReplaced(u) == v
  {
    assert u == "read1_cycles" + [];
    ReplaceHit("read1_cycles", [], "read_1_cycles");
    assert ReplaceAll([], "read1_cycles", "read_1_cycles") == [];
    assert v == "read_1_cycles" + [];
    Read1CyclesRest(v);
  }

  /** Read1Cycles and the names of its stages, spelled as the pieces the lemmas above use. */
  lemma Read1CyclesSpelling(s: string)
    requires s == "Read1Cycles"
    ensures s == "Read1" + "Cycles"
    ensures "read_1" + "_cycles" == "read_1_cycles"
  {
  }

  /** Read1Cycles -> read_1_cycles */
  lemma Read1CyclesExample(s: string)
    requires s == "Read1Cycles"
    ensures PascalToSnake(s) == "read_1_cycles"
  {
    Read1CyclesSpelling(s);
    Read1CyclesPre(s);
    Read1CyclesUnderscored(s, "read1" + ("_" + "cycles"));
    Read1CyclesPost("read1" + ("_" + "cycles"), "read_1" + "_cycles");
  }

  // cloud_tso500l_pipeline -> Cloud_TSO500L_Pipeline

  /** cloud_tso500l_pipeline splits into its three words. */
  lemma CloudPipelineSplit(s: string, parts: seq<string>)
    requires s == "cloud_tso500l_pipeline" && parts == ["cloud", "tso500l", "pipeline"]
    ensures Split(s, '_') == parts
  {
    JoinShort(['_'], parts);
    assert s == Join(['_'], parts);
    SplitJoin(parts, '_');
  }

  /** Each word gets a capital. */
  lemma CloudPipelineTitled(parts: seq<string>, titled: seq<string>)
    requires parts == ["cloud", "tso500l", "pipeline"] && titled == ["Cloud", "Tso500l", "Pipeline"]
    ensures TitleParts(parts) == Ok(titled)
  {
    assert parts[0] != [] && parts[1] != [] && parts[2] != [];
    var r := TitleParts(parts);
    assert r.Ok?;
    assert TitleFirst(parts[0]) == Ok(titled[0]) by {
      assert parts[0] == "cloud" && parts[0][1..] == "loud" && Upper('c') == 'C';
      assert ['C'] + "loud" == titled[0];
    }
    assert TitleFirst(parts[1]) == Ok(titled[1]) by {
      assert parts[1] == "tso500l" && parts[1][1..] == "so500l" && Upper('t') == 'T';
      assert ['T'] + "so500l" == titled[1];
    }
    assert TitleFirst(parts[2]) == Ok(titled[2]) by {
      assert parts[2] == "pipeline" && parts[2][1..] == "ipeline" && Upper('p') == 'P';
      assert ['P'] + "ipeline" == titled[2];
    }
    assert r.value == titled;
  }

  /** The capitalised words joined with `_`. */
  lemma CloudPipelineJoined(titled: seq<string>, joined: string)
    requires titled == ["Cloud", "Tso500l", "Pipeline"] && joined == "Cloud" + "_" + "Tso500l" + "_" + "Pipeline"
    ensures Join("_", titled) == joined
  {
    JoinShort("_", titled);
  }

  /** Cloud_Tso500l_Pipeline -> Cloud_TSO500L_Pipeline: the acronym fix after the join. */
  lemma CloudPipelineFix(joined: string, fixed: string)
    requires joined == "Cloud_" + "Tso500l" + "_Pipeline" && fixed == "Cloud_" + "TSO500L" + "_Pipeline"
    ensures ReplaceAll(joined, "Tso500l", "TSO500L") == fixed
  {
    ReplaceOnce("Cloud_", "Tso500l", "_Pipeline", "TSO500L", 'T');
  }

  /** The joined words, and the fixed name, spelled as the pieces the lemmas above use. */
  lemma CloudPipelineSpelling()
    ensures "Cloud" + "_" + "Tso500l" + "_" + "Pipeline" == "Cloud_" + "Tso500l" + "_Pipeline"
    ensures "Cloud_" + "TSO500L" + "_Pipeline" == "Cloud_TSO500L_Pipeline"
  {
  }

  /** cloud_tso500l_pipeline -> Cloud_TSO500L_Pipeline */
  lemma CloudPipelineExample(s: string)
    requires s == "cloud_tso500l_pipeline"
    ensures SnakeToUpperSnake(s) == Ok("Cloud_TSO500L_Pipeline")
  {
    var parts, titled := ["cloud", "tso500l", "pipeline"], ["Cloud", "Tso500l", "Pipeline"];
    CloudPipelineSplit(s, parts);
    CloudPipelineTitled(parts, titled);
    CloudPipelineJoined(titled, "Cloud" + "_" + "Tso500l" + "_" + "Pipeline");
    CloudPipelineSpelling();
    CloudPipelineFix("Cloud_" + "Tso500l" + "_Pipeline", "Cloud_" + "TSO500L" + "_Pipeline");
  }
}
