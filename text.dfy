/** The handful of Python `str` operations the samplesheet code relies on. Stripping knows
    every character Python counts as whitespace; letter case and digits are ASCII only. */
module Text {

  /** Python's `str.isspace()` for one character: the ASCII whitespace and separators, and
      the Unicode spaces. */
  predicate IsSpace(c: char) {
    '\t' <= c <= '\r' || '\U{001C}' <= c <= ' ' || c == '\U{0085}' || c == '\U{00A0}' || c == '\U{1680}'
    || '\U{2000}' <= c <= '\U{200A}' || c == '\U{2028}' || c == '\U{2029}' || c == '\U{202F}'
    || c == '\U{205F}' || c == '\U{3000}'
  }

  /** The characters `str.strip()` removes. */
  const Whitespace: set<char> := set c: char | '\t' <= c <= '\U{3000}' && IsSpace(c)

  predicate IsUpper(c: char) {
    'A' <= c <= 'Z'
  }

  predicate IsDigit(c: char) {
    '0' <= c <= '9'
  }

  predicate AllDigits(s: string) {
    forall i :: 0 <= i < |s| ==> IsDigit(s[i])
  }

  predicate NoUpper(s: string) {
    forall i :: 0 <= i < |s| ==> !IsUpper(s[i])
  }

  /** `c.lower()` for one character. */
  function Lower(c: char): (r: char)
    ensures !IsUpper(r)
    ensures !IsUpper(c) ==> r == c
    ensures IsUpper(c) ==> r as int == c as int + 32
  {
    if IsUpper(c) then (c as int + 32) as char else c
  }

  /** `s.lower()`. */
  function LowerStr(s: string): (r: string)
    ensures |r| == |s|
    ensures forall i :: 0 <= i < |s| ==> r[i] == Lower(s[i])
    ensures NoUpper(r)
  {
    seq(|s|, i requires 0 <= i < |s| => Lower(s[i]))
  }

  /** `c.upper()` for one character; used by `str.title()` on a first letter. */
  function Upper(c: char): (r: char)
    ensures 'a' <= c <= 'z' ==> IsUpper(r) && Lower(r) == c
    ensures !('a' <= c <= 'z') ==> r == c
  {
    if 'a' <= c <= 'z' then (c as int - 32) as char else c
  }

  predicate StartsWith(s: string, prefix: string) {
    |prefix| <= |s| && s[..|prefix|] == prefix
  }

  predicate EndsWith(s: string, suffix: string) {
    |suffix| <= |s| && s[|s| - |suffix|..] == suffix
  }

  /** The end of the run of `chars` that starts at index `i`. */
  function LeadingEnd(s: string, chars: set<char>, i: nat): (n: nat)
    requires i <= |s|
    ensures i <= n <= |s|
    ensures forall k :: i <= k < n ==> s[k] in chars
    ensures n < |s| ==> s[n] !in chars
    decreases |s| - i
  {
    if i < |s| && s[i] in chars then LeadingEnd(s, chars, i + 1) else i
  }

  /** The start of the run of `chars` that ends just before index `j`. */
  function TrailingStart(s: string, chars: set<char>, j: nat): (n: nat)
    requires j <= |s|
    ensures n <= j
    ensures forall k :: n <= k < j ==> s[k] in chars
    ensures n > 0 ==> s[n - 1] !in chars
  {
    if j > 0 && s[j - 1] in chars then TrailingStart(s, chars, j - 1) else j
  }

  /** `s.lstrip(chars)`: Python treats `chars` as a SET of characters, not a prefix. */
  function LStripChars(s: string, chars: set<char>): (r: string)
    ensures |r| <= |s| && r == s[|s| - |r|..]
    ensures r != [] ==> r[0] !in chars
    ensures forall i :: 0 <= i < |s| - |r| ==> s[i] in chars
  {
    s[LeadingEnd(s, chars, 0)..]
  }

  /** `s.rstrip(chars)`: again a set of characters, not a suffix. */
  function RStripChars(s: string, chars: set<char>): (r: string)
    ensures |r| <= |s| && r == s[..|r|]
    ensures r != [] ==> r[|r| - 1] !in chars
    ensures forall i :: |r| <= i < |s| ==> s[i] in chars
  {
    s[..TrailingStart(s, chars, |s|)]
  }

  /** `lstrip` removes exactly the longest prefix drawn from `chars`. */
  lemma LStripCharsIs(s: string, chars: set<char>, n: nat)
    requires n <= |s|
    requires forall k :: 0 <= k < n ==> s[k] in chars
    requires n < |s| ==> s[n] !in chars
    ensures LStripChars(s, chars) == s[n..]
  {
    var m := LeadingEnd(s, chars, 0);
    assert m == n;
  }

  /** `rstrip` removes exactly the longest suffix drawn from `chars`. */
  lemma RStripCharsIs(s: string, chars: set<char>, n: nat)
    requires n <= |s|
    requires forall k :: n <= k < |s| ==> s[k] in chars
    requires n > 0 ==> s[n - 1] !in chars
    ensures RStripChars(s, chars) == s[..n]
  {
    var m := TrailingStart(s, chars, |s|);
    assert m == n;
  }

  /** `s.strip()` */
  function Strip(s: string): (r: string)
    ensures r != [] ==> r[0] !in Whitespace && r[|r| - 1] !in Whitespace
  {
    RStripChars(LStripChars(s, Whitespace), Whitespace)
  }

  /** A string that neither starts nor ends with whitespace is its own `strip()`. */
  lemma StripUnpadded(s: string)
    requires s != [] ==> s[0] !in Whitespace && s[|s| - 1] !in Whitespace
    ensures Strip(s) == s
  {
  }

  /** `strip()` removes a whitespace character at each end, Unicode spaces and the ASCII
      separators `\x1c`-`\x1f` included. */
  lemma {:induction false} StripOnePad(a: char, t: string, b: char)
    requires IsSpace(a) && IsSpace(b) && t != [] && !IsSpace(t[0]) && !IsSpace(t[|t| - 1])
    ensures Strip([a] + t + [b]) == t
  {
    var s := [a] + t + [b];
    LStripCharsIs(s, Whitespace, 1);
    var l := s[1..];
    assert l == t + [b];
    RStripCharsIs(l, Whitespace, |t|);
    assert l[..|t|] == t;
  }

  /** Letters and digits are not whitespace. */
  lemma AlnumNotSpace(c: char)
    requires 'a' <= c <= 'z' || 'A' <= c <= 'Z' || '0' <= c <= '9'
    ensures c !in Whitespace
  {
  }

  /** `pattern` occurs in `s` starting at index `i`. */
  predicate OccursAt(s: string, pattern: string, i: nat) {
    i + |pattern| <= |s| && s[i..i + |pattern|] == pattern
  }

  /** Character-by-character comparison of `s[i + k..i + |pattern|]` with `pattern[k..]`. */
  predicate MatchAt(s: string, i: nat, pattern: string, k: nat)
    requires i + |pattern| <= |s| && k <= |pattern|
    decreases |pattern| - k
  {
    k == |pattern| || (s[i + k] == pattern[k] && MatchAt(s, i, pattern, k + 1))
  }

  lemma {:induction false} MatchAtIsSliceEquality(s: string, i: nat, pattern: string, k: nat)
    requires i + |pattern| <= |s| && k <= |pattern|
    ensures MatchAt(s, i, pattern, k) <==> s[i + k..i + |pattern|] == pattern[k..]
    decreases |pattern| - k
  {
    if k < |pattern| {
      MatchAtIsSliceEquality(s, i, pattern, k + 1);
      assert s[i + k..i + |pattern|] == [s[i + k]] + s[i + k + 1..i + |pattern|];
      assert pattern[k..] == [pattern[k]] + pattern[k + 1..];
    }
  }

  /** `s.replace(pattern, replacement)`: every non-overlapping occurrence, scanned left to right. */
  function ReplaceAll(s: string, pattern: string, replacement: string): string
    requires |pattern| > 0
  {
    ReplaceFrom(s, 0, pattern, replacement)
  }

  /** The replacement applied to `s[i..]`. */
  function ReplaceFrom(s: string, i: nat, pattern: string, replacement: string): string
    requires |pattern| > 0 && i <= |s|
    decreases |s| - i
  {
    if |s| - i < |pattern| then s[i..]
    else if MatchAt(s, i, pattern, 0) then replacement + ReplaceFrom(s, i + |pattern|, pattern, replacement)
    else [s[i]] + ReplaceFrom(s, i + 1, pattern, replacement)
  }

  /** The same scan, written on the remaining text rather than on a position; the lemmas
      about the replacement are proved on this form. */
  ghost function Replaced(t: string, pattern: string, replacement: string): string
    requires |pattern| > 0
    decreases |t|
  {
    if |t| < |pattern| then t
    else if t[..|pattern|] == pattern then replacement + Replaced(t[|pattern|..], pattern, replacement)
    else [t[0]] + Replaced(t[1..], pattern, replacement)
  }

  lemma {:induction false} ReplaceFromIsReplaced(s: string, i: nat, pattern: string, replacement: string)
    requires |pattern| > 0 && i <= |s|
    ensures ReplaceFrom(s, i, pattern, replacement) == Replaced(s[i..], pattern, replacement)
    decreases |s| - i
  {
    var t := s[i..];
    if |s| - i >= |pattern| {
      MatchAtIsSliceEquality(s, i, pattern, 0);
      assert t[..|pattern|] == s[i..i + |pattern|];
      if MatchAt(s, i, pattern, 0) {
        var j := i + |pattern|;
        ReplaceFromIsReplaced(s, j, pattern, replacement);
        assert t[|pattern|..] == s[j..];
        assert Replaced(t, pattern, replacement) == replacement + Replaced(s[j..], pattern, replacement);
        assert ReplaceFrom(s, i, pattern, replacement) == replacement + ReplaceFrom(s, j, pattern, replacement);
      } else {
        var j := i + 1;
        ReplaceFromIsReplaced(s, j, pattern, replacement);
        assert t[1..] == s[j..] && t[0] == s[i];
        assert Replaced(t, pattern, replacement) == [s[i]] + Replaced(s[j..], pattern, replacement);
        assert ReplaceFrom(s, i, pattern, replacement) == [s[i]] + ReplaceFrom(s, j, pattern, replacement);
      }
    } else {
      assert ReplaceFrom(s, i, pattern, replacement) == t;
      assert Replaced(t, pattern, replacement) == t;
    }
  }

  lemma ReplaceAllIsReplaced(s: string, pattern: string, replacement: string)
    requires |pattern| > 0
    ensures ReplaceAll(s, pattern, replacement) == Replaced(s, pattern, replacement)
  {
    ReplaceFromIsReplaced(s, 0, pattern, replacement);
    assert s[0..] == s;
  }

  lemma {:induction false} ReplacedFacts(t: string, pattern: string, replacement: string)
    requires |pattern| > 0
    ensures (forall i :: 0 <= i <= |t| ==> !OccursAt(t, pattern, i)) ==> Replaced(t, pattern, replacement) == t
    ensures forall c :: c in Replaced(t, pattern, replacement) ==> c in t || c in replacement
    decreases |t|
  {
    if |t| >= |pattern| {
      if t[..|pattern|] == pattern {
        ReplacedFacts(t[|pattern|..], pattern, replacement);
        assert OccursAt(t, pattern, 0);
        assert forall c :: c in t[|pattern|..] ==> c in t;
      } else {
        var u := t[1..];
        ReplacedFacts(u, pattern, replacement);
        forall i | 0 <= i <= |u| && OccursAt(u, pattern, i)
          ensures OccursAt(t, pattern, i + 1)
        {
          assert u[i..i + |pattern|] == t[i + 1..i + 1 + |pattern|];
        }
        assert t == [t[0]] + u;
        assert forall c :: c in u ==> c in t;
      }
    }
  }

  /** Where the pattern does not occur, the replacement changes nothing, and every character
      of the result comes from the input or from the replacement text. */
  lemma ReplaceAllFacts(s: string, pattern: string, replacement: string)
    requires |pattern| > 0
    ensures (forall i :: 0 <= i <= |s| ==> !OccursAt(s, pattern, i)) ==> ReplaceAll(s, pattern, replacement) == s
    ensures forall c :: c in ReplaceAll(s, pattern, replacement) ==> c in s || c in replacement
  {
    ReplaceAllIsReplaced(s, pattern, replacement);
    ReplacedFacts(s, pattern, replacement);
  }

  /** A text opening with the pattern: the replacement, then the rest. */
  lemma ReplacedHit(pattern: string, b: string, replacement: string)
    requires |pattern| > 0
    ensures Replaced(pattern + b, pattern, replacement) == replacement + Replaced(b, pattern, replacement)
  {
    var t := pattern + b;
    assert t[..|pattern|] == pattern;
    assert t[|pattern|..] == b;
  }

  lemma ReplaceHit(pattern: string, b: string, replacement: string)
    requires |pattern| > 0
    ensures ReplaceAll(pattern + b, pattern, replacement) == replacement + ReplaceAll(b, pattern, replacement)
  {
    ReplacedHit(pattern, b, replacement);
    ReplaceAllIsReplaced(pattern + b, pattern, replacement);
    ReplaceAllIsReplaced(b, pattern, replacement);
  }

  /** A string not opening with the pattern keeps its first character. */
  lemma ReplaceSkip(s: string, pattern: string, replacement: string)
    requires |pattern| > 0 && s != [] && (|pattern| <= |s| ==> s[..|pattern|] != pattern)
    ensures ReplaceAll(s, pattern, replacement) == [s[0]] + ReplaceAll(s[1..], pattern, replacement)
  {
    ReplaceAllIsReplaced(s, pattern, replacement);
    ReplaceAllIsReplaced(s[1..], pattern, replacement);
  }

  /** The first occurrence of a pattern whose first character `a` lacks is the one after `a`. */
  lemma {:induction false} ReplacedInfix(a: string, pattern: string, b: string, replacement: string)
    requires |pattern| > 0 && pattern[0] !in a
    ensures Replaced(a + pattern + b, pattern, replacement) == a + replacement + Replaced(b, pattern, replacement)
    decreases |a|
  {
    if a == [] {
      assert a + pattern + b == pattern + b;
      ReplacedHit(pattern, b, replacement);
    } else {
      var a', rest, x := a[1..], a[1..] + pattern + b, Replaced(b, pattern, replacement);
      assert a[0] != pattern[0] by {
        assert a[0] in a;
      }
      assert pattern[0] !in a' by {
        assert forall c :: c in a' ==> c in a;
      }
      ReplacedInfix(a', pattern, b, replacement);
      ReplacedMiss(a[0], rest, pattern, replacement);
      assert a + pattern + b == [a[0]] + rest;
      assert [a[0]] + (a' + replacement + x) == a + replacement + x;
    }
  }

  /** A string opening with a character other than the pattern's first one keeps that character. */
  lemma ReplacedMiss(c: char, t: string, pattern: string, replacement: string)
    requires |pattern| > 0 && c != pattern[0]
    ensures Replaced([c] + t, pattern, replacement) == [c] + Replaced(t, pattern, replacement)
  {
    var u := [c] + t;
    assert u[1..] == t;
    if |u| >= |pattern| {
      assert u[..|pattern|][0] == c;
    }
  }

  lemma ReplaceInfix(a: string, pattern: string, b: string, replacement: string)
    requires |pattern| > 0 && pattern[0] !in a
    ensures ReplaceAll(a + pattern + b, pattern, replacement) == a + replacement + ReplaceAll(b, pattern, replacement)
  {
    ReplacedInfix(a, pattern, b, replacement);
    ReplaceAllIsReplaced(a + pattern + b, pattern, replacement);
    ReplaceAllIsReplaced(b, pattern, replacement);
  }

  /** A pattern that occurs only at the very end of `a + pattern` is replaced once, there. */
  lemma ReplaceSuffix(a: string, pattern: string, replacement: string)
    requires |pattern| > 0 && pattern[0] !in a
    ensures ReplaceAll(a + pattern, pattern, replacement) == a + replacement
  {
    ReplaceInfix(a, pattern, [], replacement);
    assert a + pattern + [] == a + pattern;
    assert ReplaceAll([], pattern, replacement) == [];
  }

  /** A pattern holding a character that `s` lacks does not occur in `s`. */
  lemma ReplaceAbsent(s: string, pattern: string, replacement: string, c: char)
    requires |pattern| > 0 && c in pattern && c !in s
    ensures ReplaceAll(s, pattern, replacement) == s
  {
    forall i | 0 <= i <= |s|
      ensures !OccursAt(s, pattern, i)
    {
      if i + |pattern| <= |s| {
        var k :| 0 <= k < |pattern| && pattern[k] == c;
        assert s[i..i + |pattern|][k] == s[i + k];
        assert s[i + k] in s;
      }
    }
    ReplaceAllFacts(s, pattern, replacement);
  }

  /** A pattern that occurs once, right after a prefix lacking its first character, and
      nowhere in the rest: that one occurrence is replaced. */
  lemma ReplaceOnce(a: string, pattern: string, b: string, replacement: string, c: char)
    requires |pattern| > 0 && pattern[0] !in a && c in pattern && c !in b
    ensures ReplaceAll(a + pattern + b, pattern, replacement) == a + replacement + b
  {
    ReplaceInfix(a, pattern, b, replacement);
    ReplaceAbsent(b, pattern, replacement, c);
  }

  /** The same, for a pattern that opens the string. */
  lemma ReplacePrefix(pattern: string, b: string, replacement: string, c: char)
    requires |pattern| > 0 && c in pattern && c !in b
    ensures ReplaceAll(pattern + b, pattern, replacement) == replacement + b
  {
    ReplaceHit(pattern, b, replacement);
    ReplaceAbsent(b, pattern, replacement, c);
  }

  /** `sep.join(parts)` */
  function Join(sep: string, parts: seq<string>): string {
    if |parts| == 0 then ""
    else if |parts| == 1 then parts[0]
    else parts[0] + sep + Join(sep, parts[1..])
  }

  /** The joins of one, two and three parts written out. */
  lemma JoinShort(sep: string, parts: seq<string>)
    ensures |parts| == 1 ==> Join(sep, parts) == parts[0]
    ensures |parts| == 2 ==> Join(sep, parts) == parts[0] + sep + parts[1]
    ensures |parts| == 3 ==> Join(sep, parts) == parts[0] + sep + parts[1] + sep + parts[2]
  {
    if |parts| == 3 {
      assert parts[1..][1..] == [parts[2]];
    }
  }

  /** `s.split(sep)` for a one-character separator: never empty, empty pieces kept. */
  function Split(s: string, sep: char): (r: seq<string>)
    ensures |r| >= 1
    ensures forall i :: 0 <= i < |r| ==> sep !in r[i]
  {
    if s == [] then [""]
    else if s[0] == sep then [""] + Split(s[1..], sep)
    else
      var rest := Split(s[1..], sep);
      [[s[0]] + rest[0]] + rest[1..]
  }

  /** Joining the pieces of a split with the separator gives the string back. */
  lemma {:induction false} JoinSplit(s: string, sep: char)
    ensures Join([sep], Split(s, sep)) == s
  {
    if s == [] {
    } else if s[0] == sep {
      var rest := Split(s[1..], sep);
      JoinSplit(s[1..], sep);
      var parts := [""] + rest;
      assert parts[1..] == rest;
      assert Join([sep], parts) == "" + [sep] + s[1..];
      assert s == [sep] + s[1..];
    } else {
      var rest := Split(s[1..], sep);
      JoinSplit(s[1..], sep);
      var parts := [[s[0]] + rest[0]] + rest[1..];
      assert s == [s[0]] + s[1..];
      if |rest| == 1 {
        assert parts == [[s[0]] + rest[0]];
      } else {
        assert parts[1..] == rest[1..];
        assert Join([sep], parts) == [s[0]] + rest[0] + [sep] + Join([sep], rest[1..]);
        assert Join([sep], rest) == rest[0] + [sep] + Join([sep], rest[1..]);
      }
    }
  }

  /** Splitting a string with no separator in it gives the string alone. */
  lemma {:induction false} SplitWithout(s: string, sep: char)
    requires sep !in s
    ensures Split(s, sep) == [s]
  {
    if s != [] {
      SplitWithout(s[1..], sep);
      assert s == [s[0]] + s[1..];
    }
  }

  /** A split gives at least two pieces exactly when the separator occurs. */
  lemma {:induction false} SplitInTwo(s: string, sep: char)
    ensures |Split(s, sep)| >= 2 <==> sep in s
  {
    if sep !in s {
      SplitWithout(s, sep);
    } else if s[0] != sep {
      assert sep in s[1..];
      SplitInTwo(s[1..], sep);
    }
  }

  /** A split at a separator that starts the rest of the string. */
  lemma {:induction false} SplitPrefix(a: string, b: string, sep: char)
    requires sep !in a
    ensures Split(a + [sep] + b, sep) == [a] + Split(b, sep)
  {
    if a == [] {
      assert ([sep] + b)[1..] == b;
    } else {
      SplitPrefix(a[1..], b, sep);
      assert (a + [sep] + b)[1..] == a[1..] + [sep] + b;
      assert [a[0]] + a[1..] == a;
    }
  }

  /** A trailing separator adds one empty piece. */
  lemma {:induction false} SplitAppendSep(s: string, sep: char)
    ensures Split(s + [sep], sep) == Split(s, sep) + [""]
  {
    if s == [] {
      assert Split([sep], sep) == [""] + Split([], sep);
    } else {
      SplitAppendSep(s[1..], sep);
      assert (s + [sep])[1..] == s[1..] + [sep];
    }
  }

  /** Splitting the join of separator-free pieces gives the pieces back. */
  lemma {:induction false} SplitJoin(parts: seq<string>, sep: char)
    requires |parts| >= 1
    requires forall i :: 0 <= i < |parts| ==> sep !in parts[i]
    ensures Split(Join([sep], parts), sep) == parts
  {
    if |parts| == 1 {
      SplitWithout(parts[0], sep);
    } else {
      var tail := parts[1..];
      assert forall i :: 0 <= i < |tail| ==> sep !in tail[i] by {
        forall i | 0 <= i < |tail| ensures sep !in tail[i] {
          assert tail[i] == parts[i + 1];
        }
      }
      SplitJoin(tail, sep);
      SplitPrefix(parts[0], Join([sep], tail), sep);
      assert Join([sep], parts) == parts[0] + [sep] + Join([sep], tail);
      assert parts == [parts[0]] + tail;
    }
  }

  // ---------------------------------------------------------------------------
  // Decimal integers: `str(i)` and the integer literals pydantic accepts for an int field

  function DigitValue(c: char): nat
    requires IsDigit(c)
  {
    c as int - '0' as int
  }

  function DigitChar(d: nat): (c: char)
    requires d < 10
    ensures IsDigit(c) && DigitValue(c) == d
  {
    ('0' as int + d) as char
  }

  /** The value of a string of decimal digits (the empty string is 0). */
  function DigitsValue(s: string): nat
    requires AllDigits(s)
  {
    if s == [] then 0 else 10 * DigitsValue(s[..|s| - 1]) + DigitValue(s[|s| - 1])
  }

  /** `str(n)` for a natural number: digits only, no leading zero, and it reads back as `n`. */
  function NatToString(n: nat): (r: string)
    ensures |r| > 0 && AllDigits(r)
    ensures r[0] == '0' ==> r == "0"
    ensures DigitsValue(r) == n
  {
    if n < 10 then [DigitChar(n)]
    else
      var prefix := NatToString(n / 10);
      assert (prefix + [DigitChar(n % 10)])[..|prefix|] == prefix;
      prefix + [DigitChar(n % 10)]
  }

  /** `str(i)` */
  function IntToString(i: int): string {
    if i < 0 then "-" + NatToString(-i) else NatToString(i)
  }

  /** A string pydantic's lax mode turns into an int: an optional sign and at least one digit. */
  predicate IsIntLiteral(s: string) {
    (|s| > 0 && AllDigits(s)) || (|s| > 1 && (s[0] == '+' || s[0] == '-') && AllDigits(s[1..]))
  }

  function ParseIntLiteral(s: string): int
    requires IsIntLiteral(s)
  {
    if s[0] == '-' then -(DigitsValue(s[1..]) as int)
    else if s[0] == '+' then DigitsValue(s[1..])
    else DigitsValue(s)
  }

  /** `int(str(i)) == i` */
  lemma IntToStringRoundTrip(i: int)
    ensures IsIntLiteral(IntToString(i))
    ensures ParseIntLiteral(IntToString(i)) == i
  {
    if i < 0 {
      var t := NatToString(-i);
      assert IntToString(i)[1..] == t;
    }
  }

  /** Leading zeros do not change the value of a digit string. */
  lemma {:induction false} DigitsValueLeadingZero(s: string)
    requires AllDigits(s) && s != [] && s[0] == '0'
    ensures DigitsValue(s) == DigitsValue(s[1..])
  {
    if |s| > 1 {
      var init := s[..|s| - 1];
      DigitsValueLeadingZero(init);
      assert init[1..] == s[1..][..|s[1..]| - 1];
    }
  }

  /** A digit string without a leading zero is exactly what `str` prints for its value. */
  lemma {:induction false} NatToStringOfDigits(s: string)
    requires AllDigits(s) && s != [] && s[0] != '0'
    ensures NatToString(DigitsValue(s)) == s
  {
    if |s| > 1 {
      var init := s[..|s| - 1];
      NatToStringOfDigits(init);
      var n := DigitsValue(s);
      var d := DigitValue(s[|s| - 1]);
      assert DigitsValue(init) > 0 by {
        assert NatToString(DigitsValue(init)) == init && init[0] != '0';
        assert NatToString(0) == "0";
      }
      assert n / 10 == DigitsValue(init) && n % 10 == d;
      assert s == init + [s[|s| - 1]];
    }
  }

  /** `str(int(s))` for a digit string: the leading zeros removed, or "0" when nothing else is left. */
  lemma {:induction false} StrOfIntDropsLeadingZeros(s: string)
    requires AllDigits(s) && s != []
    ensures var t := LStripChars(s, {'0'});
            NatToString(DigitsValue(s)) == if t == [] then "0" else t
  {
    if s[0] == '0' {
      DigitsValueLeadingZero(s);
      var t := LStripChars(s[1..], {'0'});
      var n := |s| - |t|;
      assert forall k :: 1 <= k < n ==> s[k] == s[1..][k - 1];
      LStripCharsIs(s, {'0'}, n);
      assert s[n..] == t;
      if |s| > 1 {
        StrOfIntDropsLeadingZeros(s[1..]);
      }
    } else {
      NatToStringOfDigits(s);
    }
  }

  /** A float literal as pydantic's lax mode reads one: an optional sign, digits, an optional
      fractional part, at least one digit in all. */
  predicate IsFloatLiteral(s: string) {
    var body := if |s| > 0 && (s[0] == '+' || s[0] == '-') then s[1..] else s;
    exists k :: 0 <= k <= |body| && IsFloatBody(body, k)
  }

  /** `body[..k]` is the integral part; `body[k..]` is empty or "." followed by digits. */
  predicate IsFloatBody(body: string, k: nat)
    requires k <= |body|
  {
    && AllDigits(body[..k])
    && (k == |body| || (body[k] == '.' && AllDigits(body[k + 1..])))
    && |body| - (if k < |body| then 1 else 0) > 0
  }
  // ---------------------------------------------------------------------------
  // Floats whose fractional part is zero, in the text `repr` gives them

  /** `s[i..n]` is all digits. */
  predicate DigitsBetween(s: string, i: nat, n: nat)
    requires i <= n <= |s|
  {
    forall k :: i <= k < n ==> IsDigit(s[k])
  }

  /** `m` with the digits `s[i..n]` written after it. */
  function Extend(m: nat, s: string, i: nat, n: nat): (r: nat)
    requires i <= n <= |s| && DigitsBetween(s, i, n)
    decreases n - i
  {
    if n == i then m else 10 * Extend(m, s, i, n - 1) + DigitValue(s[n - 1])
  }

  /** `m` with `z` zeros written after it: `m` times ten to the `z`. */
  function WithZeros(m: nat, z: nat): (r: nat)
    ensures m <= r
  {
    if z == 0 then m else 10 * WithZeros(m, z - 1)
  }

  /** The end of the run of digits that starts at index `i`. */
  function DigitsEnd(s: string, i: nat): (n: nat)
    requires i <= |s|
    ensures i <= n <= |s| && DigitsBetween(s, i, n)
    ensures n < |s| ==> !IsDigit(s[n])
    decreases |s| - i
  {
    if i < |s| && IsDigit(s[i]) then DigitsEnd(s, i + 1) else i
  }

  /** The run of digits from `i` ends exactly where the first non-digit is. */
  lemma {:induction false} DigitsEndIs(s: string, i: nat, n: nat)
    requires i <= n <= |s| && DigitsBetween(s, i, n)
    requires n < |s| ==> !IsDigit(s[n])
    ensures DigitsEnd(s, i) == n
    decreases n - i
  {
    if i < n {
      DigitsEndIs(s, i + 1, n);
    }
  }

  /** `t` without its leading minus sign. */
  function Unsigned(t: string): (r: string)
    ensures |t| > 0 && t[0] == '-' ==> r == t[1..]
    ensures !(|t| > 0 && t[0] == '-') ==> r == t
  {
    if |t| > 0 && t[0] == '-' then t[1..] else t
  }

  /** From index `j` on, `b` is a positive exponent: `e+` and at least one digit. */
  predicate IsPositiveExponent(b: string, j: nat) {
    j + 2 < |b| && b[j] == 'e' && b[j + 1] == '+' && DigitsBetween(b, j + 2, |b|)
  }

  function ExponentValue(b: string, j: nat): nat
    requires IsPositiveExponent(b, j)
  {
    Extend(0, b, j + 2, |b|)
  }

  /** How many of the fraction digits `b[k + 1..j]` an exponent `e` moves before the point. */
  function Shifted(e: nat, k: nat, j: nat): (n: nat)
    requires k < j
    ensures n <= e && n <= j - k - 1
    ensures n == e || n == j - k - 1
  {
    if e < j - k - 1 then e else j - k - 1
  }

  /** `repr(x)` of a float whose fractional part is zero. Python writes such a float positionally
      below 1e16, as `151.0` (`[-]digits.0`), and in scientific notation from there on, as `1e+16`
      or `1.5e+17` (`[-]d[.ddd]e+xx`, no non-zero fraction digit beyond the exponent).
      `inf`, `nan`, a negative exponent and a non-zero fraction are not integral. */
  predicate IsIntegralRepr(t: string) {
    IsIntegralMagnitude(Unsigned(t))
  }

  /** The unsigned part: digits, then a point and fraction digits, an exponent, or both. */
  predicate IsIntegralMagnitude(b: string) {
    var k := DigitsEnd(b, 0);
    && 0 < k < |b|
    && (if b[k] == '.' then IsIntegralPointed(b, k) else IsPositiveExponent(b, k))
  }

  /** After the point at `k`: zeros to the end, or digits and an exponent that covers every
      non-zero one. */
  predicate IsIntegralPointed(b: string, k: nat)
    requires k < |b|
  {
    var j := DigitsEnd(b, k + 1);
    && k + 1 < j
    && (j == |b| ==> forall i :: k + 1 <= i < j ==> b[i] == '0')
    && (j < |b| ==> IsPositiveExponent(b, j)
                    && forall i :: k + 1 + Shifted(ExponentValue(b, j), k, j) <= i < j ==> b[i] == '0')
  }

  /** The integer an integral float repr stands for. */
  function IntegralReprValue(t: string): int
    requires IsIntegralRepr(t)
  {
    var m := MagnitudeValue(Unsigned(t));
    if |t| > 0 && t[0] == '-' then -(m as int) else m
  }

  /** The digits before the point, then as many after it as the exponent moves, then the zeros
      the exponent has left. */
  function MagnitudeValue(b: string): nat
    requires IsIntegralMagnitude(b)
  {
    var k := DigitsEnd(b, 0);
    var whole := Extend(0, b, 0, k);
    if b[k] != '.' then WithZeros(whole, ExponentValue(b, k))
    else
      var j := DigitsEnd(b, k + 1);
      if j == |b| then whole
      else
        var e := ExponentValue(b, j);
        var n := Shifted(e, k, j);
        WithZeros(Extend(whole, b, k + 1, k + 1 + n), e - n)
  }

  /** Reading digits from the start of a string is `DigitsValue` of that prefix. */
  lemma {:induction false} ExtendIsDigitsValue(s: string, n: nat)
    requires n <= |s| && DigitsBetween(s, 0, n)
    ensures AllDigits(s[..n]) && Extend(0, s, 0, n) == DigitsValue(s[..n])
  {
    if n > 0 {
      ExtendIsDigitsValue(s, n - 1);
      assert s[..n][..n - 1] == s[..n - 1];
    }
  }

  /** Positional notation: digits, a point and zeros stand for the digits' value. */
  lemma PositionalMagnitude(w: string, z: string)
    requires |w| > 0 && AllDigits(w) && |z| > 0 && forall i :: 0 <= i < |z| ==> z[i] == '0'
    ensures IsIntegralMagnitude(w + "." + z)
    ensures MagnitudeValue(w + "." + z) == DigitsValue(w)
  {
    var b := w + "." + z;
    DigitsEndIs(b, 0, |w|);
    DigitsEndIs(b, |w| + 1, |b|);
    assert forall i :: |w| + 1 <= i < |b| ==> b[i] == z[i - |w| - 1];
    ExtendIsDigitsValue(b, |w|);
    assert b[..|w|] == w;
  }

  /** Scientific notation with a fraction: the point at `k`, fraction digits up to `j`, and an
      exponent there that covers them, stand for the digits on both sides of the point followed
      by the zeros the exponent has left. */
  lemma ScientificMagnitude(b: string, k: nat, j: nat)
    requires 0 < k && k + 1 < j < |b| && b[k] == '.'
    requires DigitsBetween(b, 0, k) && DigitsBetween(b, k + 1, j) && IsPositiveExponent(b, j)
    requires j - k - 1 <= ExponentValue(b, j)
    ensures IsIntegralMagnitude(b)
    ensures MagnitudeValue(b) == WithZeros(Extend(Extend(0, b, 0, k), b, k + 1, j), ExponentValue(b, j) - (j - k - 1))
  {
    DigitsEndIs(b, 0, k);
    DigitsEndIs(b, k + 1, j);
    assert Shifted(ExponentValue(b, j), k, j) == j - k - 1;
  }

  /** Scientific notation without a fraction: the digits before `k` followed by as many zeros as
      the exponent says. */
  lemma ExponentMagnitude(b: string, k: nat)
    requires 0 < k && IsPositiveExponent(b, k) && DigitsBetween(b, 0, k)
    ensures IsIntegralMagnitude(b)
    ensures MagnitudeValue(b) == WithZeros(Extend(0, b, 0, k), ExponentValue(b, k))
  {
    DigitsEndIs(b, 0, k);
  }

  /** A positional fraction with a non-zero digit is not integral. */
  lemma FractionNotIntegral(w: string, f: string, i: nat)
    requires |w| > 0 && AllDigits(w) && AllDigits(f) && i < |f| && f[i] != '0'
    ensures !IsIntegralMagnitude(w + "." + f)
  {
    var b := w + "." + f;
    DigitsEndIs(b, 0, |w|);
    assert forall k :: |w| + 1 <= k < |b| ==> b[k] == f[k - |w| - 1];
    DigitsEndIs(b, |w| + 1, |b|);
    assert b[|w| + 1 + i] == f[i];
  }

  /** A negative exponent is never integral in this notation. */
  lemma NegativeExponentNotIntegral(w: string, x: string)
    requires |w| > 0 && AllDigits(w)
    ensures !IsIntegralMagnitude(w + "e-" + x)
  {
    DigitsEndIs(w + "e-" + x, 0, |w|);
  }

  /** Text that does not open with a digit, such as `inf` or `nan`, is not integral. */
  lemma NoDigitNotIntegral(b: string)
    requires b == [] || !IsDigit(b[0])
    ensures !IsIntegralMagnitude(b)
  {
    DigitsEndIs(b, 0, 0);
  }

  /** A minus sign negates the value of the magnitude after it. */
  lemma NegatedRepr(b: string)
    requires IsIntegralMagnitude(b)
    ensures IsIntegralRepr("-" + b) && IntegralReprValue("-" + b) == -(MagnitudeValue(b) as int)
    ensures IsIntegralRepr(b) && IntegralReprValue(b) == MagnitudeValue(b)
  {
    assert ("-" + b)[1..] == b;
    assert b[0] != '-' by {
      assert DigitsEnd(b, 0) > 0;
    }
  }

  /** Every integer printed as a float, `str(i) + ".0"`, is an integral repr standing for `i`. */
  lemma IntegralReprOfInt(i: int)
    ensures IsIntegralRepr(IntToString(i) + ".0")
    ensures IntegralReprValue(IntToString(i) + ".0") == i
  {
    var d := NatToString(if i < 0 then -i else i);
    PositionalMagnitude(d, "0");
    NegatedRepr(d + "." + "0");
    if i < 0 {
      assert IntToString(i) + ".0" == "-" + (d + "." + "0");
    } else {
      assert IntToString(i) + ".0" == d + "." + "0";
    }
  }
}
