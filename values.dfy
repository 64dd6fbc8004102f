/** Python/JSON values as the sections receive them, their `str()` rendering, and the
    per-field coercions that stand in for pydantic's lax-mode validation. */
module Values {
  import opened Wrappers
  import opened Text
  import opened Dicts

  /** A Python value as it appears in a section payload (a JSON value, or a cell of the text
      format). A float is kept opaque, as the text of its repr. */
  datatype Value =
    | VNone
    | VBool(b: bool)
    | VInt(i: int)
    | VFloat(text: string)
    | VStr(s: string)
    | VList(items: seq<Value>)
    | VDict(entries: seq<(string, Value)>)

  /** `d.get(key, None)` */
  function Field(d: Dict<Value>, key: string): (v: Value)
    ensures key !in Keys(d) ==> v == VNone
    ensures Get(d, key).Some? ==> v == Get(d, key).value
  {
    match Get(d, key)
    case None => VNone
    case Some(v) => v
  }

  /** In a dict without repeated keys, `get` of the i-th key is the i-th value. */
  lemma FieldOfUnique(d: Dict<Value>, i: nat)
    requires UniqueKeys(d) && i < |d|
    ensures Field(d, d[i].0) == d[i].1
  {
    GetOfUnique(d, i);
  }

  /** `repr(v)`, as `str` of a list or dict prints its elements (string escapes left out). */
  function Repr(v: Value): string
    decreases v, 1
  {
    match v
    case VStr(s) => "'" + s + "'"
    case _ => Str(v)
  }

  /** `str(v)` */
  function Str(v: Value): string
    decreases v, 0
  {
    match v
    case VNone => "None"
    case VBool(b) => if b then "True" else "False"
    case VInt(i) => IntToString(i)
    case VFloat(t) => t
    case VStr(s) => s
    case VList(items) => "[" + ReprItems(v, items) + "]"
    case VDict(entries) => "{" + ReprEntries(v, entries) + "}"
  }

  function ReprItems(parent: Value, items: seq<Value>): string
    requires forall x :: x in items ==> x < parent
    decreases parent, 0, |items|
  {
    if items == [] then ""
    else
      assert items[0] in items;
      if |items| == 1 then Repr(items[0])
      else
        assert forall x :: x in items[1..] ==> x in items;
        Repr(items[0]) + ", " + ReprItems(parent, items[1..])
  }

  function ReprEntries(parent: Value, entries: seq<(string, Value)>): string
    requires forall i :: 0 <= i < |entries| ==> entries[i].1 < parent
    decreases parent, 0, |entries|
  {
    if entries == [] then ""
    else
      var head := "'" + entries[0].0 + "': " + Repr(entries[0].1);
      if |entries| == 1 then head else head + ", " + ReprEntries(parent, entries[1..])
  }

  // ---------------------------------------------------------------------------
  // Field coercions. Each returns the validated value, or SchemaViolation(field).

  /** `Optional[str]`: None, or a string (pydantic does not turn numbers into strings). */
  function OptStr(field: string, v: Value): (r: Result<Option<string>>)
    ensures r.Ok? <==> v.VNone? || v.VStr?
    ensures r.Err? ==> r.error == SchemaViolation(field)
    ensures v.VStr? ==> r == Ok(Some(v.s))
    ensures v.VNone? ==> r == Ok(None)
  {
    match v
    case VNone => Ok(None)
    case VStr(s) => Ok(Some(s))
    case _ => Err(SchemaViolation(field))
  }

  /** `str`: a string is required; None fails. */
  function ReqStr(field: string, v: Value): (r: Result<string>)
    ensures r.Ok? <==> v.VStr?
    ensures r.Ok? ==> r.value == v.s
    ensures r.Err? ==> r.error == SchemaViolation(field)
  {
    if v.VStr? then Ok(v.s) else Err(SchemaViolation(field))
  }

  /** A value pydantic's lax mode accepts for an `int` field: an int, a bool, a float whose
      fractional part is zero, or a string holding an integer literal. */
  predicate IsIntLike(v: Value) {
    v.VInt? || v.VBool? || (v.VFloat? && IsIntegralRepr(v.text)) || (v.VStr? && IsIntLiteral(Strip(v.s)))
  }

  function AsInt(v: Value): int
    requires IsIntLike(v)
  {
    match v
    case VInt(i) => i
    case VBool(b) => if b then 1 else 0
    case VFloat(t) => IntegralReprValue(t)
    case VStr(s) => ParseIntLiteral(Strip(s))
  }

  /** `Optional[int]` */
  function OptInt(field: string, v: Value): (r: Result<Option<int>>)
    ensures r.Ok? <==> v.VNone? || IsIntLike(v)
    ensures r.Err? ==> r.error == SchemaViolation(field)
    ensures v.VInt? ==> r == Ok(Some(v.i))
    ensures v.VNone? ==> r == Ok(None)
  {
    if v.VNone? then Ok(None)
    else if IsIntLike(v) then Ok(Some(AsInt(v)))
    else Err(SchemaViolation(field))
  }

  /** `int`: None fails. */
  function ReqInt(field: string, v: Value): (r: Result<int>)
    ensures r.Ok? <==> IsIntLike(v)
    ensures v.VInt? ==> r == Ok(v.i)
    ensures r.Err? ==> r.error == SchemaViolation(field)
  {
    if IsIntLike(v) then Ok(AsInt(v)) else Err(SchemaViolation(field))
  }

  const TrueStrings: set<string> := {"1", "on", "t", "true", "y", "yes"}
  const FalseStrings: set<string> := {"0", "off", "f", "false", "n", "no"}

  /** A value pydantic's lax mode accepts for a `bool` field. */
  predicate IsBoolLike(v: Value) {
    || v.VBool?
    || (v.VInt? && (v.i == 0 || v.i == 1))
    || (v.VStr? && LowerStr(Strip(v.s)) in TrueStrings + FalseStrings)
  }

  function AsBool(v: Value): bool
    requires IsBoolLike(v)
  {
    match v
    case VBool(b) => b
    case VInt(i) => i == 1
    case VStr(s) => LowerStr(Strip(s)) in TrueStrings
  }

  /** `Optional[bool]` */
  function OptBool(field: string, v: Value): (r: Result<Option<bool>>)
    ensures r.Ok? <==> v.VNone? || IsBoolLike(v)
    ensures v.VBool? ==> r == Ok(Some(v.b))
    ensures v.VNone? ==> r == Ok(None)
    ensures r.Err? ==> r.error == SchemaViolation(field)
  {
    if v.VNone? then Ok(None)
    else if IsBoolLike(v) then Ok(Some(AsBool(v)))
    else Err(SchemaViolation(field))
  }

  /** `bool`: None fails. */
  function ReqBool(field: string, v: Value): (r: Result<bool>)
    ensures r.Ok? <==> IsBoolLike(v)
    ensures v.VBool? ==> r == Ok(v.b)
    ensures r.Err? ==> r.error == SchemaViolation(field)
  {
    if IsBoolLike(v) then Ok(AsBool(v)) else Err(SchemaViolation(field))
  }

  /** A value pydantic's lax mode accepts for a `float` field. */
  predicate IsFloatLike(v: Value) {
    v.VFloat? || v.VInt? || v.VBool? || (v.VStr? && IsFloatLiteral(Strip(v.s)))
  }

  /** The opaque float, as the text of its repr. */
  function AsFloat(v: Value): string
    requires IsFloatLike(v)
  {
    match v
    case VFloat(t) => t
    case VInt(i) => IntToString(i) + ".0"
    case VBool(b) => if b then "1.0" else "0.0"
    case VStr(s) => Strip(s)
  }

  /** `Optional[float]` */
  function OptFloat(field: string, v: Value): (r: Result<Option<string>>)
    ensures r.Ok? <==> v.VNone? || IsFloatLike(v)
    ensures v.VFloat? ==> r == Ok(Some(v.text))
    ensures v.VNone? ==> r == Ok(None)
    ensures r.Err? ==> r.error == SchemaViolation(field)
  {
    if v.VNone? then Ok(None)
    else if IsFloatLike(v) then Ok(Some(AsFloat(v)))
    else Err(SchemaViolation(field))
  }

  predicate AllStrings(items: seq<Value>) {
    forall i :: 0 <= i < |items| ==> items[i].VStr?
  }

  /** The texts of a list of strings. */
  function StringsOf(items: seq<Value>): (r: seq<string>)
    requires AllStrings(items)
    ensures |r| == |items| && forall i :: 0 <= i < |items| ==> VStr(r[i]) == items[i]
  {
    seq(|items|, i requires 0 <= i < |items| => items[i].s)
  }

  /** `Optional[List]`: None, or a list of anything. */
  function OptList(field: string, v: Value): (r: Result<Option<seq<Value>>>)
    ensures r.Ok? <==> v.VNone? || v.VList?
    ensures v.VList? ==> r == Ok(Some(v.items))
    ensures r.Err? ==> r.error == SchemaViolation(field)
  {
    match v
    case VNone => Ok(None)
    case VList(items) => Ok(Some(items))
    case _ => Err(SchemaViolation(field))
  }

  /** `Optional[Dict]` */
  function OptDict(field: string, v: Value): (r: Result<Option<Dict<Value>>>)
    ensures r.Ok? <==> v.VNone? || v.VDict?
    ensures v.VDict? ==> r == Ok(Some(v.entries))
    ensures r.Err? ==> r.error == SchemaViolation(field)
  {
    match v
    case VNone => Ok(None)
    case VDict(e) => Ok(Some(e))
    case _ => Err(SchemaViolation(field))
  }

  /** `list(v)`: a list's items, a string's characters, a dict's keys; anything else is not
      iterable. */
  function Iterate(v: Value): (r: Result<seq<Value>>)
    ensures r.Ok? <==> v.VList? || v.VStr? || v.VDict?
    ensures r.Err? ==> r.error == NotIterable
    ensures v.VList? ==> r == Ok(v.items)
    ensures v.VStr? ==> r.Ok? && |r.value| == |v.s| && forall i :: 0 <= i < |v.s| ==> r.value[i] == VStr([v.s[i]])
    ensures v.VDict? ==> r.Ok? && |r.value| == |v.entries| && forall i :: 0 <= i < |v.entries| ==> r.value[i] == VStr(v.entries[i].0)
  {
    match v
    case VList(items) => Ok(items)
    case VStr(s) => Ok(seq(|s|, i requires 0 <= i < |s| => VStr([s[i]])))
    case VDict(e) => Ok(seq(|e|, i requires 0 <= i < |e| => VStr(e[i].0)))
    case _ => Err(NotIterable)
  }

  // Optional model fields back to payload values (None stays None)

  function FromOptStr(o: Option<string>): (v: Value)
    ensures o.None? <==> v.VNone?
    ensures o.Some? ==> v == VStr(o.value)
  {
    if o.Some? then VStr(o.value) else VNone
  }

  function FromOptInt(o: Option<int>): (v: Value)
    ensures o.None? <==> v.VNone?
    ensures o.Some? ==> v == VInt(o.value)
  {
    if o.Some? then VInt(o.value) else VNone
  }

  function FromOptBool(o: Option<bool>): (v: Value)
    ensures o.None? <==> v.VNone?
    ensures o.Some? ==> v == VBool(o.value)
  {
    if o.Some? then VBool(o.value) else VNone
  }

  function FromOptFloat(o: Option<string>): (v: Value)
    ensures o.None? <==> v.VNone?
    ensures o.Some? ==> v == VFloat(o.value)
  {
    if o.Some? then VFloat(o.value) else VNone
  }

  function FromStrings(items: seq<string>): (v: Value)
    ensures v.VList? && |v.items| == |items|
    ensures forall i :: 0 <= i < |items| ==> v.items[i] == VStr(items[i])
  {
    VList(seq(|items|, i requires 0 <= i < |items| => VStr(items[i])))
  }

  /** A validated optional field written back and read again is unchanged. */
  lemma OptStrRoundTrip(field: string, o: Option<string>)
    ensures OptStr(field, FromOptStr(o)) == Ok(o)
  {
  }

  lemma OptIntRoundTrip(field: string, o: Option<int>)
    ensures OptInt(field, FromOptInt(o)) == Ok(o)
  {
  }

  lemma OptFloatRoundTrip(field: string, o: Option<string>)
    ensures OptFloat(field, FromOptFloat(o)) == Ok(o)
  {
  }

  lemma OptBoolRoundTrip(field: string, o: Option<bool>)
    ensures OptBool(field, FromOptBool(o)) == Ok(o)
  {
  }

  /** An `int` field takes every integer written as a float, `151.0` for 151, as that integer. */
  lemma OptIntOfWholeFloat(field: string, i: int)
    ensures OptInt(field, VFloat(IntToString(i) + ".0")) == Ok(Some(i))
    ensures ReqInt(field, VFloat(IntToString(i) + ".0")) == Ok(i)
  {
    IntegralReprOfInt(i);
  }

  /** It takes a float in scientific notation, such as `1.5e+17` (`k` = 1, `j` = 3), when the
      exponent covers the fraction digits: the digits on both sides of the point, followed by the
      zeros the exponent has left. */
  lemma ReqIntOfScientificFloat(field: string, t: string, k: nat, j: nat)
    requires 0 < k && k + 1 < j < |t| && t[k] == '.'
    requires DigitsBetween(t, 0, k) && DigitsBetween(t, k + 1, j) && IsPositiveExponent(t, j)
    requires j - k - 1 <= ExponentValue(t, j)
    ensures ReqInt(field, VFloat(t)) == Ok(WithZeros(Extend(Extend(0, t, 0, k), t, k + 1, j), ExponentValue(t, j) - (j - k - 1)))
  {
    ScientificMagnitude(t, k, j);
    NegatedRepr(t);
  }

  /** ... and one without a fraction, such as `1e+16`. */
  lemma ReqIntOfExponentFloat(field: string, t: string, k: nat)
    requires 0 < k && IsPositiveExponent(t, k) && DigitsBetween(t, 0, k)
    ensures ReqInt(field, VFloat(t)) == Ok(WithZeros(Extend(0, t, 0, k), ExponentValue(t, k)))
  {
    ExponentMagnitude(t, k);
    NegatedRepr(t);
  }

  /** It refuses a float with a non-zero fraction digit, such as `151.5`, one with a negative
      exponent, and text that opens with no digit, such as `inf` and `nan`. */
  lemma OptIntRefusesFractions(field: string, w: string, f: string, i: nat)
    requires |w| > 0 && AllDigits(w) && AllDigits(f) && i < |f| && f[i] != '0'
    ensures OptInt(field, VFloat(w + "." + f)).Err?
    ensures OptInt(field, VFloat("inf")).Err? && OptInt(field, VFloat("nan")).Err?
    ensures OptInt(field, VFloat("-inf")).Err?
    ensures OptInt(field, VFloat(w + "e-05")).Err?
  {
    var t := w + "." + f;
    FractionNotIntegral(w, f, i);
    assert Unsigned(t) == t by {
      assert t[0] == w[0];
    }
    NoDigitNotIntegral("inf");
    NoDigitNotIntegral("nan");
    assert Unsigned("-inf") == "inf";
    NegativeExponentNotIntegral(w, "05");
    assert Unsigned(w + "e-05") == w + "e-05" by {
      assert (w + "e-05")[0] == w[0];
    }
  }

  /** `Optional[int]` rejects a string that is not an integer literal, such as "one". */
  lemma OptIntRejectsWord()
    ensures OptInt("lane", VStr("one")).Err?
  {
    WordNotIntLike("one");
  }

  /** A word of lower-case letters is not integer-like: `strip` leaves it alone, and it does
      not open with a digit or a sign. */
  lemma WordNotIntLike(w: string)
    requires |w| > 0 && 'a' <= w[0] <= 'z' && 'a' <= w[|w| - 1] <= 'z'
    ensures !IsIntLike(VStr(w))
  {
    AlnumNotSpace(w[0]);
    AlnumNotSpace(w[|w| - 1]);
    StripUnpadded(w);
    assert !IsDigit(w[0]);
  }
}
