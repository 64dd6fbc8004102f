/** Option and Result, and the closed set of failures the samplesheet code raises. */
module Wrappers {

  datatype Option<+T> = None | Some(value: T)

  /** The exceptions the Python code raises, one constructor per distinct cause. */
  datatype Error =
    // ValueError: a section name that no registry entry (or the import order) knows
    | UnknownSection(name: string)
    // pydantic ValidationError: a field fails its declared type, enum or requiredness
    | SchemaViolation(field: string)
    // TypeError: a required constructor argument was not supplied
    | MissingArgument(name: string)
    // TypeError / AttributeError: a payload of the wrong shape passed with `**` or `*`
    | WrongPayloadShape(name: string)
    // TypeError: `list(*args)` called with more than one positional argument,
    // or on a value that is not iterable
    | NotIterable
    // AttributeError: an unrecognised column left in a legacy BCLConvert data row
    | UnexpectedColumn(key: string)
    // AttributeError: attribute read on None
    | NoneAttribute(name: string)
    // ValueError: a samplesheet text with no `[Header]` line at all
    | NoSectionHeader
    // IndexError: `lines[0]` of an empty data section, or `split(",")[1]` of a line with no comma
    | IndexOutOfRange
    // ValueError (pandas): a data line whose cell count differs from the header line's
    | RaggedRow
    // KeyError: a dictionary lookup with `[...]` on a missing key
    | KeyMissing(key: string)
    // ValueError: `Run.@Id` is absent or None
    | MissingRunId
    // ValueError: the run id does not match the expected shape
    | RunIdMismatch
    // TypeError: `int(None)`, reached through the second regex alternative
    | IntOfNone
    // ValueError: `strptime` rejects the six date digits
    | BadDate
    // TypeError: `";".join(items)` on a list holding something other than a string
    | NonStringJoin

  datatype Result<+T> = Ok(value: T) | Err(error: Error) {
    predicate IsFailure() {
      Err?
    }

    function PropagateFailure<U>(): Result<U>
      requires Err?
    {
      Err(error)
    }

    function Extract(): T
      requires Ok?
    {
      value
    }
  }

  /** The values of `rs[i..]` when every one is Ok, otherwise the first error: a loop that
      stops at its first failing element. */
  function AllOk<T>(rs: seq<Result<T>>, i: nat): Result<seq<T>>
    requires i <= |rs|
    decreases |rs| - i
  {
    if i == |rs| then Ok([])
    else
      var x :- rs[i];
      var rest :- AllOk(rs, i + 1);
      Ok([x] + rest)
  }

  /** `done` followed by the values of `r`, or `r`'s error. */
  function Prepend<T>(done: seq<T>, r: Result<seq<T>>): Result<seq<T>> {
    if r.Err? then r else Ok(done + r.value)
  }

  lemma {:induction false} AllOkShape<T>(rs: seq<Result<T>>, i: nat)
    requires i <= |rs|
    ensures AllOk(rs, i).Ok? <==> forall j :: i <= j < |rs| ==> rs[j].Ok?
    ensures AllOk(rs, i).Ok? ==>
              && |AllOk(rs, i).value| == |rs| - i
              && forall j :: i <= j < |rs| ==> AllOk(rs, i).value[j - i] == rs[j].value
    ensures AllOk(rs, i).Err? ==>
              exists j :: && i <= j < |rs| && rs[j].Err? && AllOk(rs, i).error == rs[j].error
                          && forall k :: i <= k < j ==> rs[k].Ok?
    decreases |rs| - i
  {
    if i < |rs| {
      AllOkShape(rs, i + 1);
      if rs[i].Ok? && AllOk(rs, i + 1).Ok? {
        assert AllOk(rs, i) == Ok([rs[i].value] + AllOk(rs, i + 1).value);
      }
    }
  }

  /** One more Ok element moves from the pending results to the accumulated values. */
  lemma AllOkStep<T>(rs: seq<Result<T>>, i: nat, done: seq<T>)
    requires i < |rs| && rs[i].Ok?
    ensures Prepend(done, AllOk(rs, i)) == Prepend(done + [rs[i].value], AllOk(rs, i + 1))
  {
    var rest := AllOk(rs, i + 1);
    if rest.Ok? {
      assert done + ([rs[i].value] + rest.value) == (done + [rs[i].value]) + rest.value;
    }
  }

  /** `list(map(f, xs))` where `f` may raise: the values of `f` over `xs` in order, or the
      error of the first element it fails on. */
  function MapAll<A, T>(xs: seq<A>, f: A -> Result<T>): (r: Result<seq<T>>)
    ensures r.Ok? <==> forall i :: 0 <= i < |xs| ==> f(xs[i]).Ok?
    ensures r.Ok? ==> |r.value| == |xs| && forall i :: 0 <= i < |xs| ==> r.value[i] == f(xs[i]).value
    ensures r.Err? ==> exists i :: && 0 <= i < |xs| && f(xs[i]).Err? && r.error == f(xs[i]).error
                                   && forall k :: 0 <= k < i ==> f(xs[k]).Ok?
  {
    if xs == [] then Ok([])
    else
      var x :- f(xs[0]);
      var rest :- MapAll(xs[1..], f);
      Ok([x] + rest)
  }
}
