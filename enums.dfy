/** The closed value sets that section validation checks enum-typed fields against. */
module Enums {
  import opened Wrappers
  import opened Values

  /** How BCL Convert treats adapter sequences. */
  datatype AdapterBehaviour = Trim | Mask {
    function Value(): (s: string)
      ensures s in AdapterBehaviourValues
    {
      match this
      case Trim => "trim"
      case Mask => "mask"
    }
  }

  const AdapterBehaviourValues: set<string> := {"trim", "mask"}

  /** `AdapterBehaviour(s)`: lookup by value, which fails for any other string. */
  function ParseAdapterBehaviour(s: string): (r: Option<AdapterBehaviour>)
    ensures r.Some? <==> s in AdapterBehaviourValues
    ensures r.Some? ==> r.value.Value() == s
  {
    if s == "trim" then Some(Trim) else if s == "mask" then Some(Mask) else None
  }

  /** The FASTQ compression BCL Convert writes. */
  datatype FastqCompressionFormat = Gzip | Dragen | DragenInterleaved {
    function Value(): (s: string)
      ensures s in FastqCompressionFormatValues
    {
      match this
      case Gzip => "gzip"
      case Dragen => "dragen"
      case DragenInterleaved => "dragen-interleaved"
    }
  }

  const FastqCompressionFormatValues: set<string> := {"gzip", "dragen", "dragen-interleaved"}

  function ParseFastqCompressionFormat(s: string): (r: Option<FastqCompressionFormat>)
    ensures r.Some? <==> s in FastqCompressionFormatValues
    ensures r.Some? ==> r.value.Value() == s
  {
    if s == "gzip" then Some(Gzip)
    else if s == "dragen" then Some(Dragen)
    else if s == "dragen-interleaved" then Some(DragenInterleaved)
    else None
  }

  /** The sample types the TSO500 liquid-biopsy pipeline accepts. */
  datatype TSO500LSampleType = DNA {
    function Value(): (s: string)
      ensures s in TSO500LSampleTypeValues
    {
      "DNA"
    }
  }

  const TSO500LSampleTypeValues: set<string> := {"DNA"}

  function ParseTSO500LSampleType(s: string): (r: Option<TSO500LSampleType>)
    ensures r.Some? <==> s in TSO500LSampleTypeValues
    ensures r.Some? ==> r.value.Value() == s
  {
    if s == "DNA" then Some(DNA) else None
  }

  /** The values are distinct, so parsing by value inverts `.value`. */
  lemma ValuesAreDistinct(a: AdapterBehaviour, a': AdapterBehaviour,
                          f: FastqCompressionFormat, f': FastqCompressionFormat)
    ensures a.Value() == a'.Value() ==> a == a'
    ensures f.Value() == f'.Value() ==> f == f'
    ensures ParseAdapterBehaviour(a.Value()) == Some(a)
    ensures ParseFastqCompressionFormat(f.Value()) == Some(f)
  {
  }

  lemma ParseSampleTypeInverse(t: TSO500LSampleType)
    ensures ParseTSO500LSampleType(t.Value()) == Some(t)
  {
  }

  /** "tram" is not an adapter behaviour, and the lookup is case-sensitive. */
  lemma TramIsRejected()
    ensures ParseAdapterBehaviour("tram").None?
    ensures ParseAdapterBehaviour("TRIM").None?
    ensures ParseTSO500LSampleType("dna").None?
  {
  }

  // ---------------------------------------------------------------------------
  // `Optional[<Enum>]` fields: None, or a string that is one of the enum's values.

  function OptAdapterBehaviour(field: string, v: Value): (r: Result<Option<AdapterBehaviour>>)
    ensures r.Ok? <==> v.VNone? || (v.VStr? && v.s in AdapterBehaviourValues)
    ensures r.Ok? && r.value.Some? ==> v == VStr(r.value.value.Value())
    ensures r.Err? ==> r.error == SchemaViolation(field)
  {
    if v.VNone? then Ok(None)
    else if v.VStr? && ParseAdapterBehaviour(v.s).Some? then Ok(ParseAdapterBehaviour(v.s))
    else Err(SchemaViolation(field))
  }

  function OptFastqCompressionFormat(field: string, v: Value): (r: Result<Option<FastqCompressionFormat>>)
    ensures r.Ok? <==> v.VNone? || (v.VStr? && v.s in FastqCompressionFormatValues)
    ensures r.Ok? && r.value.Some? ==> v == VStr(r.value.value.Value())
    ensures r.Err? ==> r.error == SchemaViolation(field)
  {
    if v.VNone? then Ok(None)
    else if v.VStr? && ParseFastqCompressionFormat(v.s).Some? then Ok(ParseFastqCompressionFormat(v.s))
    else Err(SchemaViolation(field))
  }

  /** A required `TSO500LSampleType` field: None fails as well. */
  function ReqTSO500LSampleType(field: string, v: Value): (r: Result<TSO500LSampleType>)
    ensures r.Ok? <==> v.VStr? && v.s in TSO500LSampleTypeValues
    ensures r.Ok? ==> v == VStr(r.value.Value())
    ensures r.Err? ==> r.error == SchemaViolation(field)
  {
    if v.VStr? && ParseTSO500LSampleType(v.s).Some? then Ok(ParseTSO500LSampleType(v.s).value)
    else Err(SchemaViolation(field))
  }

  /** The string an optional enum field is written out as: its `.value`, or None. */
  function FromOptAdapterBehaviour(o: Option<AdapterBehaviour>): (v: Value)
    ensures o.None? <==> v.VNone?
    ensures o.Some? ==> OptAdapterBehaviour("adapter_behavior", v) == Ok(o)
  {
    if o.Some? then VStr(o.value.Value()) else VNone
  }

  function FromOptFastqCompressionFormat(o: Option<FastqCompressionFormat>): (v: Value)
    ensures o.None? <==> v.VNone?
    ensures o.Some? ==> OptFastqCompressionFormat("fastq_compression_format", v) == Ok(o)
  {
    if o.Some? then VStr(o.value.Value()) else VNone
  }

  lemma OptAdapterBehaviourRoundTrip(field: string, o: Option<AdapterBehaviour>)
    ensures OptAdapterBehaviour(field, FromOptAdapterBehaviour(o)) == Ok(o)
  {
    if o.Some? {
      ValuesAreDistinct(o.value, o.value, Gzip, Gzip);
    }
  }

  // ---------------------------------------------------------------------------
  // `TSO500SSampleType` and `TSO500SSampleFeature` are imported by the TSO500S models but not
  // defined: such an enum is known here only by its set of permitted values.

  /** A required field of an enum given by its value set. */
  function ReqMember(field: string, v: Value, values: set<string>): (r: Result<string>)
    ensures r.Ok? <==> v.VStr? && v.s in values
    ensures r.Ok? ==> v == VStr(r.value) && r.value in values
    ensures r.Err? ==> r.error == SchemaViolation(field)
  {
    if v.VStr? && v.s in values then Ok(v.s) else Err(SchemaViolation(field))
  }

  /** An optional field of an enum given by its value set. */
  function OptMember(field: string, v: Value, values: set<string>): (r: Result<Option<string>>)
    ensures r.Ok? <==> v.VNone? || (v.VStr? && v.s in values)
    ensures r.Ok? && r.value.Some? ==> v == VStr(r.value.value) && r.value.value in values
    ensures v.VNone? ==> r == Ok(None)
    ensures r.Err? ==> r.error == SchemaViolation(field)
  {
    if v.VNone? then Ok(None)
    else if v.VStr? && v.s in values then Ok(Some(v.s))
    else Err(SchemaViolation(field))
  }
}
