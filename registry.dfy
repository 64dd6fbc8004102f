/** The closed set of section kinds the new-generation classes declare: each kind's header,
    cloud flag and shape, `SampleSheet._all_sections`, and the import order derived from it. */
module Registry {
  import opened Wrappers

  /** A key-value section (`KVSection`) or a tabular one (`DataFrameSection`). */
  datatype Shape = KeyValue | Tabular

  /** One constructor per section class of `section_classes/`. */
  datatype Kind =
    | HeaderKind | ReadsKind | SequencingKind
    | BCLConvertSettingsKind | BCLConvertDataKind
    | CloudSettingsKind | CloudDataKind
    | TSO500LSettingsKind | CloudTSO500LSettingsKind | TSO500LDataKind | CloudTSO500LDataKind
    | TSO500SSettingsKind | CloudTSO500SSettingsKind | TSO500SDataKind | CloudTSO500SDataKind

  /** `_class_header`; a cloud subclass inherits its parent's. */
  function ClassHeader(k: Kind): string {
    match k
    case HeaderKind => "Header"
    case ReadsKind => "Reads"
    case SequencingKind => "Sequencing"
    case BCLConvertSettingsKind => "BCLConvert_Settings"
    case BCLConvertDataKind => "BCLConvert_Data"
    case CloudSettingsKind => "Cloud_Settings"
    case CloudDataKind => "Cloud_Data"
    case TSO500LSettingsKind | CloudTSO500LSettingsKind => "TSO500L_Settings"
    case TSO500LDataKind | CloudTSO500LDataKind => "TSO500L_Data"
    case TSO500SSettingsKind | CloudTSO500SSettingsKind => "TSO500S_Settings"
    case TSO500SDataKind | CloudTSO500SDataKind => "TSO500S_Data"
  }

  /** `_is_cloud`: set only by the `Cloud*` subclasses of a tool's sections. */
  predicate IsCloud(k: Kind) {
    k.CloudTSO500LSettingsKind? || k.CloudTSO500LDataKind? || k.CloudTSO500SSettingsKind? || k.CloudTSO500SDataKind?
  }

  function ShapeOf(k: Kind): Shape {
    match k
    case BCLConvertDataKind | CloudDataKind | TSO500LDataKind | CloudTSO500LDataKind
       | TSO500SDataKind | CloudTSO500SDataKind => Tabular
    case _ => KeyValue
  }

  /** The kind a cloud subclass derives from, or the kind itself. */
  function LocalKind(k: Kind): Kind {
    match k
    case CloudTSO500LSettingsKind => TSO500LSettingsKind
    case CloudTSO500LDataKind => TSO500LDataKind
    case CloudTSO500SSettingsKind => TSO500SSettingsKind
    case CloudTSO500SDataKind => TSO500SDataKind
    case _ => k
  }

  /** A cloud subclass differs from its parent only by the flag. */
  lemma CloudVariants(k: Kind)
    ensures IsCloud(k) ==> && LocalKind(k) != k && !IsCloud(LocalKind(k))
                           && ClassHeader(LocalKind(k)) == ClassHeader(k)
                           && ShapeOf(LocalKind(k)) == ShapeOf(k)
    ensures !IsCloud(k) ==> LocalKind(k) == k
  {
  }

  /** `SampleSheet._all_sections`: the TSO500S classes are declared but not registered. */
  const AllSections: seq<Kind> := [
    HeaderKind, ReadsKind, SequencingKind,
    BCLConvertSettingsKind, BCLConvertDataKind,
    CloudSettingsKind, CloudDataKind,
    TSO500LSettingsKind, CloudTSO500LSettingsKind, TSO500LDataKind, CloudTSO500LDataKind]

  /** A kind listed in `_all_sections`. */
  predicate Registered(k: Kind) {
    !(k.TSO500SSettingsKind? || k.CloudTSO500SSettingsKind? || k.TSO500SDataKind? || k.CloudTSO500SDataKind?)
  }

  lemma RegisteredIsListed(k: Kind)
    ensures Registered(k) <==> k in AllSections
  {
  }

  /** The kinds of `ks` other than Cloud_Settings and Cloud_Data, in order. */
  function WithoutCloudPair(ks: seq<Kind>): (r: seq<Kind>)
    ensures |r| <= |ks|
    ensures forall i :: 0 <= i < |r| ==> r[i] != CloudSettingsKind && r[i] != CloudDataKind
  {
    if ks == [] then []
    else if ks[0] == CloudSettingsKind || ks[0] == CloudDataKind then WithoutCloudPair(ks[1..])
    else [ks[0]] + WithoutCloudPair(ks[1..])
  }

  /** `_import_sections_order`: the registry with Cloud_Settings and Cloud_Data moved last. */
  const ImportSectionsOrder: seq<Kind> := [
    HeaderKind, ReadsKind, SequencingKind, BCLConvertSettingsKind, BCLConvertDataKind,
    TSO500LSettingsKind, CloudTSO500LSettingsKind, TSO500LDataKind, CloudTSO500LDataKind,
    CloudSettingsKind, CloudDataKind]

  /** The order is the one `_import_sections_order` computes from `_all_sections`. */
  lemma ImportSectionsOrderIsDerived()
    ensures ImportSectionsOrder == WithoutCloudPair(AllSections) + [CloudSettingsKind, CloudDataKind]
  {
    var head, pair, tail := RegistryParts();
    WithoutCloudPairKeeps(head);
    WithoutCloudPairKeeps(tail);
    WithoutCloudPairDropsPair(tail);
    WithoutCloudPairPrefix(head, pair + tail);
  }

  /** `_all_sections` and the import order cut into the same three runs of kinds, only the
      middle one holding Cloud_Settings and Cloud_Data. */
  lemma RegistryParts() returns (head: seq<Kind>, pair: seq<Kind>, tail: seq<Kind>)
    ensures pair == [CloudSettingsKind, CloudDataKind]
    ensures AllSections == head + (pair + tail)
    ensures ImportSectionsOrder == head + tail + pair
    ensures CloudSettingsKind !in head && CloudDataKind !in head
    ensures CloudSettingsKind !in tail && CloudDataKind !in tail
  {
    head := [HeaderKind, ReadsKind, SequencingKind, BCLConvertSettingsKind, BCLConvertDataKind];
    pair := [CloudSettingsKind, CloudDataKind];
    tail := [TSO500LSettingsKind, CloudTSO500LSettingsKind, TSO500LDataKind, CloudTSO500LDataKind];
  }

  lemma WithoutCloudPairDropsPair(ks: seq<Kind>)
    ensures WithoutCloudPair([CloudSettingsKind, CloudDataKind] + ks) == WithoutCloudPair(ks)
  {
    var t := [CloudSettingsKind, CloudDataKind] + ks;
    assert t[0] == CloudSettingsKind && t[1..] == [CloudDataKind] + ks;
    assert t[1..][0] == CloudDataKind && t[1..][1..] == ks;
  }

  /** Every registered kind is imported, and nothing else. */
  lemma ImportSectionsOrderMembers(k: Kind)
    ensures k in ImportSectionsOrder <==> Registered(k)
  {
  }

  /** A list without the cloud pair is left as it is. */
  lemma {:induction false} WithoutCloudPairKeeps(ks: seq<Kind>)
    requires CloudSettingsKind !in ks && CloudDataKind !in ks
    ensures WithoutCloudPair(ks) == ks
  {
    if ks != [] {
      WithoutCloudPairKeeps(ks[1..]);
    }
  }

  lemma {:induction false} WithoutCloudPairPrefix(a: seq<Kind>, b: seq<Kind>)
    ensures WithoutCloudPair(a + b) == WithoutCloudPair(a) + WithoutCloudPair(b)
  {
    if a == [] {
      assert a + b == b;
    } else {
      assert (a + b)[0] == a[0];
      assert (a + b)[1..] == a[1..] + b;
      WithoutCloudPairPrefix(a[1..], b);
      if a[0] != CloudSettingsKind && a[0] != CloudDataKind {
        assert WithoutCloudPair(a + b) == [a[0]] + (WithoutCloudPair(a[1..]) + WithoutCloudPair(b));
      }
    }
  }

  /** `_class_header.lower()`, written out for every kind. */
  function LowerHeader(k: Kind): string {
    match k
    case HeaderKind => "header"
    case ReadsKind => "reads"
    case SequencingKind => "sequencing"
    case BCLConvertSettingsKind => "bclconvert_settings"
    case BCLConvertDataKind => "bclconvert_data"
    case CloudSettingsKind => "cloud_settings"
    case CloudDataKind => "cloud_data"
    case TSO500LSettingsKind | CloudTSO500LSettingsKind => "tso500l_settings"
    case TSO500LDataKind | CloudTSO500LDataKind => "tso500l_data"
    case TSO500SSettingsKind | CloudTSO500SSettingsKind => "tso500s_settings"
    case TSO500SDataKind | CloudTSO500SDataKind => "tso500s_data"
  }

  /** The attribute of `SampleSheet` a kind is stored in: `<lower header>_section`. */
  function SlotName(k: Kind): string {
    LowerHeader(k) + "_section"
  }

  /** The kinds whose `*_section` attributes `SampleSheet.__init__` creates, in creation
      order; TSO500L's attributes hold either the local or the cloud class. */
  const SlotKinds: seq<Kind> := [
    HeaderKind, ReadsKind, SequencingKind,
    BCLConvertSettingsKind, BCLConvertDataKind,
    CloudSettingsKind, CloudDataKind,
    TSO500LSettingsKind, TSO500LDataKind]

  /** The attribute of each slot. */
  function SlotNames(): (r: seq<string>)
    ensures |r| == |SlotKinds|
    ensures forall i :: 0 <= i < |r| ==> r[i] == SlotName(SlotKinds[i])
  {
    seq(|SlotKinds|, i requires 0 <= i < |SlotKinds| => SlotName(SlotKinds[i]))
  }

  lemma AppendCancel(a: string, b: string, s: string)
    requires a + s == b + s
    ensures a == b
  {
    assert a == (a + s)[..|a|];
    assert b == (b + s)[..|b|];
  }

  /** `__init__` creates nine different attributes. */
  lemma SlotNamesDistinct(i: nat, j: nat)
    requires i < j < |SlotKinds|
    ensures SlotNames()[i] != SlotNames()[j]
  {
    var a, b := SlotKinds[i], SlotKinds[j];
    if SlotName(a) == SlotName(b) {
      AppendCancel(LowerHeader(a), LowerHeader(b), "_section");
      RegistryKeysDistinct(a, b);
    }
  }

  /** Every registered kind has one of the attributes; local and cloud TSO500L share theirs. */
  function SlotIndex(k: Kind): (n: nat)
    requires Registered(k)
    ensures n < |SlotKinds| && SlotKinds[n] == LocalKind(k)
  {
    match k
    case HeaderKind => 0
    case ReadsKind => 1
    case SequencingKind => 2
    case BCLConvertSettingsKind => 3
    case BCLConvertDataKind => 4
    case CloudSettingsKind => 5
    case CloudDataKind => 6
    case TSO500LSettingsKind | CloudTSO500LSettingsKind => 7
    case TSO500LDataKind | CloudTSO500LDataKind => 8
  }

  /** `setattr(self, f"{_class_header.lower()}_section", ...)` names the attribute at the
      kind's slot index. */
  lemma SlotNameAgrees(k: Kind)
    requires Registered(k)
    ensures SlotNames()[SlotIndex(k)] == SlotName(k)
  {
    assert LowerHeader(LocalKind(k)) == LowerHeader(k);
  }

  /** `_all_sections.index(type(section))` */
  function RegistryIndex(k: Kind): (n: nat)
    requires Registered(k)
    ensures n < |AllSections| && AllSections[n] == k
    ensures forall j :: 0 <= j < n ==> AllSections[j] != k
  {
    match k
    case HeaderKind => 0
    case ReadsKind => 1
    case SequencingKind => 2
    case BCLConvertSettingsKind => 3
    case BCLConvertDataKind => 4
    case CloudSettingsKind => 5
    case CloudDataKind => 6
    case TSO500LSettingsKind => 7
    case CloudTSO500LSettingsKind => 8
    case TSO500LDataKind => 9
    case CloudTSO500LDataKind => 10
  }

  /** Every attribute is named after a registered local kind. */
  lemma SlotKindsRegistered(j: nat)
    requires j < |SlotKinds|
    ensures Registered(SlotKinds[j]) && SlotIndex(SlotKinds[j]) == j
  {
  }

  /** A kind stored at slot `j` or later sits no earlier in `_all_sections` than the kind slot
      `j` is named after; a kind stored before slot `j` sits strictly earlier. */
  lemma SlotRegistryBounds(k: Kind, j: nat)
    requires Registered(k) && j < |SlotKinds|
    ensures Registered(SlotKinds[j])
    ensures SlotIndex(k) >= j ==> RegistryIndex(SlotKinds[j]) <= RegistryIndex(k)
    ensures SlotIndex(k) < j ==> RegistryIndex(k) < RegistryIndex(SlotKinds[j])
  {
    SlotKindsRegistered(j);
  }

  /** The attributes come in registry order: a later attribute holds a later registry kind. */
  lemma SlotOrderIsRegistryOrder(a: Kind, b: Kind)
    requires Registered(a) && Registered(b)
    ensures SlotIndex(a) < SlotIndex(b) ==> RegistryIndex(a) < RegistryIndex(b)
    ensures SlotIndex(a) == SlotIndex(b) ==> LocalKind(a) == LocalKind(b)
  {
  }

  // ---------------------------------------------------------------------------
  // Lookup

  /** The first registry entry matching a condition, as `next(filter(...))` finds it. */
  function FirstMatch(ks: seq<Kind>, stripped: string, isCloud: bool): (r: Option<Kind>)
    ensures r.Some? ==> r.value in ks && LowerHeader(r.value) == stripped && IsCloud(r.value) == isCloud
    ensures r.None? ==> forall k :: k in ks ==> !(LowerHeader(k) == stripped && IsCloud(k) == isCloud)
  {
    if ks == [] then None
    else if LowerHeader(ks[0]) == stripped && IsCloud(ks[0]) == isCloud then Some(ks[0])
    else FirstMatch(ks[1..], stripped, isCloud)
  }

  /** The section type for a stripped name and a cloud flag. */
  function Lookup(stripped: string, isCloud: bool): (r: Option<Kind>)
    ensures r.Some? ==> Registered(r.value) && LowerHeader(r.value) == stripped && IsCloud(r.value) == isCloud
  {
    var m := FirstMatch(AllSections, stripped, isCloud);
    if m.Some? then RegisteredIsListed(m.value); m else m
  }

  /** No two registered kinds share both a lower-cased header and a cloud flag. */
  lemma RegistryKeysDistinct(a: Kind, b: Kind)
    requires Registered(a) && Registered(b)
    requires LowerHeader(a) == LowerHeader(b) && IsCloud(a) == IsCloud(b)
    ensures a == b
  {
  }

  /** Lookup succeeds exactly on the registered (header, flag) pairs, with the unique kind
      carrying them. */
  lemma LookupIff(stripped: string, isCloud: bool, k: Kind)
    ensures Lookup(stripped, isCloud) == Some(k) <==>
              Registered(k) && LowerHeader(k) == stripped && IsCloud(k) == isCloud
  {
    var r := Lookup(stripped, isCloud);
    RegisteredIsListed(k);
    if r.Some? {
      RegisteredIsListed(r.value);
      if Registered(k) && LowerHeader(k) == stripped && IsCloud(k) == isCloud {
        RegistryKeysDistinct(r.value, k);
      }
    }
  }

  /** Local and cloud TSO500L settings are told apart by the flag alone. */
  lemma LookupTSO500LSettingsByFlag(isCloud: bool)
    ensures Lookup(LowerHeader(TSO500LSettingsKind), isCloud)
            == Some(if isCloud then CloudTSO500LSettingsKind else TSO500LSettingsKind)
  {
    LookupIff(LowerHeader(TSO500LSettingsKind), isCloud,
              if isCloud then CloudTSO500LSettingsKind else TSO500LSettingsKind);
  }

  /** Local and cloud TSO500L data are told apart by the flag alone. */
  lemma LookupTSO500LDataByFlag(isCloud: bool)
    ensures Lookup(LowerHeader(TSO500LDataKind), isCloud)
            == Some(if isCloud then CloudTSO500LDataKind else TSO500LDataKind)
  {
    LookupIff(LowerHeader(TSO500LDataKind), isCloud, if isCloud then CloudTSO500LDataKind else TSO500LDataKind);
  }

  /** A local kind is found only without the cloud flag: there is no cloud BCLConvert,
      Header or Cloud_Settings entry. */
  lemma LookupLocalOnly(k: Kind)
    requires Registered(k) && !IsCloud(k) && !k.TSO500LSettingsKind? && !k.TSO500LDataKind?
    ensures Lookup(LowerHeader(k), false) == Some(k)
    ensures Lookup(LowerHeader(k), true) == None
  {
    LookupIff(LowerHeader(k), false, k);
    var r := Lookup(LowerHeader(k), true);
    if r.Some? {
      LookupIff(LowerHeader(k), true, r.value);
    }
  }

  /** The TSO500S sections are declared but not registered, so they are never found. */
  lemma LookupNeverTSO500S(stripped: string, isCloud: bool)
    ensures Lookup(stripped, isCloud) != Some(TSO500SSettingsKind)
    ensures Lookup(stripped, isCloud) != Some(CloudTSO500SSettingsKind)
    ensures Lookup(stripped, isCloud) != Some(TSO500SDataKind)
    ensures Lookup(stripped, isCloud) != Some(CloudTSO500SDataKind)
  {
  }

  // ---------------------------------------------------------------------------
  // The sort key of `SampleSheet.__init__`

  /** `class_headers_as_list`: the lower-cased headers in import order. */
  function ImportHeaders(): (r: seq<string>)
    ensures |r| == |ImportSectionsOrder|
    ensures forall i :: 0 <= i < |r| ==> r[i] == LowerHeader(ImportSectionsOrder[i])
  {
    seq(|ImportSectionsOrder|, i requires 0 <= i < |ImportSectionsOrder| => LowerHeader(ImportSectionsOrder[i]))
  }

  /** `xs.index(x)`: the first position of `x`, or None where Python raises ValueError. */
  function IndexOf(xs: seq<string>, x: string): (r: Option<nat>)
    ensures r.Some? ==> r.value < |xs| && xs[r.value] == x && forall j :: 0 <= j < r.value ==> xs[j] != x
    ensures r.None? <==> x !in xs
  {
    if xs == [] then None
    else if xs[0] == x then Some(0)
    else
      var rest := IndexOf(xs[1..], x);
      if rest.Some? then Some(rest.value + 1) else None
  }

  /** Only Cloud_Settings and Cloud_Data carry the headers `cloud_settings` and `cloud_data`. */
  lemma CloudPairHeaders(k: Kind)
    ensures LowerHeader(k) == "cloud_settings" <==> k == CloudSettingsKind
    ensures LowerHeader(k) == "cloud_data" <==> k == CloudDataKind
  {
  }

  /** The cloud pair's headers come last in the import headers and nowhere before. */
  lemma ImportHeadersEndWithCloudPair()
    ensures |ImportHeaders()| == 11
    ensures ImportHeaders()[9] == "cloud_settings" && ImportHeaders()[10] == "cloud_data"
    ensures forall j :: 0 <= j < 9 ==> ImportHeaders()[j] != "cloud_settings" && ImportHeaders()[j] != "cloud_data"
  {
    var h := ImportHeaders();
    forall j | 0 <= j < 9
      ensures h[j] != "cloud_settings" && h[j] != "cloud_data"
    {
      CloudPairHeaders(ImportSectionsOrder[j]);
    }
  }

  /** `cloud_settings` sorts after every other known name except `cloud_data`, and
      `cloud_data` after all of them. */
  lemma CloudSectionsSortLast(x: string)
    requires x in ImportHeaders() && x != "cloud_settings" && x != "cloud_data"
    ensures IndexOf(ImportHeaders(), "cloud_settings") == Some(9)
    ensures IndexOf(ImportHeaders(), "cloud_data") == Some(10)
    ensures IndexOf(ImportHeaders(), x).value < 9
  {
    ImportHeadersEndWithCloudPair();
    IndexOfLastTwo(ImportHeaders(), "cloud_settings", "cloud_data", x);
  }

  /** In names ending with `a, b` that hold neither before, `a` and `b` are found at the
      end and every other name before them. */
  lemma IndexOfLastTwo(xs: seq<string>, a: string, b: string, x: string)
    requires |xs| >= 2 && xs[|xs| - 2] == a && xs[|xs| - 1] == b && a != b
    requires forall j :: 0 <= j < |xs| - 2 ==> xs[j] != a && xs[j] != b
    requires x in xs && x != a && x != b
    ensures IndexOf(xs, a) == Some(|xs| - 2)
    ensures IndexOf(xs, b) == Some(|xs| - 1)
    ensures IndexOf(xs, x).value < |xs| - 2
  {
    IndexOfFirst(xs, a, |xs| - 2);
    IndexOfFirst(xs, b, |xs| - 1);
  }

  /** The first position holding `x` is its index. */
  lemma IndexOfFirst(xs: seq<string>, x: string, i: nat)
    requires i < |xs| && xs[i] == x && forall j :: 0 <= j < i ==> xs[j] != x
    ensures IndexOf(xs, x) == Some(i)
  {
  }
}
