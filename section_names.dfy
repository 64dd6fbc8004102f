/** External section names: `get_stripped_section_name`, `is_cloud_section_name`, the
    resolution of a name against the registry, and the order in which `SampleSheet.__init__`
    hands the sections to `populate_sections`. */
module SectionNames {
  import opened Wrappers
  import opened Text
  import opened Dicts
  import opened Values
  import opened Registry
  import opened StableSort

  /** The characters `lstrip("cloud_")` removes: Python reads the argument as a set. */
  const CloudChars: set<char> := {'c', 'l', 'o', 'u', 'd', '_'}

  /** The two lower-cased names that keep their `cloud_` prefix and are not cloud-flagged. */
  predicate IsExempt(low: string) {
    low == "cloud_settings" || low == "cloud_data"
  }

  /** `get_stripped_section_name`: the lower-cased name, and unless it is exempt, without its
      longest leading run of characters from {c, l, o, u, d, _}. */
  function StrippedSectionName(name: string): (r: string)
    ensures NoUpper(r) && |r| <= |name|
    ensures r == LowerStr(name)[|name| - |r|..]
    ensures IsExempt(LowerStr(name)) ==> r == LowerStr(name)
    ensures !IsExempt(LowerStr(name)) ==> && (r != [] ==> r[0] !in CloudChars)
                                          && forall i :: 0 <= i < |name| - |r| ==> LowerStr(name)[i] in CloudChars
  {
    var low := LowerStr(name);
    if IsExempt(low) then low
    else
      var r := LStripChars(low, CloudChars);
      assert forall i :: 0 <= i < |r| ==> r[i] == low[|low| - |r| + i];
      r
  }

  /** `is_cloud_section_name` */
  predicate IsCloudSectionName(name: string) {
    var low := LowerStr(name);
    StartsWith(low, "cloud_") && !IsExempt(low)
  }

  /** A cloud-flagged name loses at least its `cloud_` prefix when stripped. */
  lemma CloudNameLosesPrefix(name: string)
    requires IsCloudSectionName(name)
    ensures |StrippedSectionName(name)| <= |name| - 6
  {
    var low := LowerStr(name);
    var r := StrippedSectionName(name);
    CloudPrefixChars(low);
  }

  /** The six characters of a `cloud_` prefix all belong to the stripped set. */
  lemma CloudPrefixChars(low: string)
    requires StartsWith(low, "cloud_")
    ensures forall k :: 0 <= k < 6 ==> low[k] in CloudChars
  {
    forall k | 0 <= k < 6
      ensures low[k] in CloudChars
    {
      assert low[k] == low[..6][k];
    }
  }

  /** A name whose lower-cased first character is not one of {c, l, o, u, d, _} is only
      lower-cased, and is not cloud-flagged. */
  lemma PlainNameIsLowered(name: string)
    requires name != [] && LowerStr(name)[0] !in CloudChars
    ensures StrippedSectionName(name) == LowerStr(name)
    ensures !IsCloudSectionName(name)
  {
    var low := LowerStr(name);
    if !IsExempt(low) {
      LStripCharsIs(low, CloudChars, 0);
    }
    if StartsWith(low, "cloud_") {
      assert low[0] == low[..6][0];
    }
  }

  /** `lower()` of a string, checked character by character. */
  lemma LowerStrIs(s: string, t: string)
    requires |s| == |t| && forall i :: 0 <= i < |s| ==> Lower(s[i]) == t[i]
    ensures LowerStr(s) == t
  {
  }

  /** The registry entry a name resolves to, as `populate_sections` finds it. */
  function Resolve(name: string): Option<Kind> {
    Lookup(StrippedSectionName(name), IsCloudSectionName(name))
  }

  /** A non-exempt lowered name is stripped of its leading run from {c, l, o, u, d, _}. */
  lemma StrippedIs(name: string, low: string, n: nat)
    requires LowerStr(name) == low && !IsExempt(low)
    requires n <= |low| && (forall k :: 0 <= k < n ==> low[k] in CloudChars) && (n < |low| ==> low[n] !in CloudChars)
    ensures StrippedSectionName(name) == low[n..]
  {
    LStripCharsIs(low, CloudChars, n);
  }

  lemma LowerStrAppend(a: string, b: string)
    ensures LowerStr(a + b) == LowerStr(a) + LowerStr(b)
  {
  }

  /** `Cloud_<t>` for a `t` whose lowered form does not start with one of {c, l, o, u, d, _}
      and is not `settings`: the prefix goes, the flag is set. */
  lemma CloudPrefixedName(t: string)
    requires LowerStr(t) != [] && LowerStr(t)[0] !in CloudChars && LowerStr(t) != "settings"
    ensures StrippedSectionName("Cloud_" + t) == LowerStr(t)
    ensures IsCloudSectionName("Cloud_" + t)
  {
    var lt := LowerStr(t);
    var low := LowerStr("Cloud_" + t);
    CloudPrefixLowered(t);
    CloudJoin(lt, low);
    CloudPrefixChars(low);
    StrippedIs("Cloud_" + t, low, 6);
  }

  /** Lower-casing `Cloud_<t>` lower-cases the two parts. */
  lemma CloudPrefixLowered(t: string)
    ensures LowerStr("Cloud_" + t) == "cloud_" + LowerStr(t)
  {
    LowerStrAppend("Cloud_", t);
    LowerStrIs("Cloud_", "cloud_");
  }

  /** `cloud_` in front of a name that does not open with a stripped character, and is not
      `settings`, gives a cloud-flagged name whose stripping stops right after the prefix. */
  lemma CloudJoin(lt: string, low: string)
    requires low == "cloud_" + lt && lt != [] && lt[0] !in CloudChars && lt != "settings"
    ensures StartsWith(low, "cloud_") && !IsExempt(low)
    ensures |low| > 6 && low[6..] == lt && low[6] !in CloudChars
  {
    assert low[..6] == "cloud_" && low[6..] == lt;
    assert "cloud_settings"[6..] == "settings";
    assert "cloud_data"[6] == 'd';
  }

  /** A name lowering to a registered header that does not start with `cloud_` resolves with
      the flag off, and with `Cloud_` in front with the flag on. */
  lemma ResolveByPrefix(t: string, k: Kind)
    requires Registered(k) && !k.CloudSettingsKind? && !k.CloudDataKind? && LowerStr(t) == LowerHeader(k)
    ensures Resolve(t) == Lookup(LowerHeader(k), false)
    ensures Resolve("Cloud_" + t) == Lookup(LowerHeader(k), true)
  {
    assert LowerHeader(k)[0] !in CloudChars;
    CloudPrefixedName(t);
    PlainNameIsLowered(t);
  }

  /** `TSO500L_Settings` and `Cloud_TSO500L_Settings` (in any letter case) name the local and
      the cloud class. */
  lemma ResolveTSO500LSettings(t: string)
    requires LowerStr(t) == LowerHeader(TSO500LSettingsKind)
    ensures Resolve(t) == Some(TSO500LSettingsKind)
    ensures Resolve("Cloud_" + t) == Some(CloudTSO500LSettingsKind)
  {
    ResolveByPrefix(t, TSO500LSettingsKind);
    LookupTSO500LSettingsByFlag(false);
    LookupTSO500LSettingsByFlag(true);
  }

  /** `TSO500L_Data` and `Cloud_TSO500L_Data` likewise. */
  lemma ResolveTSO500LData(t: string)
    requires LowerStr(t) == LowerHeader(TSO500LDataKind)
    ensures Resolve(t) == Some(TSO500LDataKind)
    ensures Resolve("Cloud_" + t) == Some(CloudTSO500LDataKind)
  {
    ResolveByPrefix(t, TSO500LDataKind);
    LookupTSO500LDataByFlag(false);
    LookupTSO500LDataByFlag(true);
  }

  /** There is no cloud class for a local-only kind: `Cloud_BCLConvert_Settings` and the like
      find no entry. */
  lemma ResolveLocalOnly(t: string, k: Kind)
    requires Registered(k) && !IsCloud(k) && !k.TSO500LSettingsKind? && !k.TSO500LDataKind?
    requires !k.CloudSettingsKind? && !k.CloudDataKind? && LowerStr(t) == LowerHeader(k)
    ensures Resolve(t) == Some(k)
    ensures Resolve("Cloud_" + t) == None
  {
    ResolveByPrefix(t, k);
    LookupLocalOnly(k);
  }

  /** `Cloud_Settings`, in any letter case, keeps its prefix and names the Cloud_Settings class. */
  lemma ResolveCloudSettings(name: string)
    requires LowerStr(name) == "cloud_settings"
    ensures StrippedSectionName(name) == "cloud_settings"
    ensures !IsCloudSectionName(name)
    ensures Resolve(name) == Some(CloudSettingsKind)
  {
    var low := LowerStr(name);
    assert IsExempt(low);
    LookupIff(low, false, CloudSettingsKind);
  }

  /** `Cloud_Data` likewise. */
  lemma ResolveCloudData(name: string)
    requires LowerStr(name) == "cloud_data"
    ensures StrippedSectionName(name) == "cloud_data"
    ensures !IsCloudSectionName(name)
    ensures Resolve(name) == Some(CloudDataKind)
  {
    var low := LowerStr(name);
    assert IsExempt(low);
    LookupIff(low, false, CloudDataKind);
  }

  // ---------------------------------------------------------------------------
  // The processing order of `SampleSheet.__init__`

  /** `class_headers_as_list.index(get_stripped_section_name(name))`, or the ValueError of
      `list.index`. */
  function SortKey(name: string): (r: Result<nat>)
    ensures r.Ok? <==> StrippedSectionName(name) in ImportHeaders()
    ensures r.Ok? ==> r.value < |ImportHeaders()| && ImportHeaders()[r.value] == StrippedSectionName(name)
    ensures r.Err? ==> r.error == UnknownSection(name)
  {
    var i := IndexOf(ImportHeaders(), StrippedSectionName(name));
    if i.Some? then Ok(i.value) else Err(UnknownSection(name))
  }

  /** One input section with its sort key. */
  function Tag(item: (string, Value)): (r: Result<((string, Value), nat)>)
    ensures r.Ok? <==> SortKey(item.0).Ok?
    ensures r.Ok? ==> r.value == (item, SortKey(item.0).value)
    ensures r.Err? ==> r.error == SortKey(item.0).error
  {
    var key :- SortKey(item.0);
    Ok((item, key))
  }

  /** `sorted` computes every key before it sorts: the first unknown name raises. */
  function Tagged(items: Dict<Value>): (r: Result<seq<((string, Value), nat)>>)
    ensures r.Ok? <==> forall i :: 0 <= i < |items| ==> StrippedSectionName(items[i].0) in ImportHeaders()
    ensures r.Ok? ==> |r.value| == |items| && forall i :: 0 <= i < |items| ==> r.value[i] == Tag(items[i]).value
    ensures r.Err? ==> exists i :: && 0 <= i < |items| && StrippedSectionName(items[i].0) !in ImportHeaders()
                                   && r.error == UnknownSection(items[i].0)
                                   && forall k :: 0 <= k < i ==> StrippedSectionName(items[k].0) in ImportHeaders()
  {
    MapAll(items, Tag)
  }

  function Untag<T>(xs: seq<(T, nat)>): (r: seq<T>)
    ensures |r| == |xs| && forall i :: 0 <= i < |xs| ==> r[i] == xs[i].0
  {
    seq(|xs|, i requires 0 <= i < |xs| => xs[i].0)
  }

  /** `sections_dict_as_list`: the sections stably sorted by their key. */
  function ImportOrder(items: Dict<Value>): Result<Dict<Value>> {
    var tagged :- Tagged(items);
    Ok(Untag(SortByKey(tagged, |ImportHeaders()|)))
  }

  /** Every tag carries its item's own key, and each key is below the number of headers. */
  lemma TaggedKeys(items: Dict<Value>)
    requires Tagged(items).Ok?
    ensures var t := Tagged(items).value;
            forall i :: 0 <= i < |t| ==> && SortKey(t[i].0.0).Ok? && t[i].1 == SortKey(t[i].0.0).value
                                         && t[i].1 < |ImportHeaders()|
  {
  }

  /** The sort neither loses nor duplicates a section. */
  lemma ImportOrderPermutes(items: Dict<Value>)
    requires ImportOrder(items).Ok?
    ensures multiset(ImportOrder(items).value) == multiset(items)
  {
    var t := Tagged(items).value;
    TaggedKeys(items);
    var s := SortByKey(t, |ImportHeaders()|);
    SortByKeyPermutes(t, |ImportHeaders()|);
    UntagMultiset(s, t);
    assert Untag(t) == items;
  }

  lemma UntagAppend<T>(a: seq<(T, nat)>, b: seq<(T, nat)>)
    ensures Untag(a + b) == Untag(a) + Untag(b)
  {
  }

  /** Removing the element at `j` removes its item once. */
  lemma UntagRemove<T>(b: seq<(T, nat)>, j: nat)
    requires j < |b|
    ensures multiset(Untag(b)) == multiset(Untag(b[..j] + b[j + 1..])) + multiset{b[j].0}
  {
    assert b == b[..j] + [b[j]] + b[j + 1..];
    UntagAppend(b[..j] + [b[j]], b[j + 1..]);
    UntagAppend(b[..j], [b[j]]);
    UntagAppend(b[..j], b[j + 1..]);
  }

  /** Removing the element at `j` of a sequence removes it once from its multiset. */
  lemma MultisetRemove<U>(b: seq<U>, j: nat)
    requires j < |b|
    ensures multiset(b) == multiset(b[..j] + b[j + 1..]) + multiset{b[j]}
  {
    assert b == b[..j] + [b[j]] + b[j + 1..];
  }

  /** Two equal multisets, each one element more than a smaller one, leave equal remainders. */
  lemma MultisetCancel<U>(p: multiset<U>, q: multiset<U>, m: multiset<U>, x: U)
    requires m == p + multiset{x} && m == q + multiset{x}
    ensures p == q
  {
    forall y ensures p[y] == q[y] {
      assert (p + multiset{x})[y] == (q + multiset{x})[y];
    }
  }

  lemma PositionOf<U>(b: seq<U>, x: U) returns (j: nat)
    requires x in multiset(b)
    ensures j < |b| && b[j] == x
  {
    assert x in b;
    j :| 0 <= j < |b| && b[j] == x;
  }

  lemma UntagCons<T>(a: seq<(T, nat)>)
    requires a != []
    ensures multiset(Untag(a)) == multiset(Untag(a[1..])) + multiset{a[0].0}
  {
    assert a == [a[0]] + a[1..];
    UntagAppend([a[0]], a[1..]);
    assert Untag([a[0]]) == [a[0].0];
  }

  /** Dropping the keys of two reorderings of one another leaves two reorderings. */
  lemma {:induction false} UntagMultiset<T>(a: seq<(T, nat)>, b: seq<(T, nat)>)
    requires multiset(a) == multiset(b)
    ensures multiset(Untag(a)) == multiset(Untag(b))
    decreases |a|
  {
    if a != [] {
      var j := PositionOf(b, a[0]);
      var b' := b[..j] + b[j + 1..];
      MultisetRemove(b, j);
      assert a == [a[0]] + a[1..];
      MultisetCancel(multiset(a[1..]), multiset(b'), multiset(a), a[0]);
      UntagMultiset(a[1..], b');
      UntagCons(a);
      UntagRemove(b, j);
    }
  }

  /** The sections come in import order: the keys of the processed names never decrease. */
  lemma ImportOrderSorted(items: Dict<Value>, i: nat, j: nat)
    requires ImportOrder(items).Ok?
    requires i < j < |ImportOrder(items).value|
    ensures SortKey(ImportOrder(items).value[i].0).Ok? && SortKey(ImportOrder(items).value[j].0).Ok?
    ensures SortKey(ImportOrder(items).value[i].0).value <= SortKey(ImportOrder(items).value[j].0).value
  {
    var t := Tagged(items).value;
    TaggedKeys(items);
    var s := SortByKey(t, |ImportHeaders()|);
    SortByKeySorted(t, |ImportHeaders()|);
    SortFromMembers(t, 0, |ImportHeaders()|);
    assert s[i] in t && s[j] in t;
  }

  /** Names with the same key keep their input order. */
  lemma ImportOrderStable(items: Dict<Value>, v: nat)
    requires Tagged(items).Ok? && v < |ImportHeaders()|
    ensures Bucket(SortByKey(Tagged(items).value, |ImportHeaders()|), v) == Bucket(Tagged(items).value, v)
  {
    SortByKeyStable(Tagged(items).value, |ImportHeaders()|, v);
  }

  /** `Cloud_Settings` is processed after every other known section except `Cloud_Data`. */
  lemma CloudSettingsProcessedLast(items: Dict<Value>, i: nat, j: nat)
    requires ImportOrder(items).Ok?
    requires i < j < |ImportOrder(items).value|
    requires StrippedSectionName(ImportOrder(items).value[i].0) == "cloud_settings"
    ensures StrippedSectionName(ImportOrder(items).value[j].0) in {"cloud_settings", "cloud_data"}
  {
    var r := ImportOrder(items).value;
    ImportOrderSorted(items, i, j);
    var x := StrippedSectionName(r[j].0);
    ImportHeadersEndWithCloudPair();
    if x != "cloud_settings" && x != "cloud_data" {
      CloudSectionsSortLast(x);
    }
  }

  /** `has_cloud_data_section` */
  predicate HasCloudData(items: Dict<Value>) {
    exists i :: 0 <= i < |items| && StrippedSectionName(items[i].0) == "cloud_data"
  }
}
