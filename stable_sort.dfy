/** Python's `sorted(xs, key=...)` for keys drawn from `0 .. n - 1`: a stable sort, written
    as the concatenation of the key buckets in key order. */
module StableSort {

  /** The elements of `xs` whose key is `v`, in their order in `xs`. */
  function Bucket<T>(xs: seq<(T, nat)>, v: nat): (r: seq<(T, nat)>)
    ensures |r| <= |xs|
    ensures forall i :: 0 <= i < |r| ==> r[i].1 == v
  {
    if xs == [] then []
    else if xs[0].1 == v then [xs[0]] + Bucket(xs[1..], v)
    else Bucket(xs[1..], v)
  }

  /** The elements of `xs` whose key lies in `w .. n - 1`, in their order in `xs`. */
  function Band<T>(xs: seq<(T, nat)>, w: nat, n: nat): seq<(T, nat)> {
    if xs == [] then []
    else if w <= xs[0].1 < n then [xs[0]] + Band(xs[1..], w, n)
    else Band(xs[1..], w, n)
  }

  /** The buckets `w, w + 1, .., n - 1`, one after the other. */
  function SortFrom<T>(xs: seq<(T, nat)>, w: nat, n: nat): (r: seq<(T, nat)>)
    ensures forall i :: 0 <= i < |r| ==> w <= r[i].1 < n
    decreases n - w
  {
    if w >= n then [] else Bucket(xs, w) + SortFrom(xs, w + 1, n)
  }

  /** Every element of a bucket comes from the input. */
  lemma {:induction false} BucketMembers<T>(xs: seq<(T, nat)>, v: nat)
    ensures forall i :: 0 <= i < |Bucket(xs, v)| ==> Bucket(xs, v)[i] in xs
  {
    if xs != [] {
      BucketMembers(xs[1..], v);
      assert forall y :: y in xs[1..] ==> y in xs;
    }
  }

  /** Every element of the sorted run comes from the input. */
  lemma {:induction false} SortFromMembers<T>(xs: seq<(T, nat)>, w: nat, n: nat)
    ensures forall i :: 0 <= i < |SortFrom(xs, w, n)| ==> SortFrom(xs, w, n)[i] in xs
    decreases n - w
  {
    if w < n {
      BucketMembers(xs, w);
      SortFromMembers(xs, w + 1, n);
      var b, rest := Bucket(xs, w), SortFrom(xs, w + 1, n);
      forall i | 0 <= i < |b + rest| ensures (b + rest)[i] in xs {
        if i < |b| {
          assert (b + rest)[i] == b[i];
        } else {
          assert (b + rest)[i] == rest[i - |b|];
        }
      }
    }
  }

  function SortByKey<T>(xs: seq<(T, nat)>, n: nat): seq<(T, nat)> {
    SortFrom(xs, 0, n)
  }

  predicate KeysAscend<T>(r: seq<(T, nat)>) {
    forall i, j :: 0 <= i < j < |r| ==> r[i].1 <= r[j].1
  }

  /** The keys of `SortFrom` never decrease. */
  lemma {:induction false} SortFromSorted<T>(xs: seq<(T, nat)>, w: nat, n: nat)
    ensures KeysAscend(SortFrom(xs, w, n))
    decreases n - w
  {
    if w < n {
      SortFromSorted(xs, w + 1, n);
      var b, rest := Bucket(xs, w), SortFrom(xs, w + 1, n);
      var r := b + rest;
      assert SortFrom(xs, w, n) == r;
      forall i, j | 0 <= i < j < |r| ensures r[i].1 <= r[j].1 {
        if j < |b| {
          assert r[i] == b[i] && r[j] == b[j];
        } else if i < |b| {
          assert r[i] == b[i] && r[j] == rest[j - |b|];
        } else {
          assert r[i] == rest[i - |b|] && r[j] == rest[j - |b|];
        }
      }
    }
  }

  /** A band splits into its first bucket and the rest of the band. */
  lemma {:induction false} BandSplit<T>(xs: seq<(T, nat)>, w: nat, n: nat)
    requires w < n
    ensures multiset(Band(xs, w, n)) == multiset(Bucket(xs, w)) + multiset(Band(xs, w + 1, n))
  {
    if xs != [] {
      BandSplit(xs[1..], w, n);
    }
  }

  lemma {:induction false} SortFromBand<T>(xs: seq<(T, nat)>, w: nat, n: nat)
    ensures multiset(SortFrom(xs, w, n)) == multiset(Band(xs, w, n))
    decreases n - w
  {
    if w < n {
      SortFromBand(xs, w + 1, n);
      BandSplit(xs, w, n);
    } else {
      BandEmpty(xs, w, n);
    }
  }

  lemma {:induction false} BandEmpty<T>(xs: seq<(T, nat)>, w: nat, n: nat)
    requires w >= n
    ensures Band(xs, w, n) == []
  {
    if xs != [] {
      BandEmpty(xs[1..], w, n);
    }
  }

  /** When every key is below `n`, the full band is the whole sequence. */
  lemma {:induction false} BandAll<T>(xs: seq<(T, nat)>, n: nat)
    requires forall i :: 0 <= i < |xs| ==> xs[i].1 < n
    ensures Band(xs, 0, n) == xs
  {
    if xs != [] {
      assert forall i :: 0 <= i < |xs[1..]| ==> xs[1..][i] == xs[i + 1];
      BandAll(xs[1..], n);
    }
  }

  /** The sort reorders: it keeps every element as often as it occurs. */
  lemma SortByKeyPermutes<T>(xs: seq<(T, nat)>, n: nat)
    requires forall i :: 0 <= i < |xs| ==> xs[i].1 < n
    ensures multiset(SortByKey(xs, n)) == multiset(xs)
  {
    SortFromBand(xs, 0, n);
    BandAll(xs, n);
  }

  /** The sort orders by key. */
  lemma SortByKeySorted<T>(xs: seq<(T, nat)>, n: nat)
    ensures KeysAscend(SortByKey(xs, n))
  {
    SortFromSorted(xs, 0, n);
  }

  lemma {:induction false} BucketAppend<T>(a: seq<(T, nat)>, b: seq<(T, nat)>, v: nat)
    ensures Bucket(a + b, v) == Bucket(a, v) + Bucket(b, v)
  {
    if a != [] {
      assert (a + b)[0] == a[0];
      assert (a + b)[1..] == a[1..] + b;
      BucketAppend(a[1..], b, v);
    } else {
      assert a + b == b;
    }
  }

  lemma {:induction false} BucketOfBucket<T>(xs: seq<(T, nat)>, w: nat, v: nat)
    ensures Bucket(Bucket(xs, w), v) == if w == v then Bucket(xs, w) else []
  {
    if xs != [] {
      BucketOfBucket(xs[1..], w, v);
      if xs[0].1 == w {
        var t := [xs[0]] + Bucket(xs[1..], w);
        assert t[0] == xs[0] && t[1..] == Bucket(xs[1..], w);
      }
    }
  }

  lemma {:induction false} BucketOfSortFrom<T>(xs: seq<(T, nat)>, w: nat, n: nat, v: nat)
    ensures Bucket(SortFrom(xs, w, n), v) == if w <= v < n then Bucket(xs, v) else []
    decreases n - w
  {
    if w < n {
      BucketAppend(Bucket(xs, w), SortFrom(xs, w + 1, n), v);
      BucketOfBucket(xs, w, v);
      BucketOfSortFrom(xs, w + 1, n, v);
    }
  }

  /** Stability: the elements sharing a key come out in the order they went in. */
  lemma SortByKeyStable<T>(xs: seq<(T, nat)>, n: nat, v: nat)
    requires v < n
    ensures Bucket(SortByKey(xs, n), v) == Bucket(xs, v)
  {
    BucketOfSortFrom(xs, 0, n, v);
  }
  lemma {:induction false} SortFromEmpty<T>(w: nat, n: nat)
    ensures SortFrom<T>([], w, n) == []
    decreases n - w
  {
    if w < n {
      SortFromEmpty<T>(w + 1, n);
    }
  }

  lemma {:induction false} BucketMissing<T>(xs: seq<(T, nat)>, v: nat)
    requires forall i :: 0 <= i < |xs| ==> xs[i].1 != v
    ensures Bucket(xs, v) == []
  {
    if xs != [] {
      BucketMissing(xs[1..], v);
    }
  }

  /** An element whose key lies below the band does not show up in it. */
  lemma {:induction false} SortFromSkips<T>(x: (T, nat), t: seq<(T, nat)>, w: nat, n: nat)
    requires x.1 < w
    ensures SortFrom([x] + t, w, n) == SortFrom(t, w, n)
    decreases n - w
  {
    if w < n {
      BucketSkips(x, t, w);
      SortFromSkips(x, t, w + 1, n);
      SortFromUnfold([x] + t, w, n);
      SortFromUnfold(t, w, n);
    }
  }

  lemma BucketSkips<T>(x: (T, nat), t: seq<(T, nat)>, v: nat)
    requires x.1 != v
    ensures Bucket([x] + t, v) == Bucket(t, v)
  {
    assert ([x] + t)[0] == x && ([x] + t)[1..] == t;
  }

  lemma TailAscends<T>(xs: seq<(T, nat)>)
    requires KeysAscend(xs) && xs != []
    ensures KeysAscend(xs[1..])
    ensures forall i :: 0 <= i < |xs| ==> xs[0].1 <= xs[i].1
  {
    var t := xs[1..];
    forall i, j | 0 <= i < j < |t| ensures t[i].1 <= t[j].1 {
      assert t[i] == xs[i + 1] && t[j] == xs[j + 1];
    }
  }

  lemma BucketHead<T>(x: (T, nat), t: seq<(T, nat)>)
    ensures Bucket([x] + t, x.1) == [x] + Bucket(t, x.1)
  {
    assert ([x] + t)[0] == x && ([x] + t)[1..] == t;
  }

  lemma SortFromUnfold<T>(xs: seq<(T, nat)>, w: nat, n: nat)
    requires w < n
    ensures SortFrom(xs, w, n) == Bucket(xs, w) + SortFrom(xs, w + 1, n)
  {
  }

  lemma HeadOfBand<T>(x: (T, nat), t: seq<(T, nat)>, w: nat, n: nat)
    requires x.1 == w < n && SortFrom(t, w, n) == t
    ensures SortFrom([x] + t, w, n) == [x] + t
  {
    SortFromSkips(x, t, w + 1, n);
    BucketHead(x, t);
    SortFromUnfold(t, w, n);
    SortFromUnfold([x] + t, w, n);
    ConsAppend(x, Bucket(t, w), SortFrom(t, w + 1, n));
  }

  lemma ConsAppend<U>(x: U, b: seq<U>, c: seq<U>)
    ensures ([x] + b) + c == [x] + (b + c)
  {
  }

  lemma {:induction false} SortFromOfSorted<T>(xs: seq<(T, nat)>, w: nat, n: nat)
    requires KeysAscend(xs)
    requires forall i :: 0 <= i < |xs| ==> w <= xs[i].1 < n
    ensures SortFrom(xs, w, n) == xs
    decreases |xs|, n - w
  {
    if xs == [] {
      SortFromEmpty<T>(w, n);
    } else {
      TailAscends(xs);
      if xs[0].1 == w {
        TailInBand(xs, w, n);
        SortFromOfSorted(xs[1..], w, n);
        HeadOfBand(xs[0], xs[1..], w, n);
        assert xs == [xs[0]] + xs[1..];
      } else {
        BucketMissing(xs, w);
        SortFromOfSorted(xs, w + 1, n);
      }
    }
  }

  lemma TailInBand<T>(xs: seq<(T, nat)>, w: nat, n: nat)
    requires xs != [] && forall i :: 0 <= i < |xs| ==> w <= xs[i].1 < n
    ensures forall i :: 0 <= i < |xs[1..]| ==> w <= xs[1..][i].1 < n
  {
    assert forall i :: 0 <= i < |xs[1..]| ==> xs[1..][i] == xs[i + 1];
  }

  /** Input that is already in key order comes out unchanged. */
  lemma SortByKeyOfSorted<T>(xs: seq<(T, nat)>, n: nat)
    requires KeysAscend(xs)
    requires forall i :: 0 <= i < |xs| ==> xs[i].1 < n
    ensures SortByKey(xs, n) == xs
  {
    SortFromOfSorted(xs, 0, n);
  }
}
