/** Pure views of the dog table: the value list of an insertion-ordered
    dictionary and the breed filter of `get_dog` (main.py:64, 66). */
module DogLists {
  import opened Models

  /** `list(d.values())` for a dictionary whose keys, in insertion order, are `ks`. */
  function ValuesOf(ks: seq<int>, m: map<int, Dog>): (r: seq<Dog>)
    requires forall i :: 0 <= i < |ks| ==> ks[i] in m
    ensures |r| == |ks|
    ensures forall i :: 0 <= i < |ks| ==> r[i] == m[ks[i]]
  {
    if ks == [] then [] else [m[ks[0]]] + ValuesOf(ks[1..], m)
  }

  /** `[dog for dog in ds if dog.kind == k]`. */
  function FilterKind(ds: seq<Dog>, k: DogType): (r: seq<Dog>)
    ensures |r| <= |ds|
    ensures forall j :: 0 <= j < |r| ==> r[j].kind == k
  {
    if ds == [] then []
    else (if ds[0].kind == k then [ds[0]] else []) + FilterKind(ds[1..], k)
  }

  /** The filter keeps exactly the dogs of breed `k`. */
  lemma {:induction false} FilterMembers(ds: seq<Dog>, k: DogType)
    ensures forall d :: d in FilterKind(ds, k) <==> d in ds && d.kind == k
  {
    if ds != [] {
      FilterMembers(ds[1..], k);
      assert ds == [ds[0]] + ds[1..];
    }
  }

  /** The filter keeps every dog of breed `k` as often as the list holds
      it, and no other dog. */
  lemma {:induction false} FilterCounts(ds: seq<Dog>, k: DogType, d: Dog)
    ensures multiset(FilterKind(ds, k))[d] == if d.kind == k then multiset(ds)[d] else 0
  {
    if ds != [] {
      FilterCounts(ds[1..], k, d);
      assert ds == [ds[0]] + ds[1..];
    }
  }

  /** The filter keeps the relative order of the list: filtering a
      concatenation concatenates the filtered parts. */
  lemma {:induction false} FilterConcat(a: seq<Dog>, b: seq<Dog>, k: DogType)
    ensures FilterKind(a + b, k) == FilterKind(a, k) + FilterKind(b, k)
  {
    if a == [] {
      assert a + b == b;
    } else {
      assert (a + b)[0] == a[0];
      assert (a + b)[1..] == a[1..] + b;
      FilterConcat(a[1..], b, k);
    }
  }

  /** Appending one dog extends the filtered list by that dog exactly when
      it has the breed asked for. */
  lemma FilterAppend(ds: seq<Dog>, d: Dog, k: DogType)
    ensures FilterKind(ds + [d], k) == FilterKind(ds, k) + (if d.kind == k then [d] else [])
  {
    FilterConcat(ds, [d], k);
    assert FilterKind([d], k) == (if d.kind == k then [d] else []) + FilterKind([], k);
  }

  /** A list whose dogs all have breed `k` passes the filter unchanged. */
  lemma {:induction false} FilterKeepsAll(ds: seq<Dog>, k: DogType)
    requires forall j :: 0 <= j < |ds| ==> ds[j].kind == k
    ensures FilterKind(ds, k) == ds
  {
    if ds != [] {
      FilterKeepsAll(ds[1..], k);
    }
  }

  /** The three breed filters partition the list: every dog appears in
      the answer for exactly one breed. */
  lemma {:induction false} FilterPartition(ds: seq<Dog>)
    ensures |FilterKind(ds, Terrier)| + |FilterKind(ds, Bulldog)| + |FilterKind(ds, Dalmatian)| == |ds|
  {
    if ds != [] {
      FilterPartition(ds[1..]);
    }
  }

  /** Replacing one entry of the list changes each filtered list only by
      the old entry leaving and the new one joining, in that position. */
  lemma {:induction false} FilterReplace(ds: seq<Dog>, i: nat, d: Dog, k: DogType)
    requires i < |ds|
    ensures FilterKind(ds[i := d], k)
         == FilterKind(ds[..i], k) + (if d.kind == k then [d] else []) + FilterKind(ds[i + 1..], k)
  {
    assert ds[i := d] == ds[..i] + [d] + ds[i + 1..];
    FilterConcat(ds[..i] + [d], ds[i + 1..], k);
    FilterAppend(ds[..i], d, k);
  }
}
