/** The order in which uploaded images enter the report. The upload list is
    sorted in place with Python's `list.sort(key=...)`, which is stable: items
    with equal keys keep the order they had before the sort. The sort here
    takes the key function as a parameter, as `list.sort` does; the report
    uses it with `FileKey`. */
module UploadOrder {
  import opened SortKey
  import opened Images

  /** The key the upload list is sorted by: `lambda f: extract_number(f.name)`. */
  function FileKey(f: UploadedFile): (r: Option<nat>)
    ensures r.None? <==> NoDigit(f.name)
    ensures r.Some? ==>
      exists i, j :: FirstMaximalRun(f.name, i, j) && AllDigits(f.name[i..j]) && r.value == DecimalValue(f.name[i..j])
  {
    ExtractNumber(f.name)
  }

  ghost predicate SortedByKey<T>(s: seq<T>, key: T -> Option<nat>) {
    forall p, q :: 0 <= p < q < |s| ==> KeyLe(key(s[p]), key(s[q]))
  }

  /** The items of `s` whose key is `k`, in their order in `s`. */
  function WithKey<T>(s: seq<T>, key: T -> Option<nat>, k: Option<nat>): seq<T> {
    if s == [] then []
    else WithKey(s[..|s| - 1], key, k) + (if key(s[|s| - 1]) == k then [s[|s| - 1]] else [])
  }

  /** Stability: for every key, the items carrying it appear in `b` in the
      same relative order as in `a`. */
  ghost predicate SameOrderPerKey<T>(a: seq<T>, b: seq<T>, key: T -> Option<nat>) {
    forall k :: WithKey(a, key, k) == WithKey(b, key, k)
  }

  lemma {:induction false} WithKeyConcat<T>(a: seq<T>, b: seq<T>, key: T -> Option<nat>, k: Option<nat>)
    ensures WithKey(a + b, key, k) == WithKey(a, key, k) + WithKey(b, key, k)
  {
    if b == [] {
      assert a + b == a;
    } else {
      var b' := b[..|b| - 1];
      assert (a + b)[..|a + b| - 1] == a + b';
      WithKeyConcat(a, b', key, k);
    }
  }

  lemma PairSwap<T>(x: T, y: T, key: T -> Option<nat>, k: Option<nat>)
    requires key(x) != key(y)
    ensures WithKey([x, y], key, k) == WithKey([y, x], key, k)
  {
  }

  /** Exchanging two neighbours whose keys differ keeps the order per key:
      this is the only step the sort below takes. */
  lemma SwapDistinctKeysKeepsOrder<T>(s: seq<T>, j: int, key: T -> Option<nat>)
    requires 0 < j < |s| && key(s[j - 1]) != key(s[j])
    ensures SameOrderPerKey(s, s[j - 1 := s[j]][j := s[j - 1]], key)
  {
    var t := s[j - 1 := s[j]][j := s[j - 1]];
    var pre, x, y, post := s[..j - 1], s[j - 1], s[j], s[j + 1..];
    assert s == pre + [x, y] + post;
    assert t == pre + [y, x] + post;
    forall k ensures WithKey(s, key, k) == WithKey(t, key, k) {
      WithKeyConcat(pre + [x, y], post, key, k);
      WithKeyConcat(pre + [y, x], post, key, k);
      WithKeyConcat(pre, [x, y], key, k);
      WithKeyConcat(pre, [y, x], key, k);
      PairSwap(x, y, key, k);
    }
  }

  /** An item occurs as often among the items with its own key as in the whole list. */
  lemma {:induction false} WithOwnKeyCount<T>(s: seq<T>, key: T -> Option<nat>, f: T)
    ensures multiset(WithKey(s, key, key(f)))[f] == multiset(s)[f]
  {
    if s != [] {
      var s' := s[..|s| - 1];
      assert s == s' + [s[|s| - 1]];
      WithOwnKeyCount(s', key, f);
    }
  }

  /** Keeping the order per key is a stronger statement than being a
      permutation: the sorted list holds exactly the items it started with. */
  lemma SameOrderPerKeyIsPermutation<T>(a: seq<T>, b: seq<T>, key: T -> Option<nat>)
    requires SameOrderPerKey(a, b, key)
    ensures multiset(a) == multiset(b)
  {
    forall f ensures multiset(a)[f] == multiset(b)[f] {
      WithOwnKeyCount(a, key, f);
      WithOwnKeyCount(b, key, f);
      assert WithKey(a, key, key(f)) == WithKey(b, key, key(f));
    }
  }

  /** In a list of files sorted by `FileKey`, every file whose name has no
      digit comes after every file whose name has one. */
  lemma NoDigitFilesLast(s: seq<UploadedFile>)
    requires SortedByKey(s, FileKey)
    ensures forall p, q :: 0 <= p < q < |s| && NoDigit(s[p].name) ==> NoDigit(s[q].name)
  {
  }

  /** `list.sort(key=key)`: a stable in-place sort. It is an insertion sort
      that moves each item left past the items with a strictly greater key,
      so items with equal keys are never exchanged. */
  method SortByKey<T>(a: array<T>, key: T -> Option<nat>)
    modifies a
    ensures SortedByKey(a[..], key)
    ensures SameOrderPerKey(old(a[..]), a[..], key)
    ensures multiset(a[..]) == multiset(old(a[..]))
  {
    var i := 0;
    while i < a.Length
      invariant 0 <= i <= a.Length
      invariant SortedByKey(a[..i], key)
      invariant SameOrderPerKey(old(a[..]), a[..], key)
    {
      InsertIntoSortedPrefix(a, i, key);
      i := i + 1;
    }
    assert a[..] == a[..a.Length];
    SameOrderPerKeyIsPermutation(old(a[..]), a[..], key);
  }

  /** One pass of the insertion sort: moves `a[i]` left into the sorted prefix `a[..i]`. */
  method InsertIntoSortedPrefix<T>(a: array<T>, i: int, key: T -> Option<nat>)
    requires 0 <= i < a.Length && SortedByKey(a[..i], key)
    modifies a
    ensures SortedByKey(a[..i + 1], key)
    ensures forall q :: i < q < a.Length ==> a[q] == old(a[q])
    ensures SameOrderPerKey(old(a[..]), a[..], key)
  {
    var j := i;
    while j > 0 && !KeyLe(key(a[j - 1]), key(a[j]))
      invariant 0 <= j <= i
      invariant forall p, q :: 0 <= p < q <= i && p != j && q != j ==> KeyLe(key(a[p]), key(a[q]))
      invariant forall q :: j < q <= i ==> KeyLe(key(a[j]), key(a[q]))
      invariant forall q :: i < q < a.Length ==> a[q] == old(a[q])
      invariant SameOrderPerKey(old(a[..]), a[..], key)
    {
      ghost var before := a[..];
      SwapDistinctKeysKeepsOrder(before, j, key);
      a[j - 1], a[j] := a[j], a[j - 1];
      assert a[..] == before[j - 1 := before[j]][j := before[j - 1]];
      j := j - 1;
    }
  }
}
