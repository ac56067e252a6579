/**
 * Generic facts about sequences used throughout the model: order-preserving
 * filtering (Python list comprehensions with an `if`), concatenating maps,
 * first occurrences, and grouping by a key in first-occurrence order
 * (what an insertion-ordered Python dict of lists produces).
 */
module Seqs {

  /** `a` can be obtained from `b` by deleting elements; the rest keep their order. */
  predicate IsSubsequence<T(==)>(a: seq<T>, b: seq<T>)
    decreases |b|
  {
    a == [] ||
    (b != [] && ((a[0] == b[0] && IsSubsequence(a[1..], b[1..])) || IsSubsequence(a, b[1..])))
  }

  /** The elements of `s` that satisfy `p`, in their original order. */
  function Filter<T(==)>(s: seq<T>, p: T -> bool): (r: seq<T>)
    ensures |r| <= |s|
    ensures IsSubsequence(r, s)
    ensures forall x :: x in r ==> x in s && p(x)
    ensures forall x :: x in s && p(x) ==> x in r
  {
    if s == [] then []
    else if p(s[0]) then [s[0]] + Filter(s[1..], p)
    else Filter(s[1..], p)
  }

  lemma {:induction false} FilterAppend<T>(a: seq<T>, b: seq<T>, p: T -> bool)
    ensures Filter(a + b, p) == Filter(a, p) + Filter(b, p)
  {
    if a == [] {
      assert a + b == b;
    } else {
      assert (a + b)[1..] == a[1..] + b;
      FilterAppend(a[1..], b, p);
    }
  }

  lemma FilterSnoc<T>(a: seq<T>, x: T, p: T -> bool)
    ensures Filter(a + [x], p) == Filter(a, p) + (if p(x) then [x] else [])
  {
    FilterAppend(a, [x], p);
    assert Filter([x], p) == (if p(x) then [x] else []) by {
      assert [x][1..] == [];
    }
  }

  /** Filtering keeps everything when every element qualifies. */
  lemma {:induction false} FilterAll<T>(s: seq<T>, p: T -> bool)
    requires forall x :: x in s ==> p(x)
    ensures Filter(s, p) == s
  {
    if s != [] {
      FilterAll(s[1..], p);
    }
  }

  /** Filtering keeps nothing when no element qualifies. */
  lemma {:induction false} FilterNone<T>(s: seq<T>, p: T -> bool)
    requires forall x :: x in s ==> !p(x)
    ensures Filter(s, p) == []
  {
    if s != [] {
      FilterNone(s[1..], p);
    }
  }

  /** Mapping each element to a sequence and concatenating the results. */
  function FlatMap<T, U>(s: seq<T>, f: T -> seq<U>): seq<U>
  {
    if s == [] then [] else f(s[0]) + FlatMap(s[1..], f)
  }

  lemma {:induction false} FlatMapAppend<T, U>(a: seq<T>, b: seq<T>, f: T -> seq<U>)
    ensures FlatMap(a + b, f) == FlatMap(a, f) + FlatMap(b, f)
  {
    if a == [] {
      assert a + b == b;
    } else {
      assert (a + b)[1..] == a[1..] + b;
      FlatMapAppend(a[1..], b, f);
    }
  }

  lemma FlatMapSnoc<T, U>(a: seq<T>, x: T, f: T -> seq<U>)
    ensures FlatMap(a + [x], f) == FlatMap(a, f) + f(x)
  {
    FlatMapAppend(a, [x], f);
    assert FlatMap([x], f) == f(x) by {
      assert [x][1..] == [];
    }
  }

  /** `acc` followed by the images of the elements of `s`, appended one at a time. */
  function AppendAll<T, U>(acc: seq<U>, s: seq<T>, f: T -> seq<U>): seq<U>
  {
    if s == [] then acc else AppendAll(acc, s[..|s| - 1], f) + f(s[|s| - 1])
  }

  lemma {:induction false} AppendAllIsFlatMap<T, U>(acc: seq<U>, s: seq<T>, f: T -> seq<U>)
    ensures AppendAll(acc, s, f) == acc + FlatMap(s, f)
  {
    if s != [] {
      var init, x := s[..|s| - 1], s[|s| - 1];
      AppendAllIsFlatMap(acc, init, f);
      assert s == init + [x];
      FlatMapSnoc(init, x, f);
    }
  }

  /** Images that the predicate rejects everywhere contribute nothing to the filter. */
  lemma {:induction false} FilterAppendAll<T, U>(acc: seq<U>, s: seq<T>, f: T -> seq<U>, p: U -> bool)
    requires forall x :: x in s ==> Filter(f(x), p) == []
    ensures Filter(AppendAll(acc, s, f), p) == Filter(acc, p)
  {
    if s != [] {
      var init := s[..|s| - 1];
      assert forall x :: x in init ==> x in s;
      FilterAppendAll(acc, init, f, p);
      FilterAppend(AppendAll(acc, init, f), f(s[|s| - 1]), p);
    }
  }

  lemma FilterFlatMapNone<T, U>(s: seq<T>, f: T -> seq<U>, p: U -> bool)
    requires forall x :: x in s ==> Filter(f(x), p) == []
    ensures Filter(FlatMap(s, f), p) == []
  {
    AppendAllIsFlatMap([], s, f);
    FilterAppendAll([], s, f, p);
    assert [] + FlatMap(s, f) == FlatMap(s, f);
  }

  /** Every element of a concatenation comes from the image of one element. */
  lemma {:induction false} FlatMapMember<T, U>(s: seq<T>, f: T -> seq<U>, y: U)
    requires y in FlatMap(s, f)
    ensures exists x :: x in s && y in f(x)
  {
    if y in f(s[0]) {
      assert s[0] in s;
    } else {
      FlatMapMember(s[1..], f, y);
      var x :| x in s[1..] && y in f(x);
      assert x in s;
    }
  }

  /** Every line of an element's image is in the concatenation. */
  lemma {:induction false} FlatMapContains<T, U>(s: seq<T>, f: T -> seq<U>, x: T, y: U)
    requires x in s && y in f(x)
    ensures y in FlatMap(s, f)
  {
    if s[0] != x {
      FlatMapContains(s[1..], f, x, y);
    }
  }

  function NoDuplicates<T(==)>(s: seq<T>): bool
  {
    forall i, j :: 0 <= i < j < |s| ==> s[i] != s[j]
  }

  /** The index of the first occurrence of `x` in `s`. */
  function FirstIndex<T(==)>(s: seq<T>, x: T): (r: nat)
    requires x in s
    ensures r < |s| && s[r] == x && x !in s[..r]
  {
    if s[0] == x then 0
    else
      var r := 1 + FirstIndex(s[1..], x);
      assert s[..r] == [s[0]] + s[1..][..r - 1];
      r
  }

  lemma FirstIndexUnique<T>(s: seq<T>, x: T, i: nat)
    requires i < |s| && s[i] == x && x !in s[..i]
    ensures FirstIndex(s, x) == i
  {
    var r := FirstIndex(s, x);
    assert s[..i] == s[..i] && s[..r] == s[..r];
  }

  lemma FirstIndexSnoc<T>(s: seq<T>, y: T, x: T)
    requires x in s
    ensures FirstIndex(s + [y], x) == FirstIndex(s, x)
  {
    var i := FirstIndex(s, x);
    assert (s + [y])[..i] == s[..i];
    FirstIndexUnique(s + [y], x, i);
  }

  /** The distinct elements of `s`, each at the place where it first occurs. */
  function Distinct<T(==)>(s: seq<T>): seq<T>
  {
    if s == [] then []
    else
      var init := s[..|s| - 1];
      var d := Distinct(init);
      if s[|s| - 1] in init then d else d + [s[|s| - 1]]
  }

  lemma {:induction false} DistinctMembers<T>(s: seq<T>)
    ensures forall x :: x in Distinct(s) ==> x in s
    ensures forall x :: x in s ==> x in Distinct(s)
    ensures NoDuplicates(Distinct(s))
  {
    if s != [] {
      var init := s[..|s| - 1];
      DistinctMembers(init);
      assert s == init + [s[|s| - 1]];
    }
  }

  lemma DistinctSnoc<T>(s: seq<T>, x: T)
    ensures Distinct(s + [x]) == if x in s then Distinct(s) else Distinct(s) + [x]
  {
    assert (s + [x])[..|s + [x]| - 1] == s;
  }

  /** The distinct elements come in the order of their first occurrences. */
  lemma {:induction false} DistinctInFirstOccurrenceOrder<T>(s: seq<T>)
    ensures forall x :: x in Distinct(s) ==> x in s
    ensures forall i, j :: 0 <= i < j < |Distinct(s)| ==>
      FirstIndex(s, Distinct(s)[i]) < FirstIndex(s, Distinct(s)[j])
  {
    DistinctMembers(s);
    if s != [] {
      var init, x := s[..|s| - 1], s[|s| - 1];
      assert s == init + [x];
      DistinctInFirstOccurrenceOrder(init);
      DistinctMembers(init);
      var d := Distinct(init);
      forall y | y in init
        ensures FirstIndex(s, y) == FirstIndex(init, y)
      {
        FirstIndexSnoc(init, x, y);
      }
      if x !in init {
        assert s[..|init|] == init;
        FirstIndexUnique(s, x, |init|);
        forall i | 0 <= i < |d|
          ensures FirstIndex(s, d[i]) < FirstIndex(s, x)
        {
          assert d[i] in init;
        }
      }
    }
  }

  /** The elements of `items` whose key is `k`, in order. */
  function Group<T(==), K(==)>(items: seq<T>, key: T -> K, k: K): seq<T>
  {
    Filter(items, x => key(x) == k)
  }

  /** One more item joins the group of its own key and no other. */
  lemma GroupSnoc<T, K>(items: seq<T>, x: T, key: T -> K, k: K)
    ensures Group(items + [x], key, k) == Group(items, key, k) + (if key(x) == k then [x] else [])
  {
    FilterSnoc(items, x, y => key(y) == k);
  }

  /** Items of other keys do not change a group. */
  lemma GroupAppendOther<T, K>(items: seq<T>, extra: seq<T>, key: T -> K, k: K)
    requires forall x :: x in extra ==> key(x) != k
    ensures Group(items + extra, key, k) == Group(items, key, k)
  {
    FilterAppend(items, extra, y => key(y) == k);
    FilterNone(extra, y => key(y) == k);
  }

  /** A key no item carries has an empty group. */
  lemma GroupAbsent<T, K>(items: seq<T>, key: T -> K, k: K)
    requires k !in Keys(items, key)
    ensures Group(items, key, k) == []
  {
    forall y | y in items ensures key(y) != k {
      var i :| 0 <= i < |items| && items[i] == y;
      assert Keys(items, key)[i] == key(y);
    }
    FilterNone(items, y => key(y) == k);
  }

  /** The key of every item, in order. */
  function Keys<T, K>(items: seq<T>, key: T -> K): (ks: seq<K>)
    ensures |ks| == |items|
  {
    seq(|items|, i requires 0 <= i < |items| => key(items[i]))
  }

  /** The groups of `items` for the keys `ks`, concatenated in that order. */
  function GroupsConcat<T(==), K(==)>(ks: seq<K>, items: seq<T>, key: T -> K): seq<T>
  {
    if ks == [] then [] else Group(items, key, ks[0]) + GroupsConcat(ks[1..], items, key)
  }

  lemma {:induction false} GroupsConcatAppend<T, K>(a: seq<K>, b: seq<K>, items: seq<T>, key: T -> K)
    ensures GroupsConcat(a + b, items, key) == GroupsConcat(a, items, key) + GroupsConcat(b, items, key)
  {
    if a == [] {
      assert a + b == b;
    } else {
      var g := Group(items, key, a[0]);
      assert (a + b)[0] == a[0];
      assert (a + b)[1..] == a[1..] + b;
      GroupsConcatAppend(a[1..], b, items, key);
      var rest, tail := GroupsConcat(a[1..], items, key), GroupsConcat(b, items, key);
      assert GroupsConcat(a + b, items, key) == g + (rest + tail);
      assert g + (rest + tail) == (g + rest) + tail;
    }
  }

  lemma {:induction false} GroupsConcatSnocOther<T, K>(ks: seq<K>, items: seq<T>, key: T -> K, x: T)
    requires key(x) !in ks
    ensures GroupsConcat(ks, items + [x], key) == GroupsConcat(ks, items, key)
  {
    if ks != [] {
      GroupSnoc(items, x, key, ks[0]);
      GroupsConcatSnocOther(ks[1..], items, key, x);
    }
  }

  lemma {:induction false} GroupsConcatSnocIn<T, K>(ks: seq<K>, items: seq<T>, key: T -> K, x: T)
    requires key(x) in ks && NoDuplicates(ks)
    ensures multiset(GroupsConcat(ks, items + [x], key)) == multiset(GroupsConcat(ks, items, key)) + multiset{x}
  {
    GroupSnoc(items, x, key, ks[0]);
    if ks[0] == key(x) {
      assert key(x) !in ks[1..];
      GroupsConcatSnocOther(ks[1..], items, key, x);
    } else {
      assert NoDuplicates(ks[1..]) by {
        forall i, j | 0 <= i < j < |ks[1..]| ensures ks[1..][i] != ks[1..][j] {
          assert ks[i + 1] != ks[j + 1];
        }
      }
      GroupsConcatSnocIn(ks[1..], items, key, x);
    }
  }

  /** An item whose key is new forms a group of its own. */
  lemma NewKeyGroup<T, K>(init: seq<T>, x: T, key: T -> K)
    requires key(x) !in Keys(init, key)
    ensures GroupsConcat([key(x)], init + [x], key) == [x]
  {
    GroupAbsent(init, key, key(x));
    GroupSnoc(init, x, key, key(x));
    assert GroupsConcat([key(x)], init + [x], key) == Group(init + [x], key, key(x)) + GroupsConcat([], init + [x], key);
  }

  /**
   * Grouping loses and duplicates nothing: the groups, concatenated in
   * first-occurrence order of their keys, are a permutation of the items.
   */
  lemma {:induction false} GroupsArePartition<T, K>(items: seq<T>, key: T -> K)
    ensures multiset(GroupsConcat(Distinct(Keys(items, key)), items, key)) == multiset(items)
  {
    if items != [] {
      var init, x := items[..|items| - 1], items[|items| - 1];
      assert items == init + [x];
      GroupsArePartition(init, key);
      var ks := Keys(init, key);
      assert Keys(items, key) == ks + [key(x)];
      DistinctSnoc(ks, key(x));
      DistinctMembers(ks);
      var d := Distinct(ks);
      if key(x) in ks {
        GroupsConcatSnocIn(d, init, key, x);
      } else {
        GroupsConcatSnocOther(d, init, key, x);
        GroupsConcatAppend(d, [key(x)], items, key);
        NewKeyGroup(init, x, key);
      }
    }
  }
}
