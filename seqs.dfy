/** The array operations the record stores are built from: findIndex, find, filter and a
    sort by a key. */
module Seqs {
  import opened Common
  import Text

  /** `findIndex`: the first position whose element satisfies p (None stands for -1). */
  function FindIndex<T>(s: seq<T>, p: T -> bool): (r: Option<nat>)
    ensures r.None? <==> forall i :: 0 <= i < |s| ==> !p(s[i])
    ensures r.Some? ==> r.value < |s| && p(s[r.value])
    ensures r.Some? ==> forall j :: 0 <= j < r.value ==> !p(s[j])
  {
    if s == [] then None
    else if p(s[0]) then Some(0)
    else match FindIndex(s[1..], p)
      case None => None
      case Some(k) => Some(k + 1)
  }

  /** `find(p) || null`: the first element satisfying p. */
  function Find<T>(s: seq<T>, p: T -> bool): (r: Option<T>)
    ensures r.None? <==> forall i :: 0 <= i < |s| ==> !p(s[i])
    ensures r.Some? ==> exists i :: 0 <= i < |s| && s[i] == r.value && p(r.value)
                                    && forall j :: 0 <= j < i ==> !p(s[j])
  {
    match FindIndex(s, p)
    case None => None
    case Some(i) => Some(s[i])
  }

  /** r can be obtained from s by deleting elements: the elements of r appear in s in the same order. */
  predicate IsSubsequence<T(==)>(r: seq<T>, s: seq<T>)
    decreases |s|
  {
    if r == [] then true
    else if s == [] then false
    else if r[0] == s[0] then IsSubsequence(r[1..], s[1..])
    else IsSubsequence(r, s[1..])
  }

  /** `filter(p)`: the elements satisfying p, in their original order. */
  function Filter<T(==)>(s: seq<T>, p: T -> bool): (r: seq<T>)
    ensures |r| <= |s|
    ensures forall i :: 0 <= i < |r| ==> p(r[i])
    ensures forall i :: 0 <= i < |r| ==> r[i] in s
    ensures forall i :: 0 <= i < |s| && p(s[i]) ==> s[i] in r
    ensures IsSubsequence(r, s)
  {
    if s == [] then []
    else if p(s[0]) then
      var rest := Filter(s[1..], p);
      assert ([s[0]] + rest)[1..] == rest;
      [s[0]] + rest
    else
      Filter(s[1..], p)
  }

  /** A filter keeps each matching value as many times as it occurs, and no other value. */
  lemma {:induction false} FilterCounts<T>(s: seq<T>, p: T -> bool, x: T)
    ensures multiset(Filter(s, p))[x] == if p(x) then multiset(s)[x] else 0
  {
    if s != [] {
      var t := s[1..];
      FilterCounts(t, p, x);
      assert s == [s[0]] + t;
      if p(s[0]) {
        assert Filter(s, p) == [s[0]] + Filter(t, p);
      } else {
        assert Filter(s, p) == Filter(t, p);
      }
    }
  }

  /** Filtering distributes over concatenation. */
  lemma {:induction false} FilterAppend<T>(a: seq<T>, b: seq<T>, p: T -> bool)
    ensures Filter(a + b, p) == Filter(a, p) + Filter(b, p)
  {
    if a == [] {
      assert a + b == b;
    } else {
      assert (a + b)[0] == a[0];
      assert (a + b)[1..] == a[1..] + b;
      FilterAppend(a[1..], b, p);
    }
  }

  /** A filter keeps the whole sequence exactly when every element passes; it is shorter as soon
      as one element fails. */
  lemma {:induction false} FilterKeepsAll<T>(s: seq<T>, p: T -> bool)
    ensures |Filter(s, p)| == |s| <==> forall i :: 0 <= i < |s| ==> p(s[i])
    ensures (forall i :: 0 <= i < |s| ==> p(s[i])) ==> Filter(s, p) == s
  {
    if s != [] {
      var t := s[1..];
      FilterKeepsAll(t, p);
      if p(s[0]) {
        assert Filter(s, p) == [s[0]] + Filter(t, p);
        assert s == [s[0]] + t;
        forall i | 0 < i < |s| ensures p(s[i]) == p(t[i - 1]) {
          assert s[i] == t[i - 1];
        }
      } else {
        assert Filter(s, p) == Filter(t, p);
      }
    }
  }

  // ---------------------------------------------------------------- sorting

  datatype Order = Ascending | Descending

  /** a may come before b: their keys compare with JavaScript's string `<=`, in the given direction. */
  predicate Before<T>(key: T -> string, order: Order, a: T, b: T)
  {
    match order
    case Ascending => Text.StrLe(key(a), key(b))
    case Descending => Text.StrLe(key(b), key(a))
  }

  lemma BeforeTotal<T>(key: T -> string, order: Order, a: T, b: T)
    ensures Before(key, order, a, b) || Before(key, order, b, a)
  {
    Text.StrLeTotal(key(a), key(b));
  }

  lemma BeforeTransitive<T>(key: T -> string, order: Order, a: T, b: T, c: T)
    requires Before(key, order, a, b) && Before(key, order, b, c)
    ensures Before(key, order, a, c)
  {
    match order
    case Ascending => Text.StrLeTransitive(key(a), key(b), key(c));
    case Descending => Text.StrLeTransitive(key(c), key(b), key(a));
  }

  predicate SortedBy<T>(s: seq<T>, key: T -> string, order: Order)
  {
    forall i, j :: 0 <= i < j < |s| ==> Before(key, order, s[i], s[j])
  }

  /** Every element of a sorted sequence's first k may come before every element left out. */
  lemma PrefixComesFirst<T>(s: seq<T>, k: nat, key: T -> string, order: Order)
    requires SortedBy(s, key, order) && k <= |s|
    ensures forall i, x :: 0 <= i < k && x in multiset(s) - multiset(s[..k]) ==> Before(key, order, s[i], x)
  {
    assert s == s[..k] + s[k..];
    forall i, x | 0 <= i < k && x in multiset(s) - multiset(s[..k])
      ensures Before(key, order, s[i], x)
    {
      assert x in multiset(s[k..]);
      var j :| 0 <= j < |s[k..]| && s[k..][j] == x;
      assert s[k + j] == x;
    }
  }

  /** Putting an element that may precede every element in front of a sorted sequence keeps it sorted. */
  lemma ConsSorted<T>(y: T, s: seq<T>, key: T -> string, order: Order)
    requires SortedBy(s, key, order)
    requires forall j :: 0 <= j < |s| ==> Before(key, order, y, s[j])
    ensures SortedBy([y] + s, key, order)
  {
    var r := [y] + s;
    forall i, j | 0 <= i < j < |r| ensures Before(key, order, r[i], r[j]) {
      assert r[j] == s[j - 1];
      if i > 0 {
        assert r[i] == s[i - 1];
      }
    }
  }

  /** An element that may precede a sorted sequence's head may precede all of it. */
  lemma BeforeHead<T>(y: T, s: seq<T>, key: T -> string, order: Order)
    requires SortedBy(s, key, order) && s != [] && Before(key, order, y, s[0])
    ensures forall j :: 0 <= j < |s| ==> Before(key, order, y, s[j])
  {
    forall j | 0 < j < |s| ensures Before(key, order, y, s[j]) {
      BeforeTransitive(key, order, y, s[0], s[j]);
    }
  }

  /** The head of a sorted sequence may precede every element of a rearrangement of its tail and x,
      when it may precede x. */
  lemma HeadBeforeRest<T>(s: seq<T>, x: T, tail: seq<T>, key: T -> string, order: Order)
    requires SortedBy(s, key, order) && s != [] && Before(key, order, s[0], x)
    requires multiset(tail) == multiset(s[1..]) + multiset{x}
    ensures forall j :: 0 <= j < |tail| ==> Before(key, order, s[0], tail[j])
  {
    forall j | 0 <= j < |tail| ensures Before(key, order, s[0], tail[j]) {
      var y := tail[j];
      assert y in multiset(tail);
      if y != x {
        assert y in multiset(s[1..]);
        var k :| 0 <= k < |s[1..]| && s[1..][k] == y;
        assert s[k + 1] == y;
      }
    }
  }

  /** Inserts x ahead of the first element it may precede. */
  function Insert<T>(x: T, s: seq<T>, key: T -> string, order: Order): (r: seq<T>)
    requires SortedBy(s, key, order)
    ensures SortedBy(r, key, order)
    ensures multiset(r) == multiset(s) + multiset{x}
  {
    if s == [] then [x]
    else if Before(key, order, x, s[0]) then
      BeforeHead(x, s, key, order);
      ConsSorted(x, s, key, order);
      [x] + s
    else
      BeforeTotal(key, order, x, s[0]);
      var tail := Insert(x, s[1..], key, order);
      assert s == [s[0]] + s[1..];
      HeadBeforeRest(s, x, tail, key, order);
      ConsSorted(s[0], tail, key, order);
      [s[0]] + tail
  }

  /** A sort by key: `sort((a, b) => ...)` with a comparator that compares keys. */
  function SortBy<T>(s: seq<T>, key: T -> string, order: Order): (r: seq<T>)
    ensures SortedBy(r, key, order)
    ensures multiset(r) == multiset(s)
    ensures |r| == |s|
  {
    if s == [] then []
    else
      assert s == [s[0]] + s[1..];
      Insert(s[0], SortBy(s[1..], key, order), key, order)
  }
}
