/**
 * LINQ's `OrderBy` with a real-valued key, as an insertion sort that places
 * each element after every earlier one with the same key.
 */
module Sorting {

  /** The keys of `s` never decrease. */
  predicate SortedBy<T>(s: seq<T>, key: T -> real)
  {
    forall i, j :: 0 <= i < j < |s| ==> key(s[i]) <= key(s[j])
  }

  /** Every element's key is at least `b`. */
  predicate KeysAtLeast<T>(s: seq<T>, key: T -> real, b: real)
  {
    forall k :: 0 <= k < |s| ==> b <= key(s[k])
  }

  /** `x` put into sorted `s` after every element whose key is not above its own. */
  function Insert<T>(x: T, s: seq<T>, key: T -> real): (r: seq<T>)
    ensures |r| == |s| + 1
    ensures multiset(r) == multiset(s) + multiset{x}
  {
    if s == [] then [x]
    else if key(x) < key(s[0]) then [x] + s
    else
      assert s == [s[0]] + s[1..];
      [s[0]] + Insert(x, s[1..], key)
  }

  /** Inserting an element no smaller than a bound keeps every key above the bound. */
  lemma {:induction false} InsertAtLeast<T>(x: T, s: seq<T>, key: T -> real, b: real)
    requires KeysAtLeast(s, key, b) && b <= key(x)
    ensures KeysAtLeast(Insert(x, s, key), key, b)
  {
    if s != [] && key(x) >= key(s[0]) {
      InsertAtLeast(x, s[1..], key, b);
      var r := Insert(x, s, key);
      forall k | 0 <= k < |r| ensures b <= key(r[k]) {
        if k > 0 {
          assert r[k] == Insert(x, s[1..], key)[k - 1];
        }
      }
    }
  }

  /** A sorted sequence's keys are all at least its first key. */
  lemma SortedAtLeastHead<T>(s: seq<T>, key: T -> real)
    requires SortedBy(s, key) && s != []
    ensures KeysAtLeast(s, key, key(s[0]))
  {
  }

  /** The tail of a sorted sequence is sorted and bounded below by the head. */
  lemma SortedTail<T>(s: seq<T>, key: T -> real)
    requires SortedBy(s, key) && s != []
    ensures SortedBy(s[1..], key) && KeysAtLeast(s[1..], key, key(s[0]))
  {
    var t := s[1..];
    forall i, j | 0 <= i < j < |t| ensures key(t[i]) <= key(t[j]) {
      assert t[i] == s[i + 1] && t[j] == s[j + 1];
    }
    forall k | 0 <= k < |t| ensures key(s[0]) <= key(t[k]) {
      assert t[k] == s[k + 1];
    }
  }

  /** A head no greater than every key of a sorted tail makes a sorted sequence. */
  lemma SortedCons<T>(h: T, t: seq<T>, key: T -> real)
    requires SortedBy(t, key) && KeysAtLeast(t, key, key(h))
    ensures SortedBy([h] + t, key)
  {
    var r := [h] + t;
    forall i, j | 0 <= i < j < |r| ensures key(r[i]) <= key(r[j]) {
      assert r[j] == t[j - 1];
      if i > 0 {
        assert r[i] == t[i - 1];
      }
    }
  }

  /** Inserting into a sorted sequence keeps it sorted. */
  lemma {:induction false} InsertSorted<T>(x: T, s: seq<T>, key: T -> real)
    requires SortedBy(s, key)
    ensures SortedBy(Insert(x, s, key), key)
  {
    if s == [] {
    } else if key(x) < key(s[0]) {
      assert Insert(x, s, key) == [x] + s;
      SortedAtLeastHead(s, key);
      assert KeysAtLeast(s, key, key(x)) by {
        forall k | 0 <= k < |s| ensures key(x) <= key(s[k]) {
          assert key(s[0]) <= key(s[k]);
        }
      }
      SortedCons(x, s, key);
    } else {
      assert Insert(x, s, key) == [s[0]] + Insert(x, s[1..], key);
      SortedTail(s, key);
      InsertSorted(x, s[1..], key);
      InsertAtLeast(x, s[1..], key, key(s[0]));
      SortedCons(s[0], Insert(x, s[1..], key), key);
    }
  }

  /** `OrderBy(key)`: the same elements, in ascending key order. */
  function SortBy<T>(s: seq<T>, key: T -> real): (r: seq<T>)
    ensures |r| == |s|
    ensures multiset(r) == multiset(s)
    ensures SortedBy(r, key)
  {
    if s == [] then []
    else
      assert s == s[..|s| - 1] + [s[|s| - 1]];
      var sorted := SortBy(s[..|s| - 1], key);
      InsertSorted(s[|s| - 1], sorted, key);
      Insert(s[|s| - 1], sorted, key)
  }

  /** `Select(f)`: `f` applied to each element, in order. */
  function Project<A, B>(s: seq<A>, f: A -> B): (r: seq<B>)
    ensures |r| == |s|
  {
    seq(|s|, k requires 0 <= k < |s| => f(s[k]))
  }

  /** A projection distributes over concatenation. */
  lemma ProjectAppend<A, B>(a: seq<A>, b: seq<A>, f: A -> B)
    ensures Project(a + b, f) == Project(a, f) + Project(b, f)
  {
  }

  /** Projecting with `x` put between `front` and `back` adds one copy of `f(x)`. */
  lemma ProjectInsert<A, B>(front: seq<A>, x: A, back: seq<A>, f: A -> B)
    ensures multiset(Project(front + ([x] + back), f)) == multiset{f(x)} + multiset(Project(front + back, f))
  {
    ProjectAppend(front, [x] + back, f);
    ProjectAppend([x], back, f);
    ProjectAppend(front, back, f);
  }

  /** With the copy of `a[0]` at `j` taken out of `b`, the rests hold the same elements. */
  lemma TakeOut<A>(a: seq<A>, b: seq<A>, j: nat)
    requires multiset(a) == multiset(b) && a != [] && j < |b| && b[j] == a[0]
    ensures multiset(a[1..]) == multiset(b[..j] + b[j + 1..])
  {
    assert b == b[..j] + [b[j]] + b[j + 1..];
    assert multiset(b) == multiset(b[..j]) + multiset{b[j]} + multiset(b[j + 1..]);
    assert a == [a[0]] + a[1..];
    assert multiset(a[1..]) == multiset(a) - multiset{a[0]};
  }

  /** Two sequences with the same elements keep the same elements under a projection. */
  lemma {:induction false} ProjectPermutation<A, B>(a: seq<A>, b: seq<A>, f: A -> B)
    requires multiset(a) == multiset(b)
    ensures multiset(Project(a, f)) == multiset(Project(b, f))
    decreases |a|
  {
    if a == [] {
      assert |b| == |multiset(b)| == 0;
    } else {
      var x := a[0];
      assert x in multiset(b);
      var j :| 0 <= j < |b| && b[j] == x;
      PermStep(a, b, j, f);
    }
  }

  /** One step of `ProjectPermutation`: `a[0]` matched with `b[j]`. */
  lemma {:induction false} PermStep<A, B>(a: seq<A>, b: seq<A>, j: nat, f: A -> B)
    requires multiset(a) == multiset(b) && a != [] && j < |b| && b[j] == a[0]
    ensures multiset(Project(a, f)) == multiset(Project(b, f))
    decreases |a|, 0
  {
    var x := a[0];
    var front, back := b[..j], b[j + 1..];
    TakeOut(a, b, j);
    ProjectPermutation(a[1..], front + back, f);
    assert a == [x] + a[1..];
    ProjectInsert([], x, a[1..], f);
    assert [] + ([x] + a[1..]) == a;
    assert [] + a[1..] == a[1..];
    assert b == front + ([x] + back);
    ProjectInsert(front, x, back, f);
    var m := multiset(Project(a[1..], f));
    assert m == multiset(Project(front + back, f));
    assert multiset(Project(a, f)) == multiset{f(x)} + m;
    assert multiset(Project(b, f)) == multiset{f(x)} + m;
  }

  /** Sorting keeps exactly the same elements, and leaves a single element alone. */
  lemma SortKeeps<T>(s: seq<T>, key: T -> real)
    ensures forall t :: t in SortBy(s, key) <==> t in s
    ensures |s| == 1 ==> SortBy(s, key) == s
  {
    var r := SortBy(s, key);
    forall t ensures t in r <==> t in s {
      assert t in r <==> t in multiset(r);
      assert t in s <==> t in multiset(s);
    }
    if |s| == 1 {
      assert r[0] in multiset(s);
      assert s == [s[0]];
    }
  }
}
