/** List operations the screens apply through `Array.prototype.filter` and
    `Array.prototype.sort`. */
module Seqs {

  /** `s.filter(p)` */
  function Select<T>(s: seq<T>, p: T -> bool): (r: seq<T>)
    ensures |r| <= |s|
    ensures forall i :: 0 <= i < |r| ==> p(r[i])
  {
    if s == [] then []
    else Select(s[..|s| - 1], p) + (if p(s[|s| - 1]) then [s[|s| - 1]] else [])
  }

  /** The filter keeps exactly the elements its callback accepts. */
  lemma {:induction false} SelectMembership<T>(s: seq<T>, p: T -> bool, x: T)
    ensures x in Select(s, p) <==> x in s && p(x)
  {
    if s != [] {
      var init := s[..|s| - 1];
      assert s == init + [s[|s| - 1]];
      SelectMembership(init, p, x);
    }
  }

  /** The last element of a concatenation with a non-empty right part, and
      what comes before it. */
  lemma AppendLast<T>(a: seq<T>, b: seq<T>)
    requires b != []
    ensures (a + b)[..|a + b| - 1] == a + b[..|b| - 1]
    ensures (a + b)[|a + b| - 1] == b[|b| - 1]
  {
  }

  lemma AppendAssoc<T>(x: seq<T>, y: seq<T>, z: seq<T>)
    ensures (x + y) + z == x + (y + z)
  {
  }

  /** The filter keeps order: it distributes over concatenation. */
  lemma {:induction false} SelectAppend<T>(a: seq<T>, b: seq<T>, p: T -> bool)
    ensures Select(a + b, p) == Select(a, p) + Select(b, p)
    decreases |b|
  {
    if b == [] {
      assert a + b == a;
    } else {
      assert (a + b)[..|a + b| - 1] == a + b[..|b| - 1];
      SelectAppend(a, b[..|b| - 1], p);
    }
  }

  /** A filter that accepts everything returns its input. */
  lemma {:induction false} SelectAll<T>(s: seq<T>, p: T -> bool)
    requires forall i :: 0 <= i < |s| ==> p(s[i])
    ensures Select(s, p) == s
  {
    if s != [] {
      var init := s[..|s| - 1];
      assert s == init + [s[|s| - 1]];
      SelectAll(init, p);
    }
  }

  predicate SortedBy<T>(s: seq<T>, key: T -> int) {
    forall i, j :: 0 <= i < j < |s| ==> key(s[i]) <= key(s[j])
  }

  /** Insert `x` after every element whose key is not greater than its own,
      so equal keys keep their order. */
  function Insert<T>(x: T, s: seq<T>, key: T -> int): (r: seq<T>)
    requires SortedBy(s, key)
    ensures |r| == |s| + 1
    ensures forall i :: 0 <= i < |r| ==> r[i] in s || r[i] == x
    ensures multiset(r) == multiset(s) + multiset{x}
    ensures SortedBy(r, key)
    decreases |s|
  {
    if s == [] then [x]
    else if key(s[|s| - 1]) <= key(x) then s + [x]
    else
      var r := Insert(x, s[..|s| - 1], key);
      InsertStep(x, s, key, r);
      r + [s[|s| - 1]]
  }

  /** Putting back the last element, which is above `x` and every element
      before it, keeps the insertion sorted and a permutation. */
  lemma InsertStep<T>(x: T, s: seq<T>, key: T -> int, r: seq<T>)
    requires s != [] && SortedBy(s, key) && key(x) < key(s[|s| - 1])
    requires SortedBy(r, key) && multiset(r) == multiset(s[..|s| - 1]) + multiset{x}
    requires forall i :: 0 <= i < |r| ==> r[i] in s[..|s| - 1] || r[i] == x
    ensures var t := r + [s[|s| - 1]];
      (forall i :: 0 <= i < |t| ==> t[i] in s || t[i] == x) &&
      multiset(t) == multiset(s) + multiset{x} && SortedBy(t, key)
  {
    var init, last := s[..|s| - 1], s[|s| - 1];
    assert s == init + [last];
    InsertBelowLast(x, s, key, r);
  }

  lemma InsertBelowLast<T>(x: T, s: seq<T>, key: T -> int, r: seq<T>)
    requires s != [] && SortedBy(s, key) && key(x) < key(s[|s| - 1])
    requires forall i :: 0 <= i < |r| ==> r[i] in s[..|s| - 1] || r[i] == x
    ensures forall i :: 0 <= i < |r| ==> key(r[i]) <= key(s[|s| - 1])
  {
    forall i | 0 <= i < |r| ensures key(r[i]) <= key(s[|s| - 1]) {
      if r[i] != x {
        var k :| 0 <= k < |s| - 1 && s[..|s| - 1][k] == r[i];
        assert s[k] == r[i];
      }
    }
  }

  /** An insertion sort on `key`: ascending, and a permutation of its
      input. */
  function SortBy<T>(s: seq<T>, key: T -> int): (r: seq<T>)
    ensures SortedBy(r, key)
    ensures multiset(r) == multiset(s)
  {
    if s == [] then []
    else
      assert s == s[..|s| - 1] + [s[|s| - 1]];
      Insert(s[|s| - 1], SortBy(s[..|s| - 1], key), key)
  }

  /** Sorting neither adds nor drops elements. */
  lemma SortByMembership<T>(s: seq<T>, key: T -> int, x: T)
    ensures x in SortBy(s, key) <==> x in s
  {
    assert x in SortBy(s, key) <==> x in multiset(SortBy(s, key));
  }

  /** `Array.prototype.map`. */
  function Map<T, U>(s: seq<T>, f: T -> U): (r: seq<U>)
    ensures |r| == |s|
    ensures forall i :: 0 <= i < |s| ==> r[i] == f(s[i])
  {
    seq(|s|, i requires 0 <= i < |s| => f(s[i]))
  }

  /** A filter followed by a map yields exactly the images of the kept
      elements. */
  lemma SelectMapMembership<T, U>(s: seq<T>, p: T -> bool, f: T -> U, y: U)
    ensures y in Map(Select(s, p), f) <==> exists x :: x in s && p(x) && y == f(x)
  {
    var kept := Select(s, p);
    if y in Map(kept, f) {
      var i :| 0 <= i < |kept| && Map(kept, f)[i] == y;
      SelectMembership(s, p, kept[i]);
    }
    if exists x :: x in s && p(x) && y == f(x) {
      var x :| x in s && p(x) && y == f(x);
      SelectMembership(s, p, x);
      var i :| 0 <= i < |kept| && kept[i] == x;
      assert Map(kept, f)[i] == y;
    }
  }
}
