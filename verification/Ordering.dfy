/** The order of Go strings, and sorting by it. */
module Ordering {

  /** Lexicographic order of the bytes, here one character below 256 per byte. */
  predicate AtMost(a: string, b: string) {
    a == [] || (b != [] && (a[0] < b[0] || (a[0] == b[0] && AtMost(a[1..], b[1..]))))
  }

  lemma {:induction false} Total(a: string, b: string)
    ensures AtMost(a, b) || AtMost(b, a)
  {
    if a != [] && b != [] { Total(a[1..], b[1..]); }
  }

  lemma {:induction false} Antisymmetric(a: string, b: string)
    requires AtMost(a, b) && AtMost(b, a)
    ensures a == b
  {
    if a != [] {
      Antisymmetric(a[1..], b[1..]);
      assert a == [a[0]] + a[1..] && b == [b[0]] + b[1..];
    }
  }

  lemma {:induction false} Transitive(a: string, b: string, c: string)
    requires AtMost(a, b) && AtMost(b, c)
    ensures AtMost(a, c)
  {
    if a != [] && a[0] == b[0] && b[0] == c[0] { Transitive(a[1..], b[1..], c[1..]); }
  }

  /** The strings first differ at `i`, where the first one has the smaller byte. */
  predicate SmallerAt(a: string, b: string, i: nat) {
    i < |a| && i < |b| && a[..i] == b[..i] && a[i] < b[i]
  }

  /** One string is at most another if it is a prefix of it or has the smaller byte where they first differ. */
  lemma {:induction false} ByteOrder(a: string, b: string)
    ensures AtMost(a, b) <==> a <= b || exists i: nat :: SmallerAt(a, b, i)
  {
    if a != [] && b != [] {
      if a[0] == b[0] {
        ByteOrder(a[1..], b[1..]);
        PrefixMore(a, b);
        if i: nat :| SmallerAt(a[1..], b[1..], i) { SmallerMore(a, b, i); }
        if i: nat :| SmallerAt(a, b, i) { SmallerMore(a, b, i - 1); }
      } else if a[0] < b[0] {
        assert SmallerAt(a, b, 0);
      } else {
        forall i: nat
          ensures !SmallerAt(a, b, i)
        {
          if 0 < i < |a| && i < |b| { assert a[..i][0] == a[0] && b[..i][0] == b[0]; }
        }
      }
    }
  }

  lemma PrefixMore(a: string, b: string)
    requires a != [] && b != [] && a[0] == b[0]
    ensures a <= b <==> a[1..] <= b[1..]
  {
    assert a == [a[0]] + a[1..] && b == [b[0]] + b[1..];
    if |a| <= |b| {
      assert b[..|a|] == [b[0]] + b[1..][..|a| - 1];
      assert b[..|a|][1..] == b[1..][..|a| - 1];
    }
  }

  lemma SmallerMore(a: string, b: string, i: nat)
    requires a != [] && b != [] && a[0] == b[0]
    ensures SmallerAt(a[1..], b[1..], i) <==> SmallerAt(a, b, i + 1)
  {
    if i < |a| - 1 && i < |b| - 1 {
      assert a[..i + 1] == [a[0]] + a[1..][..i] && b[..i + 1] == [b[0]] + b[1..][..i];
      assert a[..i + 1][1..] == a[1..][..i] && b[..i + 1][1..] == b[1..][..i];
    }
  }

  ghost predicate Sorted(xs: seq<string>) {
    forall i, j :: 0 <= i < j < |xs| ==> AtMost(xs[i], xs[j])
  }

  predicate Distinct<T(==)>(xs: seq<T>) {
    forall i, j :: 0 <= i < j < |xs| ==> xs[i] != xs[j]
  }

  function Insert(x: string, xs: seq<string>): seq<string> {
    if xs == [] || AtMost(x, xs[0]) then [x] + xs else [xs[0]] + Insert(x, xs[1..])
  }

  /** sort.Strings */
  function Sort(xs: seq<string>): seq<string> {
    if xs == [] then [] else Insert(xs[0], Sort(xs[1..]))
  }

  lemma {:induction false} InsertPermutes(x: string, xs: seq<string>)
    ensures multiset(Insert(x, xs)) == multiset{x} + multiset(xs)
  {
    if !(xs == [] || AtMost(x, xs[0])) {
      InsertPermutes(x, xs[1..]);
      assert xs == [xs[0]] + xs[1..];
    }
  }

  lemma {:induction false} SortPermutes(xs: seq<string>)
    ensures multiset(Sort(xs)) == multiset(xs)
  {
    if xs != [] {
      SortPermutes(xs[1..]);
      InsertPermutes(xs[0], Sort(xs[1..]));
      assert xs == [xs[0]] + xs[1..];
    }
  }

  lemma {:induction false} InsertSorted(x: string, xs: seq<string>)
    requires Sorted(xs)
    ensures Sorted(Insert(x, xs))
  {
    if xs != [] {
      if AtMost(x, xs[0]) {
        forall j | 0 <= j < |xs|
          ensures AtMost(x, xs[j])
        {
          if j > 0 { Transitive(x, xs[0], xs[j]); }
        }
      } else {
        Total(x, xs[0]);
        var rest := Insert(x, xs[1..]);
        InsertSorted(x, xs[1..]);
        InsertPermutes(x, xs[1..]);
        forall j | 0 <= j < |rest|
          ensures AtMost(xs[0], rest[j])
        {
          assert rest[j] in multiset(rest);
          if rest[j] != x { assert rest[j] in xs[1..]; }
        }
      }
    }
  }

  lemma {:induction false} SortSorted(xs: seq<string>)
    ensures Sorted(Sort(xs))
  {
    if xs != [] {
      SortSorted(xs[1..]);
      InsertSorted(xs[0], Sort(xs[1..]));
    }
  }

  /** The head of a sorted list is at most everything in it. */
  lemma HeadAtMost(xs: seq<string>, x: string)
    requires Sorted(xs) && x in multiset(xs)
    ensures AtMost(xs[0], x)
  {
    var i :| 0 <= i < |xs| && xs[i] == x;
    if i == 0 { Total(x, x); }
  }

  lemma SameHead(xs: seq<string>, ys: seq<string>)
    requires Sorted(xs) && Sorted(ys) && multiset(xs) == multiset(ys) && xs != []
    ensures ys != [] && xs[0] == ys[0] && multiset(xs[1..]) == multiset(ys[1..])
  {
    hide AtMost, Sorted;
    assert xs[0] in multiset(ys);
    assert ys[0] in multiset(xs);
    HeadAtMost(ys, xs[0]);
    HeadAtMost(xs, ys[0]);
    Antisymmetric(xs[0], ys[0]);
    TailCounts(xs);
    TailCounts(ys);
  }

  lemma TailCounts(xs: seq<string>)
    requires xs != []
    ensures multiset(xs[1..]) == multiset(xs) - multiset{xs[0]}
  {
    assert xs == [xs[0]] + xs[1..];
  }

  /** A sorted list is determined by what is in it. */
  lemma {:induction false} SortedUnique(xs: seq<string>, ys: seq<string>)
    requires Sorted(xs) && Sorted(ys) && multiset(xs) == multiset(ys)
    ensures xs == ys
  {
    hide AtMost;
    if xs != [] {
      SameHead(xs, ys);
      SortedUnique(xs[1..], ys[1..]);
      assert xs == [xs[0]] + xs[1..] && ys == [ys[0]] + ys[1..];
    } else if ys != [] {
      SameHead(ys, xs);
    }
  }

  /** Sorting forgets the order in which a map handed out its keys. */
  lemma SortIndependent(xs: seq<string>, ys: seq<string>)
    requires multiset(xs) == multiset(ys)
    ensures Sort(xs) == Sort(ys)
  {
    SortPermutes(xs);
    SortPermutes(ys);
    SortSorted(xs);
    SortSorted(ys);
    SortedUnique(Sort(xs), Sort(ys));
  }

  lemma SortMembers(xs: seq<string>)
    ensures forall x :: x in Sort(xs) <==> x in xs
  {
    SortPermutes(xs);
    forall x
      ensures x in Sort(xs) <==> x in xs
    {
      assert x in Sort(xs) <==> x in multiset(Sort(xs));
      assert x in xs <==> x in multiset(xs);
    }
  }

  lemma {:induction false} OnceIfDistinct<T>(xs: seq<T>, x: T)
    requires Distinct(xs)
    ensures multiset(xs)[x] <= 1
  {
    if xs != [] {
      assert xs == [xs[0]] + xs[1..];
      OnceIfDistinct(xs[1..], x);
      if xs[0] == x { assert x !in xs[1..]; }
    }
  }

  /** The names in the opposite order: sort.Reverse over distinct names. */
  function Reverse<T>(xs: seq<T>): (r: seq<T>)
    ensures |r| == |xs|
    ensures forall k :: 0 <= k < |xs| ==> r[k] == xs[|xs| - 1 - k]
  {
    if xs == [] then [] else Reverse(xs[1..]) + [xs[0]]
  }

  lemma {:induction false} LeastExists(s: set<string>) returns (x: string)
    requires s != {}
    ensures x in s && forall y :: y in s ==> AtMost(x, y)
  {
    x :| x in s;
    Total(x, x);
    if s != {x} {
      var z := LeastExists(s - {x});
      Total(x, z);
      forall y | y in s && AtMost(x, z)
        ensures AtMost(x, y)
      {
        if y != x { Transitive(x, z, y); }
      }
      if !AtMost(x, z) { x := z; }
    }
  }

  /** The members of a set in ascending order. */
  ghost function SortedKeys(s: set<string>): seq<string>
    decreases |s|
  {
    if s == {} then []
    else
      var x := Least(s);
      [x] + SortedKeys(s - {x})
  }

  ghost function Least(s: set<string>): (x: string)
    requires s != {}
    ensures x in s && forall y :: y in s ==> AtMost(x, y)
  {
    assert exists x :: x in s && forall y :: y in s ==> AtMost(x, y) by { var x := LeastExists(s); }
    var x :| x in s && forall y :: y in s ==> AtMost(x, y);
    x
  }

  lemma {:induction false} SortedKeysSorted(s: set<string>)
    ensures Sorted(SortedKeys(s)) && Distinct(SortedKeys(s)) && forall x :: x in SortedKeys(s) <==> x in s
    decreases |s|
  {
    if s != {} {
      var x := Least(s);
      var rest := SortedKeys(s - {x});
      SortedKeysSorted(s - {x});
      assert SortedKeys(s) == [x] + rest;
      hide AtMost, Least, SortedKeys;
      forall i | 0 <= i < |rest|
        ensures AtMost(x, rest[i]) && x != rest[i]
      {
        assert rest[i] in s - {x};
      }
    }
  }

  lemma {:induction false} DistinctSameMembers<T>(xs: seq<T>, ys: seq<T>)
    requires Distinct(xs) && Distinct(ys) && forall x :: x in xs <==> x in ys
    ensures multiset(xs) == multiset(ys)
  {
    forall x
      ensures multiset(xs)[x] == multiset(ys)[x]
    {
      OnceIfDistinct(xs, x);
      OnceIfDistinct(ys, x);
      assert x in multiset(xs) <==> x in xs;
      assert x in multiset(ys) <==> x in ys;
    }
  }

  /** Sorting any listing of a set gives its members in ascending order. */
  lemma SortLists(s: set<string>, xs: seq<string>)
    requires Distinct(xs) && forall x :: x in xs <==> x in s
    ensures Sort(xs) == SortedKeys(s)
  {
    SortedKeysSorted(s);
    DistinctSameMembers(xs, SortedKeys(s));
    SortPermutes(xs);
    SortSorted(xs);
    SortedUnique(Sort(xs), SortedKeys(s));
  }

  /** Collect the keys of a map in whatever order it hands them out, then sort them. */
  method ListKeys(s: set<string>) returns (keys: seq<string>)
    ensures keys == SortedKeys(s)
  {
    keys := [];
    var rest := s;
    while rest != {}
      invariant rest <= s && Distinct(keys)
      invariant forall k :: k in keys <==> k in s && k !in rest
      decreases |rest|
    {
      var k :| k in rest;
      keys, rest := keys + [k], rest - {k};
    }
    SortLists(s, keys);
    keys := Sort(keys);
  }
}
