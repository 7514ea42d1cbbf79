/**
  topoSort of benchkit/kernel/kernel.go: a depth-first search with permanent and
  temporary marks over units and the units they depend on. A unit's dependencies
  come in whatever order its bindings map hands them out, then its after list.
 */
module TopoSort {
  import opened Ordering

  type Graph = map<string, seq<string>>

  datatype Marks = Marks(perm: set<string>, temp: set<string>, order: seq<string>)

  datatype Visited = Done(marks: Marks) | Missing(name: string) | Cycle(name: string)

  const NO_MARKS := Marks({}, {}, [])

  function Unmarked(g: Graph, m: Marks): set<string> {
    g.Keys - m.perm - m.temp
  }

  lemma {:induction false} SubsetSize(a: set<string>, b: set<string>)
    requires a <= b
    ensures |a| <= |b|
  {
    if a != {} {
      var x :| x in a;
      SubsetSize(a - {x}, b - {x});
    }
  }

  lemma StrictSubset(a: set<string>, b: set<string>, x: string)
    requires a <= b && x in b && x !in a
    ensures |a| < |b|
  {
    SubsetSize(a, b - {x});
  }

  /** The recursion ends because every nested visit marks a unit that had no mark. */
  function Visit(g: Graph, name: string, m: Marks): (r: Visited)
    ensures r.Done? ==> r.marks.temp == m.temp && m.perm <= r.marks.perm
    decreases |Unmarked(g, m)|, 0
  {
    if name !in g then Missing(name)
    else if name in m.perm then Done(m)
    else if name in m.temp then Cycle(name)
    else
      var marked := m.(temp := m.temp + {name});
      StrictSubset(Unmarked(g, marked), Unmarked(g, m), name);
      match VisitAll(g, Sort(g[name]), marked)
      case Done(n) => Done(Marks(n.perm + {name}, n.temp - {name}, n.order + [name]))
      case failure => failure
  }

  function VisitAll(g: Graph, names: seq<string>, m: Marks): (r: Visited)
    ensures r.Done? ==> r.marks.temp == m.temp && m.perm <= r.marks.perm
    decreases |Unmarked(g, m)|, |names| + 1
  {
    if names == [] then Done(m)
    else
      match Visit(g, names[0], m)
      case Done(n) =>
        SubsetSize(Unmarked(g, n), Unmarked(g, m));
        VisitAll(g, names[1..], n)
      case failure => failure
  }

  /** `names` lists the units in map iteration order. */
  function SortUnits(g: Graph, names: seq<string>): Visited {
    VisitAll(g, Sort(names), NO_MARKS)
  }

  /** The sort as it is coded: one recursive closure over the mark maps and the order. */
  class Sorter {
    const g: Graph
    var permanent: set<string>
    var temporary: set<string>
    var order: seq<string>

    constructor (g: Graph)
      ensures this.g == g && View() == NO_MARKS
    {
      this.g := g;
      permanent, temporary, order := {}, {}, [];
    }

    function View(): Marks
      reads this
    {
      Marks(permanent, temporary, order)
    }

    method VisitUnit(name: string) returns (r: Visited)
      modifies this
      ensures r == Visit(g, name, old(View()))
      ensures r.Done? ==> r.marks == View()
      decreases |Unmarked(g, View())|
    {
      if name !in g { return Missing(name); }
      if name in permanent { return Done(View()); }
      if name in temporary { return Cycle(name); }
      ghost var before := View();
      temporary := temporary + {name};
      ghost var marked := View();
      StrictSubset(Unmarked(g, marked), Unmarked(g, before), name);
      var deps := Sort(g[name]);
      var i := 0;
      while i < |deps|
        invariant i <= |deps| && marked.temp == temporary && marked.perm <= permanent
        invariant VisitAll(g, deps, marked) == VisitAll(g, deps[i..], View())
      {
        SubsetSize(Unmarked(g, View()), Unmarked(g, marked));
        var failure := VisitUnit(deps[i]);
        if !failure.Done? { return failure; }
        assert deps[i..][1..] == deps[i + 1..];
        i := i + 1;
      }
      temporary := temporary - {name};
      permanent := permanent + {name};
      order := order + [name];
      return Done(View());
    }

    method Run(names: seq<string>) returns (r: Visited)
      requires View() == NO_MARKS
      modifies this
      ensures r == SortUnits(g, names)
      ensures r.Done? ==> r.marks.order == order
    {
      var sorted := Sort(names);
      var i := 0;
      while i < |sorted|
        invariant i <= |sorted|
        invariant VisitAll(g, sorted, NO_MARKS) == VisitAll(g, sorted[i..], View())
      {
        var failure := VisitUnit(sorted[i]);
        if !failure.Done? { return failure; }
        assert sorted[i..][1..] == sorted[i + 1..];
        i := i + 1;
      }
      return Done(View());
    }
  }

  // ------------------------------------------------------------- what it promises

  ghost predicate Path(g: Graph, p: seq<string>) {
    |p| >= 2 && forall i :: 0 <= i < |p| - 1 ==> p[i] in g && p[i + 1] in g[p[i]]
  }

  /** Unit `a` depends on unit `b`, directly or through others. */
  ghost predicate Reaches(g: Graph, a: string, b: string) {
    exists p :: Path(g, p) && p[0] == a && p[|p| - 1] == b
  }

  ghost predicate Acyclic(g: Graph) {
    forall x :: !Reaches(g, x, x)
  }

  ghost predicate Complete(g: Graph) {
    forall u, d :: u in g && d in g[u] ==> d in g
  }

  /** Every unit comes after all it depends on. */
  ghost predicate DepsFirst(g: Graph, order: seq<string>) {
    forall i, d :: 0 <= i < |order| && order[i] in g && d in g[order[i]] ==> d in order[..i]
  }

  ghost predicate MarksOk(g: Graph, m: Marks) {
    && Distinct(m.order) && DepsFirst(g, m.order)
    && (forall x :: x in m.order <==> x in m.perm)
    && m.perm <= g.Keys && m.temp <= g.Keys && m.perm !! m.temp
  }

  /** Every unit being visited depends on `name`. */
  ghost predicate StackOk(g: Graph, m: Marks, name: string) {
    forall t :: t in m.temp ==> Reaches(g, t, name)
  }

  /** Some unit depends on `x`. */
  ghost predicate Wanted(g: Graph, x: string) {
    exists u :: u in g && x in g[u]
  }

  ghost predicate ResultOk(g: Graph, m: Marks, r: Visited) {
    match r
    case Done(n) => MarksOk(g, n) && m.order <= n.order
    case Missing(x) => x !in g && Wanted(g, x)
    case Cycle(x) => Reaches(g, x, x)
  }

  lemma Edge(g: Graph, a: string, b: string)
    requires a in g && b in g[a]
    ensures Reaches(g, a, b)
  {
    assert Path(g, [a, b]);
  }

  lemma Extend(g: Graph, a: string, b: string, c: string)
    requires Reaches(g, a, b) && b in g && c in g[b]
    ensures Reaches(g, a, c)
  {
    var p :| Path(g, p) && p[0] == a && p[|p| - 1] == b;
    assert Path(g, p + [c]);
  }

  lemma {:induction false} VisitOk(g: Graph, name: string, m: Marks)
    requires MarksOk(g, m) && StackOk(g, m, name)
    requires name in g || Wanted(g, name)
    ensures ResultOk(g, m, Visit(g, name, m))
    ensures Visit(g, name, m).Done? ==> name in Visit(g, name, m).marks.perm
    decreases |Unmarked(g, m)|, 0
  {
    if name in g && name !in m.perm && name !in m.temp {
      var marked := m.(temp := m.temp + {name});
      StrictSubset(Unmarked(g, marked), Unmarked(g, m), name);
      SortMembers(g[name]);
      var deps := Sort(g[name]);
      forall d, t | d in deps && t in marked.temp
        ensures Reaches(g, t, d)
      {
        if t == name { Edge(g, name, d); } else { Extend(g, t, name, d); }
      }
      VisitAllOk(g, deps, marked);
      var r := VisitAll(g, deps, marked);
      if r.Done? { Appended(g, r.marks, name); }
    }
  }

  /** A unit all of whose dependencies are placed may be placed next. */
  lemma Appended(g: Graph, m: Marks, name: string)
    requires MarksOk(g, m) && name in g && name in m.temp && forall d :: d in g[name] ==> d in m.perm
    ensures MarksOk(g, Marks(m.perm + {name}, m.temp - {name}, m.order + [name]))
  {
    var order := m.order + [name];
    forall i, d | 0 <= i < |order| && order[i] in g && d in g[order[i]]
      ensures d in order[..i]
    {
      if i < |m.order| {
        assert d in m.order[..i] && order[..i] == m.order[..i];
      } else {
        assert order[..i] == m.order;
      }
    }
  }

  lemma {:induction false} VisitAllOk(g: Graph, names: seq<string>, m: Marks)
    requires MarksOk(g, m) && forall d :: d in names ==> StackOk(g, m, d)
    requires forall d :: d in names ==> d in g || Wanted(g, d)
    ensures ResultOk(g, m, VisitAll(g, names, m))
    ensures VisitAll(g, names, m).Done? ==> forall d :: d in names ==> d in VisitAll(g, names, m).marks.perm
    decreases |Unmarked(g, m)|, |names| + 1
  {
    hide Reaches, MarksOk, Wanted;
    if names != [] {
      assert names[0] in names;
      VisitOk(g, names[0], m);
      var r := Visit(g, names[0], m);
      if r.Done? {
        SubsetSize(Unmarked(g, r.marks), Unmarked(g, m));
        forall d | d in names[1..]
          ensures StackOk(g, r.marks, d) && (d in g || Wanted(g, d))
        {
          assert d in names && StackOk(g, m, d);
        }
        VisitAllOk(g, names[1..], r.marks);
      }
    }
  }

  /** Along a path of dependencies the place in the order goes down. */
  lemma {:induction false} PathDescends(g: Graph, order: seq<string>, p: seq<string>, i: nat) returns (j: nat)
    requires DepsFirst(g, order) && Path(g, p) && i < |order| && order[i] == p[0]
    ensures j < i && order[j] == p[|p| - 1]
    decreases |p|
  {
    assert p[0] in g && p[1] in g[p[0]];
    assert p[1] in order[..i];
    j :| 0 <= j < i && order[j] == p[1];
    if |p| > 2 {
      forall k | 0 <= k < |p[1..]| - 1
        ensures p[1..][k] in g && p[1..][k + 1] in g[p[1..][k]]
      {
        assert p[k + 1] in g && p[k + 1 + 1] in g[p[k + 1]];
      }
      j := PathDescends(g, order, p[1..], j);
    }
  }

  /** An order with dependencies first leaves no room for a cycle. */
  lemma OrderedIsAcyclic(g: Graph, order: seq<string>)
    requires DepsFirst(g, order) && Distinct(order) && forall x :: x in g ==> x in order
    ensures Acyclic(g)
  {
    forall x
      ensures !Reaches(g, x, x)
    {
      if Reaches(g, x, x) {
        var p :| Path(g, p) && p[0] == x && p[|p| - 1] == x;
        assert p[0] in g;
        var i :| 0 <= i < |order| && order[i] == x;
        var j := PathDescends(g, order, p, i);
        assert false;
      }
    }
  }

  /** What topoSort returns. */
  ghost predicate Answer(g: Graph, r: Visited) {
    match r
    case Done(m) => Distinct(m.order) && (forall x :: x in m.order <==> x in g) && DepsFirst(g, m.order)
    case Missing(x) => x !in g && Wanted(g, x)
    case Cycle(x) => Reaches(g, x, x)
  }

  /**
    The sort succeeds if and only if every dependency exists and none is circular.
    On success the order lists each unit once, after all it depends on; a missing
    unit is one that some unit depends on, a cycle leads from the named unit back
    to it.
   */
  lemma SortsExactlyWhenPossible(g: Graph, names: seq<string>)
    requires forall x :: x in names <==> x in g
    ensures Answer(g, SortUnits(g, names))
    ensures SortUnits(g, names).Done? <==> Complete(g) && Acyclic(g)
  {
    SortMembers(names);
    VisitAllOk(g, Sort(names), NO_MARKS);
    var r := SortUnits(g, names);
    if r.Done? {
      OrderedIsAcyclic(g, r.marks.order);
      forall u, d | u in g && d in g[u]
        ensures d in g
      {
        var i :| 0 <= i < |r.marks.order| && r.marks.order[i] == u;
        assert d in r.marks.order[..i];
      }
    }
  }

  /** In a sorted graph, everything a unit transitively depends on comes before it. */
  lemma DependenciesFirst(g: Graph, order: seq<string>, i: nat, j: nat)
    requires DepsFirst(g, order) && Distinct(order) && i < |order| && j < |order|
    requires Reaches(g, order[i], order[j])
    ensures j < i
  {
    var p :| Path(g, p) && p[0] == order[i] && p[|p| - 1] == order[j];
    var k := PathDescends(g, order, p, i);
  }

  /** What a sorted unit transitively depends on is in the order, before it. */
  lemma ReachedIsBefore(g: Graph, order: seq<string>, i: nat, d: string) returns (j: nat)
    requires DepsFirst(g, order) && i < |order| && Reaches(g, order[i], d)
    ensures j < i && order[j] == d
  {
    var p :| Path(g, p) && p[0] == order[i] && p[|p| - 1] == d;
    j := PathDescends(g, order, p, i);
  }

  ghost predicate Shuffled(g: Graph, h: Graph) {
    g.Keys == h.Keys && forall x :: x in g ==> multiset(g[x]) == multiset(h[x])
  }

  lemma {:induction false} VisitShuffled(g: Graph, h: Graph, name: string, m: Marks)
    requires Shuffled(g, h)
    ensures Visit(g, name, m) == Visit(h, name, m)
    decreases |Unmarked(g, m)|, 0
  {
    if name in g && name !in m.perm && name !in m.temp {
      var marked := m.(temp := m.temp + {name});
      StrictSubset(Unmarked(g, marked), Unmarked(g, m), name);
      SortIndependent(g[name], h[name]);
      VisitAllShuffled(g, h, Sort(g[name]), marked);
    }
  }

  lemma {:induction false} VisitAllShuffled(g: Graph, h: Graph, names: seq<string>, m: Marks)
    requires Shuffled(g, h)
    ensures VisitAll(g, names, m) == VisitAll(h, names, m)
    decreases |Unmarked(g, m)|, |names| + 1
  {
    if names != [] {
      VisitShuffled(g, h, names[0], m);
      var r := Visit(g, names[0], m);
      if r.Done? {
        SubsetSize(Unmarked(g, r.marks), Unmarked(g, m));
        VisitAllShuffled(g, h, names[1..], r.marks);
      }
    }
  }

  /** The answer does not depend on the order in which any map was iterated. */
  lemma IterationOrderIrrelevant(g: Graph, h: Graph, names: seq<string>, others: seq<string>)
    requires Shuffled(g, h) && multiset(names) == multiset(others)
    ensures SortUnits(g, names) == SortUnits(h, others)
  {
    SortIndependent(names, others);
    VisitAllShuffled(g, h, Sort(names), NO_MARKS);
  }
}
