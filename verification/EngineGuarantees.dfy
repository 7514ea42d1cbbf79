/**
  What the log of a run says about a sorted graph: units wait for what feeds them,
  and are torn down before it.
 */
module EngineGuarantees {
  import opened Ordering
  import opened TopoSort
  import opened Engine
  import opened Shutdown
  import opened EngineRun
  import W = Wiring

  lemma {:induction false} WorkAt(units: seq<string>, background: set<string>, i: nat)
    requires i < 4 * |units|
    ensures |WorkOf(units, background)| == 4 * |units|
    ensures var u := units[i / 4];
            WorkOf(units, background)[i] == if i % 4 == 0 then Validated(u) else if i % 4 == 1 then Planned(u)
                                            else if i % 4 == 2 then Entered(u)
                                            else if u in background then Started(u) else Ran(u)
  {
    var n := |units| - 1;
    var front := WorkOf(units[..n], background);
    WorkLength(units[..n], background);
    if i < 4 * n {
      WorkAt(units[..n], background, i);
      assert units[..n][i / 4] == units[i / 4];
      assert WorkOf(units, background)[i] == front[i];
    }
  }

  lemma {:induction false} WorkLength(units: seq<string>, background: set<string>)
    ensures |WorkOf(units, background)| == 4 * |units|
  {
    if units != [] { WorkLength(units[..|units| - 1], background); }
  }

  lemma {:induction false} StopAt(units: seq<string>, i: nat)
    requires i < |units|
    ensures |StopEvents(units)| == |units| && StopEvents(units)[i] == Stopped(units[i])
  {
    var n := |units| - 1;
    StopLength(units[..n]);
    if i < n { StopAt(units[..n], i); }
  }

  lemma {:induction false} StopLength(units: seq<string>)
    ensures |StopEvents(units)| == |units|
  {
    if units != [] { StopLength(units[..|units| - 1]); }
  }

  lemma {:induction false} CloseAt(targets: seq<Target>, i: nat)
    requires i < |targets|
    ensures |CloseEvents(targets)| == |targets|
    ensures CloseEvents(targets)[i] == Closed(targets[i].unit, targets[i].port)
  {
    var n := |targets| - 1;
    CloseLength(targets[..n]);
    if i < n { CloseAt(targets[..n], i); }
  }

  lemma {:induction false} CloseLength(targets: seq<Target>)
    ensures |CloseEvents(targets)| == |targets|
  {
    if targets != [] { CloseLength(targets[..|targets| - 1]); }
  }

  /** The three parts of a log: work, stops, closes. */
  datatype Parts = Parts(head: nat, active: seq<string>, targets: seq<Target>)

  ghost function PartsOf(order: seq<string>, background: set<string>, t: State, m: nat, stage: nat): Parts
    requires m <= |order|
  {
    Parts(|Trace(order, background, m, stage)|, ActiveOf(order[..m], background), Targets(order, t.outputs))
  }

  lemma PartsExist(order: seq<string>, background: set<string>, t: State, m: nat, stage: nat)
    requires Logged(order, background, t, m, stage)
    ensures m <= |order| && PartsOf(order, background, t, m, stage).targets == Targets(order, t.outputs)
  {
  }

  lemma PartLengths(order: seq<string>, background: set<string>, t: State, m: nat, stage: nat)
    requires Logged(order, background, t, m, stage)
    ensures var p := PartsOf(order, background, t, m, stage);
            4 * m <= p.head && |t.log| == p.head + |p.active| + |p.targets|
  {
    WorkLength(order[..m], background);
    StopLength(Reverse(ActiveOf(order[..m], background)));
    CloseLength(Targets(order, t.outputs));
    hide ActiveOf, WorkOf, Targets, Reverse, Stages;
  }

  lemma WorkPart(order: seq<string>, background: set<string>, t: State, m: nat, stage: nat, i: nat)
    requires Logged(order, background, t, m, stage) && i < PartsOf(order, background, t, m, stage).head
    ensures i < |t.log| && i / 4 < |order| && i / 4 <= m
    ensures var u := order[i / 4];
            t.log[i] == if i % 4 == 0 then Validated(u) else if i % 4 == 1 then Planned(u)
                        else if i % 4 == 2 then Entered(u)
                        else if u in background then Started(u) else Ran(u)
  {
    hide ActiveOf, Targets, Trace, Reverse, StopEvents, CloseEvents;
    PartLengths(order, background, t, m, stage);
    TraceAt(order, background, m, stage, i);
  }

  lemma TraceAt(order: seq<string>, background: set<string>, m: nat, stage: nat, i: nat)
    requires m <= |order| && i < |Trace(order, background, m, stage)|
    ensures i / 4 < |order| && i / 4 <= m
    ensures var u := order[i / 4];
            Trace(order, background, m, stage)[i]
            == if i % 4 == 0 then Validated(u) else if i % 4 == 1 then Planned(u)
               else if i % 4 == 2 then Entered(u)
               else if u in background then Started(u) else Ran(u)
  {
    hide WorkOf;
    WorkLength(order[..m], background);
    if i < 4 * m {
      WorkAt(order[..m], background, i);
    } else {
      assert i - 4 * m < 3;
    }
  }

  lemma MiddleAt<T>(a: seq<T>, b: seq<T>, c: seq<T>, i: nat)
    requires |a| <= i < |a| + |b|
    ensures (a + b + c)[i] == b[i - |a|]
  {
  }

  lemma StopPart(order: seq<string>, background: set<string>, t: State, m: nat, stage: nat, i: nat)
    requires Logged(order, background, t, m, stage)
    requires var p := PartsOf(order, background, t, m, stage); p.head <= i < p.head + |p.active|
    ensures var p := PartsOf(order, background, t, m, stage);
            i < |t.log| && t.log[i] == Stopped(p.active[p.head + |p.active| - 1 - i])
  {
    hide ActiveOf, Targets, Trace, Reverse, StopEvents, CloseEvents;
    PartLengths(order, background, t, m, stage);
    var p := PartsOf(order, background, t, m, stage);
    StopAt(Reverse(p.active), i - p.head);
    MiddleAt(Trace(order, background, m, stage), StopEvents(Reverse(p.active)), CloseEvents(p.targets), i);
  }

  lemma ClosePart(order: seq<string>, background: set<string>, t: State, m: nat, stage: nat, i: nat)
    requires Logged(order, background, t, m, stage) && i < |t.log|
    requires var p := PartsOf(order, background, t, m, stage); p.head + |p.active| <= i
    ensures var p := PartsOf(order, background, t, m, stage); var k := i - p.head - |p.active|;
            k < |p.targets| && t.log[i] == Closed(p.targets[k].unit, p.targets[k].port)
  {
    PartLengths(order, background, t, m, stage);
    var p := PartsOf(order, background, t, m, stage);
    CloseAt(p.targets, i - p.head - |p.active|);
    StopLength(Reverse(p.active));
    hide ActiveOf, Targets, Trace, Reverse;
  }

  /** What kind of event stands in which part. */
  lemma PartOfEvent(order: seq<string>, background: set<string>, t: State, m: nat, stage: nat, i: nat)
    requires Logged(order, background, t, m, stage) && i < |t.log|
    ensures var p := PartsOf(order, background, t, m, stage);
            && (t.log[i].Stopped? <==> p.head <= i < p.head + |p.active|)
            && (t.log[i].Closed? <==> p.head + |p.active| <= i)
  {
    var p := PartsOf(order, background, t, m, stage);
    hide Logged, PartsOf;
    if i < p.head {
      WorkPart(order, background, t, m, stage, i);
    } else if i < p.head + |p.active| {
      StopPart(order, background, t, m, stage, i);
    } else {
      ClosePart(order, background, t, m, stage, i);
    }
  }

  /**
    Whenever a unit is run or started, every unit it depends on, directly or not,
    has already been run or started successfully.
   */
  lemma RunsAfterItsSources(order: seq<string>, background: set<string>, t: State, g: Graph, i: nat, d: string)
    requires TornDown(order, background, t) && DepsFirst(g, order)
    requires i < |t.log| && t.log[i].Entered? && Reaches(g, t.log[i].unit, d)
    ensures exists j :: 0 <= j < i && t.log[j] == (if d in background then Started(d) else Ran(d))
  {
    var m: nat, stage: nat :| Logged(order, background, t, m, stage);
    hide Logged, Reaches, DepsFirst;
    var j := SourcePlace(order, background, t, m, stage, g, i, d);
  }

  lemma SourcePlace(order: seq<string>, background: set<string>, t: State, m: nat, stage: nat, g: Graph, i: nat, d: string)
    returns (j: nat)
    requires Logged(order, background, t, m, stage) && DepsFirst(g, order)
    requires i < |t.log| && t.log[i].Entered? && Reaches(g, t.log[i].unit, d)
    ensures j < i && t.log[j] == (if d in background then Started(d) else Ran(d))
  {
    hide Logged, Reaches, DepsFirst;
    var n := EnteredPlace(order, background, t, m, stage, i);
    var a := ReachedIsBefore(g, order, n, d);
    SuccessPlace(order, background, t, m, stage, a);
    j := 4 * a + 3;
  }

  lemma EnteredPlace(order: seq<string>, background: set<string>, t: State, m: nat, stage: nat, i: nat) returns (n: nat)
    requires Logged(order, background, t, m, stage) && i < |t.log| && t.log[i].Entered?
    ensures n <= m && n < |order| && i == 4 * n + 2 && t.log[i].unit == order[n]
  {
    hide Logged, PartsOf;
    PartOfEvent(order, background, t, m, stage, i);
    WorkPart(order, background, t, m, stage, i);
    n := i / 4;
  }

  lemma SuccessPlace(order: seq<string>, background: set<string>, t: State, m: nat, stage: nat, a: nat)
    requires Logged(order, background, t, m, stage) && a < m && a < |order|
    ensures var j := 4 * a + 3; j < |t.log| && t.log[j] == if order[a] in background then Started(order[a]) else Ran(order[a])
  {
    hide Logged, PartsOf;
    PartLengths(order, background, t, m, stage);
    WorkPart(order, background, t, m, stage, 4 * a + 3);
    assert (4 * a + 3) / 4 == a && (4 * a + 3) % 4 == 3;
  }

  /**
    In a graph the engine built, a unit is run or started only after each unit
    that feeds one of its inputs has been run or started successfully.
   */
  lemma BoundSourcesReady(sc: W.Scenario, providers: seq<W.Provider>, nodes: map<string, W.Node>, order: seq<string>,
                          background: set<string>, t: State, i: nat, input: string)
    requires W.Sound(sc, providers, nodes, order) && TornDown(order, background, t)
    requires i < |t.log| && t.log[i].Entered? && t.log[i].unit in nodes && input in nodes[t.log[i].unit].bindings
    ensures var d := nodes[t.log[i].unit].bindings[input].unit;
            exists j :: 0 <= j < i && t.log[j] == (if d in background then Started(d) else Ran(d))
  {
    hide Logged;
    var m: nat, stage: nat :| Logged(order, background, t, m, stage);
    var n := EnteredPlace(order, background, t, m, stage, i);
    var a := BoundPlace(sc, providers, nodes, order, n, input);
    SuccessPlace(order, background, t, m, stage, a);
  }

  lemma BoundPlace(sc: W.Scenario, providers: seq<W.Provider>, nodes: map<string, W.Node>, order: seq<string>,
                   n: nat, input: string) returns (a: nat)
    requires W.Sound(sc, providers, nodes, order) && n < |order|
    requires order[n] in nodes && input in nodes[order[n]].bindings
    ensures a < n && order[a] == nodes[order[n]].bindings[input].unit
  {
    hide W.Wired;
    assert nodes[order[n]].bindings[input].unit in order[..n];
    a :| 0 <= a < n && order[a] == nodes[order[n]].bindings[input].unit;
  }

  /** Background tasks start in the order of the units. */
  lemma {:induction false} ActiveOrdered(units: seq<string>, background: set<string>, x: nat, y: nat, p: nat, q: nat)
    requires Distinct(units) && p < q < |units| && x < |ActiveOf(units, background)| && y < |ActiveOf(units, background)|
    requires ActiveOf(units, background)[x] == units[p] && ActiveOf(units, background)[y] == units[q]
    ensures x < y
  {
    var n := |units| - 1;
    var front := ActiveOf(units[..n], background);
    ActiveMembers(units[..n], background);
    assert units[n] !in units[..n];
    assert units[p] != units[n];
    if y < |front| {
      assert front[y] in front;
      assert q < n;
      ActiveOrdered(units[..n], background, x, y, p, q);
    }
  }

  /** A stopped task is a started one; its place in the shutdown mirrors its place in the start. */
  lemma StoppedAt(order: seq<string>, background: set<string>, t: State, m: nat, stage: nat, i: nat) returns (x: nat)
    requires Logged(order, background, t, m, stage) && i < |t.log| && t.log[i].Stopped?
    ensures var active := ActiveOf(order[..m], background);
            && x < |active| && active[x] == t.log[i].unit
            && i == |Trace(order, background, m, stage)| + |active| - 1 - x
  {
    hide ActiveOf, Targets, Trace, Logged;
    PartsExist(order, background, t, m, stage);
    PartOfEvent(order, background, t, m, stage, i);
    StopPart(order, background, t, m, stage, i);
    var p := PartsOf(order, background, t, m, stage);
    x := p.head + |p.active| - 1 - i;
  }

  /** No background task is stopped before the tasks that depend on it. */
  lemma StopsDependentsFirst(order: seq<string>, background: set<string>, t: State, g: Graph, i: nat, j: nat)
    requires TornDown(order, background, t) && Distinct(order) && DepsFirst(g, order)
    requires i < |t.log| && j < |t.log| && t.log[i].Stopped? && t.log[j].Stopped?
    requires Reaches(g, t.log[i].unit, t.log[j].unit)
    ensures i < j
  {
    hide Logged, ActiveOf, Trace, Reaches, DepsFirst, Distinct;
    var m: nat, stage: nat :| Logged(order, background, t, m, stage);
    PartsExist(order, background, t, m, stage);
    var x := StoppedAt(order, background, t, m, stage, i);
    var y := StoppedAt(order, background, t, m, stage, j);
    LaterStartedFirst(order, background, m, g, x, y);
  }

  lemma LaterStartedFirst(order: seq<string>, background: set<string>, m: nat, g: Graph, x: nat, y: nat)
    requires m <= |order| && Distinct(order) && DepsFirst(g, order)
    requires x < |ActiveOf(order[..m], background)| && y < |ActiveOf(order[..m], background)|
    requires Reaches(g, ActiveOf(order[..m], background)[x], ActiveOf(order[..m], background)[y])
    ensures y < x
  {
    hide ActiveOf, Reaches, DepsFirst;
    var active := ActiveOf(order[..m], background);
    ActiveMembers(order[..m], background);
    assert active[x] in order[..m] && active[y] in order[..m];
    var p :| 0 <= p < m && order[p] == active[x];
    var q :| 0 <= q < m && order[q] == active[y];
    DependenciesFirst(g, order, p, q);
    assert order[..m][p] == active[x] && order[..m][q] == active[y];
    ActiveOrdered(order[..m], background, y, x, q, p);
  }

  /** Two stops, the first of a unit that depends on the second's. */
  ghost predicate DependentStops(g: Graph, a: Event, b: Event) {
    a.Stopped? && b.Stopped? && Reaches(g, a.unit, b.unit)
  }

  ghost predicate DependentCloses(g: Graph, a: Event, b: Event) {
    a.Closed? && b.Closed? && Reaches(g, a.unit, b.unit)
  }

  /**
    In a graph the engine built, units wait for everything they transitively depend
    on, and neither tasks nor outputs are torn down before those of their dependents.
   */
  lemma BuiltGraphIsRespected(sc: W.Scenario, providers: seq<W.Provider>, nodes: map<string, W.Node>, order: seq<string>,
                              background: set<string>, t: State, i: nat)
    requires W.Sound(sc, providers, nodes, order) && TornDown(order, background, t) && i < |t.log|
    ensures var g := W.GraphOf(sc.units, providers);
            && (forall d :: t.log[i].Entered? && Reaches(g, t.log[i].unit, d) ==>
                  exists j :: 0 <= j < i && t.log[j] == (if d in background then Started(d) else Ran(d)))
            && (forall j :: 0 <= j < |t.log| && DependentStops(g, t.log[i], t.log[j]) ==> i < j)
            && (forall j :: 0 <= j < |t.log| && DependentCloses(g, t.log[i], t.log[j]) ==> i < j)
  {
    assert DepsFirst(W.GraphOf(sc.units, providers), order) && Distinct(order);
    hide W.Sound, W.GraphOf, TornDown, DepsFirst, Reaches, Distinct;
    var g := W.GraphOf(sc.units, providers);
    forall d | t.log[i].Entered? && Reaches(g, t.log[i].unit, d)
      ensures exists j :: 0 <= j < i && t.log[j] == (if d in background then Started(d) else Ran(d))
    {
      RunsAfterItsSources(order, background, t, g, i, d);
    }
    forall j | 0 <= j < |t.log| && DependentStops(g, t.log[i], t.log[j])
      ensures i < j
    {
      StopsDependentsFirst(order, background, t, g, i, j);
    }
    forall j | 0 <= j < |t.log| && DependentCloses(g, t.log[i], t.log[j])
      ensures i < j
    {
      ClosesDependentsFirst(order, background, t, g, i, j);
    }
  }

  /** Every background task that was started is stopped exactly once. */
  lemma StoppedOnce(order: seq<string>, background: set<string>, t: State, u: string)
    requires TornDown(order, background, t) && Distinct(order)
    ensures Started(u) in t.log <==> Stopped(u) in t.log
    ensures forall i, j :: 0 <= i < |t.log| && 0 <= j < |t.log| && t.log[i] == Stopped(u) && t.log[j] == Stopped(u) ==> i == j
  {
    hide Logged;
    var m: nat, stage: nat :| Logged(order, background, t, m, stage);
    StartedIffStopped(order, background, t, m, stage, u);
    forall i, j | 0 <= i < |t.log| && 0 <= j < |t.log| && t.log[i] == Stopped(u) && t.log[j] == Stopped(u)
      ensures i == j
    {
      StoppedTwice(order, background, t, m, stage, i, j);
    }
  }

  lemma StartedIffStopped(order: seq<string>, background: set<string>, t: State, m: nat, stage: nat, u: string)
    requires Logged(order, background, t, m, stage) && Distinct(order)
    ensures Started(u) in t.log <==> Stopped(u) in t.log
  {
    hide Logged;
    if Started(u) in t.log {
      var i :| 0 <= i < |t.log| && t.log[i] == Started(u);
      StartedStops(order, background, t, m, stage, i);
    }
    if Stopped(u) in t.log {
      var i :| 0 <= i < |t.log| && t.log[i] == Stopped(u);
      StoppedStarted(order, background, t, m, stage, i);
    }
  }

  lemma StoppedTwice(order: seq<string>, background: set<string>, t: State, m: nat, stage: nat, i: nat, j: nat)
    requires Logged(order, background, t, m, stage) && Distinct(order)
    requires i < |t.log| && j < |t.log| && t.log[i].Stopped? && t.log[j] == t.log[i]
    ensures i == j
  {
    hide ActiveOf, Trace;
    ActiveDistinct(order[..m], background);
    var x := StoppedAt(order, background, t, m, stage, i);
    var y := StoppedAt(order, background, t, m, stage, j);
    hide Logged;
  }

  lemma {:induction false} ActiveDistinct(units: seq<string>, background: set<string>)
    requires Distinct(units)
    ensures Distinct(ActiveOf(units, background))
  {
    if units != [] {
      var n := |units| - 1;
      ActiveDistinct(units[..n], background);
      ActiveMembers(units[..n], background);
      assert units[n] !in units[..n];
    }
  }

  lemma StartedStops(order: seq<string>, background: set<string>, t: State, m: nat, stage: nat, i: nat)
    requires Logged(order, background, t, m, stage) && i < |t.log| && t.log[i].Started?
    ensures Stopped(t.log[i].unit) in t.log
  {
    hide ActiveOf, Logged, Targets, Trace;
    PartsExist(order, background, t, m, stage);
    PartOfEvent(order, background, t, m, stage, i);
    PartLengths(order, background, t, m, stage);
    StartedInFull(order, background, t, m, stage, i);
    var p, u := PartsOf(order, background, t, m, stage), t.log[i].unit;
    var x := ActivePlace(order, background, m, i / 4);
    StopPart(order, background, t, m, stage, p.head + |p.active| - 1 - x);
    assert t.log[p.head + |p.active| - 1 - x] == Stopped(u);
  }

  lemma ActivePlace(order: seq<string>, background: set<string>, m: nat, n: nat) returns (x: nat)
    requires n < m <= |order| && order[n] in background
    ensures x < |ActiveOf(order[..m], background)| && ActiveOf(order[..m], background)[x] == order[n]
  {
    ActiveMembers(order[..m], background);
    hide ActiveOf;
    assert order[..m][n] == order[n];
    x :| 0 <= x < |ActiveOf(order[..m], background)| && ActiveOf(order[..m], background)[x] == order[n];
  }

  /** A start is only logged for a unit that succeeded. */
  lemma StartedInFull(order: seq<string>, background: set<string>, t: State, m: nat, stage: nat, i: nat)
    requires Logged(order, background, t, m, stage) && i < PartsOf(order, background, t, m, stage).head
    requires t.log[i].Started?
    ensures i / 4 < m && t.log[i].unit == order[i / 4] && order[i / 4] in background
  {
    hide WorkOf, ActiveOf, Targets, Logged, Trace, Stages;
    PartsExist(order, background, t, m, stage);
    WorkPart(order, background, t, m, stage, i);
    TraceLength(order, background, m, stage);
    LastOfFour(i, m);
  }

  lemma TraceLength(order: seq<string>, background: set<string>, m: nat, stage: nat)
    requires m <= |order|
    ensures |Trace(order, background, m, stage)| <= 4 * m + 3
  {
    WorkLength(order[..m], background);
    hide WorkOf;
  }

  lemma LastOfFour(i: nat, m: nat)
    requires i < 4 * m + 3 && i % 4 == 3
    ensures i / 4 < m
  {
  }

  lemma StoppedStarted(order: seq<string>, background: set<string>, t: State, m: nat, stage: nat, i: nat)
    requires Logged(order, background, t, m, stage) && i < |t.log| && t.log[i].Stopped?
    ensures Started(t.log[i].unit) in t.log
  {
    hide Logged, ActiveOf, Trace;
    PartsExist(order, background, t, m, stage);
    var x := StoppedAt(order, background, t, m, stage, i);
    var p := StartPlace(order, background, m, x);
    SuccessPlace(order, background, t, m, stage, p);
  }

  /** A background task stands for a unit of the order. */
  lemma StartPlace(order: seq<string>, background: set<string>, m: nat, x: nat) returns (p: nat)
    requires m <= |order| && x < |ActiveOf(order[..m], background)|
    ensures p < m && order[p] == ActiveOf(order[..m], background)[x] && order[p] in background
  {
    ActiveMembers(order[..m], background);
    hide ActiveOf;
    var u := ActiveOf(order[..m], background)[x];
    assert u in ActiveOf(order[..m], background);
    p :| 0 <= p < m && order[p] == u;
  }

  /** Where a close stands in the cleanup. */
  lemma ClosedAt(order: seq<string>, background: set<string>, t: State, m: nat, stage: nat, i: nat) returns (k: nat)
    requires Logged(order, background, t, m, stage) && i < |t.log| && t.log[i].Closed?
    ensures var targets := Targets(order, t.outputs);
            && k < |targets| && targets[k] == Target(t.log[i].unit, t.log[i].port)
            && i == |t.log| - |targets| + k
  {
    hide Logged, PartsOf, Targets;
    PartsExist(order, background, t, m, stage);
    var p := PartsOf(order, background, t, m, stage);
    PartOfEvent(order, background, t, m, stage, i);
    PartLengths(order, background, t, m, stage);
    ClosePart(order, background, t, m, stage, i);
    k := i - p.head - |p.active|;
  }

  /** No output is closed before those of the units that depend on its unit. */
  lemma ClosesDependentsFirst(order: seq<string>, background: set<string>, t: State, g: Graph, i: nat, j: nat)
    requires TornDown(order, background, t) && Distinct(order) && DepsFirst(g, order)
    requires i < |t.log| && j < |t.log| && t.log[i].Closed? && t.log[j].Closed?
    requires Reaches(g, t.log[i].unit, t.log[j].unit)
    ensures i < j
  {
    var m: nat, stage: nat :| Logged(order, background, t, m, stage);
    var x := ClosedAt(order, background, t, m, stage, i);
    var y := ClosedAt(order, background, t, m, stage, j);
    hide Logged, Trace;
    TargetHasOutput(order, t.outputs, Targets(order, t.outputs)[x]);
    TargetHasOutput(order, t.outputs, Targets(order, t.outputs)[y]);
    var p :| 0 <= p < |order| && order[p] == t.log[i].unit;
    var q :| 0 <= q < |order| && order[q] == t.log[j].unit;
    hide Targets;
    DependenciesFirst(g, order, p, q);
    LaterUnitsCloseFirst(order, t.outputs, x, y, q, p);
  }

  /** Every closeable output is closed exactly once, after the last Stop. */
  lemma ClosesEachOnce(order: seq<string>, background: set<string>, t: State, u: string, port: string)
    requires TornDown(order, background, t) && Distinct(order)
    ensures Closed(u, port) in t.log <==>
              u in order && u in t.outputs && port in t.outputs[u] && t.outputs[u][port]
    ensures forall i, j :: 0 <= i < |t.log| && 0 <= j < |t.log| && t.log[i] == Closed(u, port) ==>
              (t.log[j] == Closed(u, port) ==> i == j) && (t.log[j].Stopped? ==> j < i)
  {
    var m: nat, stage: nat :| Logged(order, background, t, m, stage);
    ClosedOnce(order, t.outputs);
    var targets := Targets(order, t.outputs);
    hide Logged, Targets;
    forall i | 0 <= i < |t.log| && t.log[i] == Closed(u, port)
      ensures Target(u, port) in targets
    {
      var k := ClosedAt(order, background, t, m, stage, i);
    }
    if Target(u, port) in targets {
      var k :| 0 <= k < |targets| && targets[k] == Target(u, port);
      TargetLogged(order, background, t, m, stage, k);
    }
    forall i, j | 0 <= i < |t.log| && 0 <= j < |t.log| && t.log[i] == Closed(u, port)
      ensures (t.log[j] == Closed(u, port) ==> i == j) && (t.log[j].Stopped? ==> j < i)
    {
      PartOfEvent(order, background, t, m, stage, i);
      PartOfEvent(order, background, t, m, stage, j);
      var x := ClosedAt(order, background, t, m, stage, i);
      if t.log[j] == Closed(u, port) { var y := ClosedAt(order, background, t, m, stage, j); }
    }
  }

  lemma TargetLogged(order: seq<string>, background: set<string>, t: State, m: nat, stage: nat, k: nat)
    requires Logged(order, background, t, m, stage) && k < |Targets(order, t.outputs)|
    ensures Closed(Targets(order, t.outputs)[k].unit, Targets(order, t.outputs)[k].port) in t.log
  {
    PartLengths(order, background, t, m, stage);
    hide Targets, ActiveOf, Trace, Logged;
    var i := |t.log| - |Targets(order, t.outputs)| + k;
    ClosePart(order, background, t, m, stage, i);
    assert t.log[i].Closed?;
  }
}
