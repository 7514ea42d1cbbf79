/** Engine.Run of benchkit/kernel/kernel.go, and what it guarantees on every way out. */
module EngineRun {
  import opened Outcomes
  import opened Ordering
  import opened Engine
  import opened EngineProgress
  import opened Shutdown

  /** The calls to a unit that precede its success: Validate, Plan, then Run or Start. */
  function Stages(u: string, stage: nat): seq<Event> {
    match stage
    case 0 => []
    case 1 => [Validated(u)]
    case 2 => [Validated(u), Planned(u)]
    case _ => [Validated(u), Planned(u), Entered(u)]
  }

  /** What running the units to the end leaves in the log. */
  function WorkOf(units: seq<string>, background: set<string>): seq<Event> {
    if units == [] then []
    else
      var u := units[|units| - 1];
      WorkOf(units[..|units| - 1], background) + Stages(u, 3)
      + [if u in background then Started(u) else Ran(u)]
  }

  /** The background units, in the order of their start. */
  function ActiveOf(units: seq<string>, background: set<string>): seq<string> {
    if units == [] then []
    else
      var u := units[|units| - 1];
      ActiveOf(units[..|units| - 1], background) + (if u in background then [u] else [])
  }

  /** The first `m` units succeeded; the next one got as far as `stage`. */
  function Trace(order: seq<string>, background: set<string>, m: nat, stage: nat): seq<Event> {
    if m > |order| then []
    else WorkOf(order[..m], background) + (if m < |order| then Stages(order[m], stage) else [])
  }

  lemma {:induction false} ActiveMembers(units: seq<string>, background: set<string>)
    ensures forall u :: u in ActiveOf(units, background) <==> u in units && u in background
  {
    if units != [] {
      ActiveMembers(units[..|units| - 1], background);
      assert units == units[..|units| - 1] + [units[|units| - 1]];
    }
  }

  // ------------------------------------------------------------ what Run guarantees

  /** Work in order, then every started task stopped in reverse order, then every closeable output closed. */
  ghost predicate Logged(order: seq<string>, background: set<string>, t: State, m: nat, stage: nat) {
    && m <= |order| && t.active == ActiveOf(order[..m], background)
    && t.log == Trace(order, background, m, stage)
                + StopEvents(Reverse(ActiveOf(order[..m], background)))
                + CloseEvents(Targets(order, t.outputs))
  }

  ghost predicate TornDown(order: seq<string>, background: set<string>, t: State) {
    exists m: nat, stage: nat :: Logged(order, background, t, m, stage)
  }

  ghost predicate HasResults(order: seq<string>, k: nat, results: map<string, UnitResult>) {
    k <= |order| && forall u :: u in results <==> u in order[..k]
  }

  /** The units with results are the first so many of the order. */
  ghost predicate Prefixed(order: seq<string>, t: State) {
    exists k: nat :: HasResults(order, k, t.results)
  }

  /** Every error a monitor took is in the returned error once, and its unit's result is failed. */
  ghost predicate NoneLost(err: seq<Cause>, t: State) {
    && BackgroundsIn(err) == t.sent
    && (forall f :: f in t.taken <==> f in t.sent)
    && (forall j, k :: 0 <= j < k < |t.sent| ==> t.sent[j].unit != t.sent[k].unit)
    && (forall f :: f in t.sent ==> f.unit in t.results && t.results[f.unit].status.WorkerFailed?)
  }

  ghost predicate AllCompleted(order: seq<string>, t: State) {
    forall u :: u in order ==> u in t.results && t.results[u].status.Completed?
  }

  /** No error, a completed status and completed results everywhere are one and the same. */
  ghost predicate Agrees(order: seq<string>, status: Status, err: seq<Cause>, t: State) {
    && (err == [] <==> status.Completed?)
    && (err == [] <==> AllCompleted(order, t))
  }

  /** What the first cause says about the status and the result of the unit at fault. */
  ghost predicate Explained(background: set<string>, status: Status, err: seq<Cause>, t: State) {
    err != [] ==>
      match err[0]
      case Validating(u, text) =>
        && FailedWith(t, u, ConfigFailed, text) && status == (if |err| == 1 then ConfigFailed else WorkerFailed)
      case Planning(u, text) =>
        && FailedWith(t, u, PlanFailed, text) && status == (if |err| == 1 then PlanFailed else WorkerFailed)
      case Starting(u, text) => u in background && FailedWith(t, u, WorkerFailed, text) && status == WorkerFailed
      case Running(u, text) => u !in background && FailedWith(t, u, WorkerFailed, text) && status == WorkerFailed
      case _ => status == WorkerFailed
  }

  ghost predicate FailedWith(t: State, u: string, status: Status, text: string) {
    u in t.results && t.results[u].status == status && t.results[u].errors == [text]
  }

  predicate OfWork(query: Query) {
    query.ToValidate? || query.ToPlan? || query.ToEnter?
  }

  /** Before a unit is validated, and before Run is called on it, Run looks for background failures. */
  predicate Checks(background: set<string>, query: Query) {
    query.ToValidate? || (query.ToEnter? && query.unit !in background)
  }

  /** Whenever it looks, nothing has arrived. */
  ghost predicate Checked(background: set<string>, asked: seq<Answer>) {
    forall i :: 0 < i < |asked| && Checks(background, asked[i].query) ==> asked[i - 1].pending == []
  }

  /**
    The work goes on only while the answers call for no cause; what the last one
    calls for comes first in the error. Every cause an answer calls for is in the
    error, and every cause that is no background failure is called for by an answer.
   */
  ghost predicate Charged(background: set<string>, err: seq<Cause>, t: State) {
    && Checked(background, t.asked)
    && (forall i, j :: 0 <= i < j < |t.asked| && OfWork(t.asked[j].query) ==>
          OfWork(t.asked[i].query) && Charge(background, t.asked[i]) == [])
    && (forall i :: 0 <= i < |t.asked| && OfWork(t.asked[i].query) ==> Charge(background, t.asked[i]) <= err)
    && (forall i, c :: 0 <= i < |t.asked| && c in Charge(background, t.asked[i]) ==> c in err)
    && (forall c :: c in err && !c.Background? ==> exists i :: 0 <= i < |t.asked| && c in Charge(background, t.asked[i]))
  }

  /** Every task has the result due, and every unit lists the outputs whose Close failed. */
  ghost predicate ResultsDue(err: seq<Cause>, t: State) {
    && (forall u :: u in t.active ==>
          && u in t.results && t.results[u].errors == ErrorsDue(t, err, u)
          && t.results[u].status == (if ErrorsDue(t, err, u) == [] then Completed else WorkerFailed))
    && (forall u :: u in t.results ==> t.results[u].cleanup == PortsAt(u, Unclosed(t.asked)))
  }

  ghost predicate RunOk(order: seq<string>, background: set<string>, status: Status, err: seq<Cause>, t: State) {
    && TornDown(order, background, t) && Prefixed(order, t) && NoneLost(err, t) && Agrees(order, status, err, t)
    && Steady(t) && Charged(background, err, t) && ResultsDue(err, t)
  }

  // ------------------------------------------------------------------ on the way

  /**
    The first `n` units succeeded, the next one got as far as `stage`, and no
    background failure has been received.
   */
  ghost predicate At(order: seq<string>, background: set<string>, n: nat, stage: nat, s: State) {
    && n <= |order| && (stage > 0 ==> n < |order|) && Steady(s) && s.room == |order|
    && s.active == ActiveOf(order[..n], background) && s.log == Trace(order, background, n, stage)
    && Drained(s) == [] && s.fatal == map[]
    && Succeeded(order, background, n, s)
    && (forall u :: u in s.outputs ==> u in order[..n] || (stage >= 3 && u == order[n]))
    && EnteredBy(order, n, stage, s.asked)
  }

  ghost predicate EnteredBy(order: seq<string>, n: nat, stage: nat, asked: seq<Answer>) {
    && n <= |order| && (stage > 0 ==> n < |order|)
    && forall i :: 0 <= i < |asked| && asked[i].query.ToEnter? ==>
         asked[i].query.unit in order[..n] || (stage >= 3 && asked[i].query.unit == order[n])
  }

  /** No answer so far called for a cause. */
  ghost predicate Smooth(background: set<string>, asked: seq<Answer>) {
    && Checked(background, asked)
    && forall i :: 0 <= i < |asked| ==> OfWork(asked[i].query) && Charge(background, asked[i]) == []
  }

  /** The error channel is as the last wait left it. */
  predicate Untouched(s: State) {
    s.queue == if s.asked == [] then [] else s.asked[|s.asked| - 1].pending
  }

  /** The work ends with what the last answer calls for, or else with background failures alone. */
  ghost predicate Owed(background: set<string>, asked: seq<Answer>, primary: seq<Cause>) {
    || (Smooth(background, asked) && forall c :: c in primary ==> c.Background?)
    || (&& asked != []
        && Checked(background, asked)
        && var n := |asked| - 1;
           && Smooth(background, asked[..n]) && OfWork(asked[n].query) && primary == Charge(background, asked[n]))
  }

  ghost predicate Succeeded(order: seq<string>, background: set<string>, n: nat, s: State) {
    && n <= |order|
    && (forall u :: u in s.results <==> u in order[..n] && u !in background)
    && (forall u :: u in s.results ==> s.results[u].status.Completed? && s.results[u].cleanup == [])
  }

  /** The unit that made Run give up has a failed result, or none. */
  ghost predicate Results(order: seq<string>, background: set<string>, m: nat, s: State) {
    && m <= |order|
    && (forall u :: u in s.results ==> (u in order[..m] && u !in background) || (m < |order| && u == order[m]))
    && (forall u :: u in order[..m] && u !in background ==> u in s.results && s.results[u].status.Completed?)
    && (m < |order| && order[m] in s.results ==> !s.results[order[m]].status.Completed?)
    && (forall u :: u in s.outputs ==> u in order[..m] || u in s.results)
    && (forall u :: u in s.results ==> s.results[u].cleanup == [])
  }

  /** Run is about to stop the background tasks and return `primary`, with whatever the shutdown adds. */
  ghost predicate Leaving(order: seq<string>, background: set<string>, m: nat, stage: nat, s: State, primary: seq<Cause>) {
    && m <= |order| && Steady(s)
    && s.active == ActiveOf(order[..m], background) && s.log == Trace(order, background, m, stage)
    && Drained(s) == BackgroundsIn(primary) && (forall v :: v in s.fatal ==> Failure(v, s.fatal[v]) in s.sent)
    && Results(order, background, m, s) && Owed(background, s.asked, primary)
    && (m == |order| ==> primary == Wrap(Drained(s)))
    && (m < |order| ==> primary != [])
  }

  // -------------------------------------------------------------------- way out

  /** What is known once the tasks are stopped and the outputs closed. */
  ghost predicate Out(order: seq<string>, background: set<string>, m: nat, stage: nat, s: State, primary: seq<Cause>,
                      t: State, causes: seq<Cause>, u: State, failed: seq<Target>) {
    && Leaving(order, background, m, stage, s, primary)
    && Progress(s, t, causes) && t.queue == []
    && t.log == s.log + StopEvents(Reverse(s.active))
    && Judged(s, t, causes, Reverse(s.active)) && Heard(s, t, causes)
    && u == t.(log := t.log + CloseEvents(Targets(order, t.outputs)), results := u.results, asked := u.asked)
    && Noted(t, u, failed) && Steady(u) && Closings(t, u, failed)
  }

  /** The last answers are those to the calls that close outputs. */
  ghost predicate Closings(s: State, t: State, failed: seq<Target>) {
    && Unclosed(t.asked) == Unclosed(s.asked) + failed
    && s.asked <= t.asked && forall i :: |s.asked| <= i < |t.asked| ==> t.asked[i].query.ToClose?
  }

  lemma ReverseMembers(xs: seq<string>)
    ensures forall x :: x in Reverse(xs) <==> x in xs
  {
    var r := Reverse(xs);
    hide Reverse;
    forall x
      ensures x in r <==> x in xs
    {
      if x in xs {
        var i :| 0 <= i < |xs| && xs[i] == x;
        assert r[|xs| - 1 - i] == x;
      }
    }
  }

  /** After the shutdown every started unit has its result. */
  lemma StoppedResults(order: seq<string>, background: set<string>, m: nat, s: State, t: State, causes: seq<Cause>)
    requires m <= |order| && s.active == ActiveOf(order[..m], background) && Results(order, background, m, s)
    requires Judged(s, t, causes, Reverse(s.active))
    ensures forall u :: u in order[..m] ==> u in t.results
    ensures forall u :: u in t.results ==> u in order[..m] || (m < |order| && u == order[m])
    ensures forall u :: u in s.results ==> u in t.results
  {
    ReverseMembers(s.active);
    ActiveMembers(order[..m], background);
    hide Verdict, Settled;
  }

  lemma OutputsHaveResults(order: seq<string>, background: set<string>, m: nat, s: State, t: State, causes: seq<Cause>)
    requires m <= |order| && s.active == ActiveOf(order[..m], background) && Results(order, background, m, s)
    requires Judged(s, t, causes, Reverse(s.active)) && Progress(s, t, causes)
    ensures forall u :: u in t.outputs ==> u in t.results
  {
    StoppedResults(order, background, m, s, t, causes);
    ActiveMembers(order[..m], background);
    hide Judged, FatalBy, Steady, BackgroundsIn, Settled;
  }

  lemma OutLogged(order: seq<string>, background: set<string>, m: nat, stage: nat, s: State, primary: seq<Cause>,
                  t: State, causes: seq<Cause>, u: State, failed: seq<Target>)
    requires Out(order, background, m, stage, s, primary, t, causes, u, failed)
    ensures TornDown(order, background, u)
  {
    hide Steady, Progress, Judged, Noted, Results, ActiveOf, Trace, Closings, Heard, Owed;
    ProgressSteady(s, t, causes);
    assert Logged(order, background, u, m, stage);
  }

  lemma OutPrefixed(order: seq<string>, background: set<string>, m: nat, stage: nat, s: State, primary: seq<Cause>,
                    t: State, causes: seq<Cause>, u: State, failed: seq<Target>)
    requires Out(order, background, m, stage, s, primary, t, causes, u, failed)
    ensures Prefixed(order, u)
  {
    hide Steady, Progress, SentBy, Judged, Results, PortsAt, ActiveOf, Trace, BackgroundsIn, Wrap, Targets, StopEvents;
    StoppedResults(order, background, m, s, t, causes);
    KeysAreCounted(order, m, u.results);
  }

  lemma KeysAreCounted(order: seq<string>, m: nat, results: map<string, UnitResult>)
    requires m <= |order| && forall u :: u in order[..m] ==> u in results
    requires forall u :: u in results ==> u in order[..m] || (m < |order| && u == order[m])
    ensures exists k: nat :: HasResults(order, k, results)
  {
    if m < |order| && order[m] in results {
      assert order[..m + 1] == order[..m] + [order[m]];
      assert HasResults(order, m + 1, results);
    } else {
      assert HasResults(order, m, results);
    }
  }

  lemma BackgroundsSplit(s: State, primary: seq<Cause>, t: State, causes: seq<Cause>)
    requires |s.queue| <= |s.sent| && Drained(s) == BackgroundsIn(primary) && Progress(s, t, causes) && t.queue == []
    ensures BackgroundsIn(primary + causes) == t.sent
  {
    BackgroundsJoin(primary, causes);
    hide Steady, Onward, FatalBy, BackgroundsIn;
    assert Drained(t) == t.sent;
  }

  lemma OutNoneLost(order: seq<string>, background: set<string>, m: nat, stage: nat, s: State, primary: seq<Cause>,
                    t: State, causes: seq<Cause>, u: State, failed: seq<Target>)
    requires Out(order, background, m, stage, s, primary, t, causes, u, failed)
    ensures NoneLost(primary + causes, u)
  {
    hide Out, Progress, Judged, Leaving, BackgroundsIn, Steady, Reverse, Noted;
    OutParts(order, background, m, stage, s, primary, t, causes, u, failed);
    LeavingSteady(order, background, m, stage, s, primary);
    BackgroundsSplit(s, primary, t, causes);
    SentJudged(s, t, causes);
    assert forall f :: f in u.sent ==> f.unit in t.results && t.results[f.unit].status.WorkerFailed?;
  }

  lemma OutParts(order: seq<string>, background: set<string>, m: nat, stage: nat, s: State, primary: seq<Cause>,
                 t: State, causes: seq<Cause>, u: State, failed: seq<Target>)
    requires Out(order, background, m, stage, s, primary, t, causes, u, failed)
    ensures Leaving(order, background, m, stage, s, primary) && Progress(s, t, causes) && t.queue == []
    ensures Judged(s, t, causes, Reverse(s.active)) && Heard(s, t, causes)
    ensures u.sent == t.sent && u.taken == t.taken
    ensures forall v :: v in t.results && t.results[v].status.WorkerFailed? ==> v in u.results && u.results[v].status.WorkerFailed?
  {
    hide Leaving, Progress, Judged, Reverse, Targets;
  }

  lemma LeavingSteady(order: seq<string>, background: set<string>, m: nat, stage: nat, s: State, primary: seq<Cause>)
    requires Leaving(order, background, m, stage, s, primary)
    ensures Steady(s) && |s.queue| <= |s.sent| && Drained(s) == BackgroundsIn(primary)
  {
  }

  /** With every monitor gone, what was taken was sent, and who sent is judged failed. */
  lemma SentJudged(s: State, t: State, causes: seq<Cause>)
    requires Progress(s, t, causes) && Judged(s, t, causes, Reverse(s.active))
    ensures forall f :: f in t.taken <==> f in t.sent
    ensures forall j, k :: 0 <= j < k < |t.sent| ==> t.sent[j].unit != t.sent[k].unit
    ensures forall f :: f in t.sent ==> f.unit in t.results && t.results[f.unit].status.WorkerFailed?
  {
    hide Progress, Judged, Reverse, SentOk, SentBy;
    ProgressFacts(s, t, causes);
    ActiveJudged(s, t, causes);
    AllSettledSent(t);
    forall f | f in t.sent
      ensures f.unit in t.results && t.results[f.unit].status.WorkerFailed?
    {
      SentIsBlamed(t, causes, f);
    }
  }

  lemma ProgressFacts(s: State, t: State, causes: seq<Cause>)
    requires Progress(s, t, causes)
    ensures t.active == s.active && SentOk(t) && forall v :: v in t.monitors <==> v in t.active
  {
  }

  lemma ActiveJudged(s: State, t: State, causes: seq<Cause>)
    requires Judged(s, t, causes, Reverse(s.active))
    ensures forall u :: u in s.active ==> Settled(t, u) && Verdict(t, causes, u)
  {
    ReverseMembers(s.active);
    hide Reverse, Settled, Verdict;
  }

  lemma AllSettledSent(t: State)
    requires SentOk(t) && forall v :: v in t.monitors ==> Settled(t, v)
    ensures forall f :: f in t.taken <==> f in t.sent
    ensures forall j, k :: 0 <= j < k < |t.sent| ==> t.sent[j].unit != t.sent[k].unit
    ensures forall f :: f in t.sent ==> f.unit in t.monitors
  {
  }

  lemma SentIsBlamed(t: State, causes: seq<Cause>, f: Failure)
    requires f in t.sent && Verdict(t, causes, f.unit)
    ensures f.unit in t.results && t.results[f.unit].status.WorkerFailed?
  {
    var k :| 0 <= k < |t.sent| && t.sent[k] == f;
    assert SentBy(t, f.unit);
    BlamedIff(t, causes, f.unit);
    hide ErrorsDue;
  }

  /** The unit at which Run gave up is not completed. */
  lemma GaveUpAt(order: seq<string>, background: set<string>, m: nat, s: State, t: State, causes: seq<Cause>)
    requires Distinct(order) && m < |order| && s.active == ActiveOf(order[..m], background)
    requires Results(order, background, m, s) && Judged(s, t, causes, Reverse(s.active))
    ensures !AllCompleted(order, t)
  {
    var u := order[m];
    ReverseMembers(s.active);
    ActiveMembers(order[..m], background);
    hide Verdict, Settled, Reverse, ActiveOf;
    assert u in order && u !in order[..m];
    assert u in t.results ==> u in s.results && t.results[u] == s.results[u];
  }

  /** A cause names a unit that is judged failed. */
  lemma CauseBlames(s: State, t: State, causes: seq<Cause>, c: Cause)
    requires Judged(s, t, causes, Reverse(s.active)) && Heard(s, t, causes) && c in causes && !c.Background?
    ensures c.unit in s.active && c.unit in t.results && t.results[c.unit].status.WorkerFailed?
  {
    ReverseMembers(s.active);
    HeardCause(s, t, causes, c);
    hide Reverse, Settled, ErrorsDue, Heard;
    assert c.unit in Reverse(s.active);
    BlamedIff(t, causes, c.unit);
  }

  lemma HeardCause(s: State, t: State, causes: seq<Cause>, c: Cause)
    requires Heard(s, t, causes) && c in causes && !c.Background?
    ensures c.Overdue? || c.Stopping?
  {
    var i :| |s.asked| <= i < |t.asked| && c in StopCharge(t.asked[i]);
  }

  lemma {:induction false} BackgroundAmong(causes: seq<Cause>, c: Cause)
    requires c in causes && c.Background?
    ensures Failure(c.unit, c.text) in BackgroundsIn(causes)
  {
    var n := |causes| - 1;
    if c != causes[n] { BackgroundAmong(causes[..n], c); }
  }

  /** Something went wrong, so some unit is not completed. */
  lemma FailureShows(order: seq<string>, background: set<string>, m: nat, stage: nat, s: State, primary: seq<Cause>,
                     t: State, causes: seq<Cause>)
    requires Distinct(order) && Leaving(order, background, m, stage, s, primary)
    requires Progress(s, t, causes) && t.queue == [] && Judged(s, t, causes, Reverse(s.active)) && Heard(s, t, causes)
    requires primary + causes != []
    ensures !AllCompleted(order, t)
  {
    hide Progress, Judged, Steady, BackgroundsIn, Reverse, Results, Wrap, ActiveOf, AllCompleted, Trace, Heard, Owed;
    if m < |order| {
      GaveUpAt(order, background, m, s, t, causes);
    } else {
      assert order[..m] == order;
      LeavingSteady(order, background, m, stage, s, primary);
      BackgroundsSplit(s, primary, t, causes);
      WrapUnwraps(Drained(s));
      SomeoneBlamed(order, background, s, primary, t, causes);
    }
  }

  lemma SomeoneBlamed(order: seq<string>, background: set<string>, s: State, primary: seq<Cause>, t: State, causes: seq<Cause>)
    requires s.active == ActiveOf(order, background) && primary + causes != []
    requires forall c :: c in primary ==> c.Background?
    requires BackgroundsIn(primary + causes) == t.sent
    requires Progress(s, t, causes) && Judged(s, t, causes, Reverse(s.active)) && Heard(s, t, causes)
    ensures !AllCompleted(order, t)
  {
    hide Progress, Judged, BackgroundsIn, Reverse, ActiveOf, Heard;
    var c := (primary + causes)[0];
    SentJudged(s, t, causes);
    ActiveMembers(order, background);
    if c.Background? {
      BackgroundAmong(primary + causes, c);
      SentInOrder(order, background, s, t, causes, Failure(c.unit, c.text));
    } else {
      assert c in causes by { assert c !in primary; }
      CauseBlames(s, t, causes, c);
      assert c.unit in order;
    }
  }

  lemma SentInOrder(order: seq<string>, background: set<string>, s: State, t: State, causes: seq<Cause>, f: Failure)
    requires Progress(s, t, causes) && f in t.sent && s.active == ActiveOf(order, background)
    ensures f.unit in order
  {
    ActiveMembers(order, background);
    hide ActiveOf, BackgroundsIn, FatalBy, QueueOk;
    assert t.active == s.active;
  }

  /** Nothing went wrong, so every unit is completed. */
  lemma SuccessShows(order: seq<string>, background: set<string>, stage: nat, s: State, t: State)
    requires Leaving(order, background, |order|, stage, s, [])
    requires Progress(s, t, []) && t.queue == [] && Judged(s, t, [], Reverse(s.active))
    ensures AllCompleted(order, t)
  {
    assert order[..|order|] == order;
    BackgroundsSplit(s, [], t, []);
    var none: seq<Cause> := [];
    assert none + none == none;
    assert t.sent == [];
    hide Progress, Steady, Reverse, ActiveOf, Judged, Verdict;
    ActiveJudged(s, t, []);
    ActiveMembers(order, background);
    OthersKept(s, t, []);
    forall u | u in order
      ensures u in t.results && t.results[u].status.Completed?
    {
      if u in background { Unblamed(t, u); }
    }
  }

  lemma OthersKept(s: State, t: State, causes: seq<Cause>)
    requires Judged(s, t, causes, Reverse(s.active))
    ensures forall u :: u in s.results && u !in s.active ==> u in t.results && t.results[u] == s.results[u]
  {
    ReverseMembers(s.active);
    hide Reverse, Settled, Verdict;
  }

  lemma Unblamed(t: State, u: string)
    requires Verdict(t, [], u) && t.sent == []
    ensures u in t.results && t.results[u].status.Completed?
  {
    BlamedIff(t, [], u);
    hide ErrorsDue;
  }

  lemma CleanupKeepsVerdicts(order: seq<string>, t: State, u: State, failed: seq<Target>)
    requires Noted(t, u, failed)
    ensures AllCompleted(order, u) <==> AllCompleted(order, t)
  {
    hide PortsAt;
  }

  lemma OutAgrees(order: seq<string>, background: set<string>, m: nat, stage: nat, s: State, primary: seq<Cause>,
                  t: State, causes: seq<Cause>, u: State, failed: seq<Target>)
    requires Distinct(order) && Out(order, background, m, stage, s, primary, t, causes, u, failed)
    ensures AllCompleted(order, u) <==> primary + causes == []
  {
    hide Leaving, Progress, Judged, Noted, AllCompleted, Heard, Steady, Closings, Targets;
    CleanupKeepsVerdicts(order, t, u, failed);
    if primary + causes == [] {
      assert primary == [] && causes == [];
      LeavingAtEnd(order, background, m, stage, s);
      SuccessShows(order, background, stage, s, t);
    } else {
      FailureShows(order, background, m, stage, s, primary, t, causes);
    }
  }

  lemma LeavingAtEnd(order: seq<string>, background: set<string>, m: nat, stage: nat, s: State)
    requires Leaving(order, background, m, stage, s, [])
    ensures m == |order|
  {
  }

  /** What the answers called for is what is returned. */
  lemma OutCharged(order: seq<string>, background: set<string>, m: nat, stage: nat, s: State, primary: seq<Cause>,
                   t: State, causes: seq<Cause>, u: State, failed: seq<Target>)
    requires Out(order, background, m, stage, s, primary, t, causes, u, failed)
    ensures Steady(u) && Charged(background, primary + causes, u)
  {
    hide Progress, Judged, Noted, Results, Steady, Targets, Owed, Heard, Closings, ActiveOf, Trace, Wrap;
    AnswersSplit(background, s, primary, t, causes, u, failed);
  }

  lemma AnswersSplit(background: set<string>, s: State, primary: seq<Cause>, t: State, causes: seq<Cause>, u: State,
                     failed: seq<Target>)
    requires Owed(background, s.asked, primary) && Heard(s, t, causes) && Closings(t, u, failed)
    ensures Charged(background, primary + causes, u)
  {
    OwedWork(background, s.asked, primary);
    HeardCharge(background, s, t, causes);
    hide Owed, Heard, Charge, StopCharge, Unclosed;
    forall i | 0 <= i < |u.asked|
      ensures i < |s.asked| ==> u.asked[i] == s.asked[i]
      ensures |s.asked| <= i < |t.asked| ==> u.asked[i] == t.asked[i]
      ensures i >= |s.asked| ==> !OfWork(u.asked[i].query)
      ensures i >= |t.asked| ==> Charge(background, u.asked[i]) == []
    {
      if i >= |t.asked| { CloseCharge(background, u.asked[i]); }
    }
    CheckedStays(background, s.asked, u.asked);
    forall c | c in primary + causes && !c.Background?
      ensures exists i :: 0 <= i < |u.asked| && c in Charge(background, u.asked[i])
    {
      if c in primary {
        var i :| 0 <= i < |s.asked| && c in Charge(background, s.asked[i]);
        assert u.asked[i] == s.asked[i];
      } else {
        var i :| |s.asked| <= i < |t.asked| && c in Charge(background, t.asked[i]);
        assert u.asked[i] == t.asked[i];
      }
    }
  }

  lemma CheckedStays(background: set<string>, asked: seq<Answer>, more: seq<Answer>)
    requires Checked(background, asked) && asked <= more
    requires forall i :: |asked| <= i < |more| ==> !OfWork(more[i].query)
    ensures Checked(background, more)
  {
  }

  lemma OwedWork(background: set<string>, asked: seq<Answer>, primary: seq<Cause>)
    requires Owed(background, asked, primary)
    ensures Checked(background, asked)
    ensures forall i :: 0 <= i < |asked| ==> OfWork(asked[i].query) && Charge(background, asked[i]) <= primary
    ensures forall i :: 0 <= i < |asked| - 1 ==> Charge(background, asked[i]) == []
    ensures forall i, c :: 0 <= i < |asked| && c in Charge(background, asked[i]) ==> c in primary
    ensures forall c :: c in primary && !c.Background? ==> exists i :: 0 <= i < |asked| && c in Charge(background, asked[i])
  {
    hide Charge;
    forall i | 0 <= i < |asked|
      ensures OfWork(asked[i].query) && Charge(background, asked[i]) <= primary
      ensures i < |asked| - 1 ==> Charge(background, asked[i]) == []
      ensures forall c :: c in Charge(background, asked[i]) ==> c in primary
    {
      if i < |asked| - 1 { assert asked[..|asked| - 1][i] == asked[i]; }
    }
  }

  lemma HeardCharge(background: set<string>, s: State, t: State, causes: seq<Cause>)
    requires Heard(s, t, causes)
    ensures s.asked <= t.asked
    ensures forall i :: |s.asked| <= i < |t.asked| ==> !OfWork(t.asked[i].query)
    ensures forall i, c :: |s.asked| <= i < |t.asked| && c in Charge(background, t.asked[i]) ==> c in causes
    ensures forall c :: c in causes && !c.Background? ==>
                          exists i :: |s.asked| <= i < |t.asked| && c in Charge(background, t.asked[i])
  {
    forall i | |s.asked| <= i < |t.asked|
      ensures !OfWork(t.asked[i].query) && Charge(background, t.asked[i]) == StopCharge(t.asked[i])
    {
    }
    hide StopCharge;
    forall c | c in causes && !c.Background?
      ensures exists i :: |s.asked| <= i < |t.asked| && c in Charge(background, t.asked[i])
    {
      var i :| |s.asked| <= i < |t.asked| && c in StopCharge(t.asked[i]);
      assert Charge(background, t.asked[i]) == StopCharge(t.asked[i]);
    }
  }

  lemma OutResults(order: seq<string>, background: set<string>, m: nat, stage: nat, s: State, primary: seq<Cause>,
                   t: State, causes: seq<Cause>, u: State, failed: seq<Target>)
    requires Out(order, background, m, stage, s, primary, t, causes, u, failed)
    ensures ResultsDue(primary + causes, u)
  {
    hide Progress, Judged, Noted, Results, Steady, Targets, Owed, Heard, Closings, ActiveOf, Trace, Wrap, Reverse,
         BackgroundsIn, StopEvents, CloseEvents, PortsAt, Unclosed, ErrorsDue, Verdict;
    OwedWork(background, s.asked, primary);
    ActiveJudged(s, t, causes);
    FailedAre(background, s, primary, t, causes, u, failed);
    NoCleanup(order, background, m, s, t, causes);
    NotedCleanup(t, u, failed);
    ProgressSteady(s, t, causes);
    forall v | v in u.active
      ensures v in u.results && u.results[v].errors == ErrorsDue(u, primary + causes, v)
      ensures u.results[v].status == (if ErrorsDue(u, primary + causes, v) == [] then Completed else WorkerFailed)
    {
      DuePrimary(background, s.asked, primary, t, causes, v);
      DueSame(t, u, primary + causes, v);
    }
  }

  lemma DueSame(t: State, u: State, causes: seq<Cause>, v: string)
    requires u.sent == t.sent
    ensures ErrorsDue(u, causes, v) == ErrorsDue(t, causes, v)
  {
  }

  lemma DuePrimary(background: set<string>, asked: seq<Answer>, primary: seq<Cause>, t: State, causes: seq<Cause>, v: string)
    requires Owed(background, asked, primary) && Verdict(t, causes, v)
    ensures v in t.results && t.results[v].errors == ErrorsDue(t, primary + causes, v)
    ensures t.results[v].status == (if ErrorsDue(t, primary + causes, v) == [] then Completed else WorkerFailed)
  {
    hide ErrorsDue;
    forall c | c in primary
      ensures !c.Overdue? && !c.Stopping?
    {
      WorkCause(background, asked, primary, c);
    }
    DueNow(t, primary, causes, v);
  }

  lemma WorkCause(background: set<string>, asked: seq<Answer>, primary: seq<Cause>, c: Cause)
    requires Owed(background, asked, primary) && c in primary
    ensures !c.Overdue? && !c.Stopping?
  {
    hide Charge, Smooth, Checked;
    if asked != [] && c in Charge(background, asked[|asked| - 1]) && OfWork(asked[|asked| - 1].query) {
      WorkCharge(background, asked[|asked| - 1], c);
    }
  }

  lemma WorkCharge(background: set<string>, a: Answer, c: Cause)
    requires OfWork(a.query) && c in Charge(background, a)
    ensures !c.Overdue? && !c.Stopping?
  {
    WrapUnwraps(a.pending);
    hide Wrap;
  }

  lemma FailedAre(background: set<string>, s: State, primary: seq<Cause>, t: State, causes: seq<Cause>, u: State, failed: seq<Target>)
    requires Owed(background, s.asked, primary) && Heard(s, t, causes) && Closings(t, u, failed)
    ensures Unclosed(u.asked) == failed
  {
    hide StopCharge, Charge, Unclosed;
    OwedWork(background, s.asked, primary);
    forall i | 0 <= i < |t.asked|
      ensures !t.asked[i].query.ToClose?
    {
      if i < |s.asked| { assert t.asked[i] == s.asked[i]; }
    }
    NoneUnclosed(t.asked);
  }

  lemma NoCleanup(order: seq<string>, background: set<string>, m: nat, s: State, t: State, causes: seq<Cause>)
    requires Results(order, background, m, s) && Judged(s, t, causes, Reverse(s.active))
    ensures forall u :: u in t.results ==> t.results[u].cleanup == []
  {
    hide ErrorsDue, Settled, Reverse;
  }

  lemma NotedCleanup(t: State, u: State, failed: seq<Target>)
    requires Noted(t, u, failed) && forall v :: v in t.results ==> t.results[v].cleanup == []
    ensures forall v :: v in u.results ==> u.results[v].cleanup == PortsAt(v, failed)
    ensures forall v :: v in t.results ==> SameVerdict(t, u, v)
  {
    hide PortsAt;
  }

  /** Everything promised holds once the tasks are stopped and the outputs closed. */
  lemma OutIsOk(order: seq<string>, background: set<string>, m: nat, stage: nat, s: State, primary: seq<Cause>,
                t: State, causes: seq<Cause>, u: State, failed: seq<Target>, status: Status)
    requires Distinct(order) && Out(order, background, m, stage, s, primary, t, causes, u, failed)
    requires status.Completed? <==> primary + causes == []
    ensures RunOk(order, background, status, primary + causes, u)
  {
    hide Out, TornDown, Prefixed, NoneLost, AllCompleted, Steady, Charged, ResultsDue;
    OutCharged(order, background, m, stage, s, primary, t, causes, u, failed);
    OutResults(order, background, m, stage, s, primary, t, causes, u, failed);
    OutLogged(order, background, m, stage, s, primary, t, causes, u, failed);
    OutPrefixed(order, background, m, stage, s, primary, t, causes, u, failed);
    OutNoneLost(order, background, m, stage, s, primary, t, causes, u, failed);
    OutAgrees(order, background, m, stage, s, primary, t, causes, u, failed);
  }

  /** Stop the tasks, close the outputs, and return the error with what that added. */
  method TearDown(order: seq<string>, ghost background: set<string>, ghost m: nat, ghost stage: nat,
                  s: State, status: Status, primary: seq<Cause>)
    returns (final: Status, err: seq<Cause>, u: State)
    requires Distinct(order) && Leaving(order, background, m, stage, s, primary)
    requires status.Completed? <==> primary == []
    ensures RunOk(order, background, final, err, u)
    ensures primary <= err && final == (if |err| == |primary| then status else WorkerFailed)
    ensures forall v :: v in s.results ==> SameVerdict(s, u, v)
    ensures forall k :: |primary| <= k < |err| ==> OfShutdown(err[k])
    ensures u.tape == s.tape
  {
    hide Leaving, Progress, Judged, Noted, Results, RunOk, Steady, SameVerdict, Heard, Unclosed, Targets, StopEvents, CloseEvents, ActiveOf;
    LeavingSteady(order, background, m, stage, s, primary);
    LeavingActive(order, background, m, stage, s, primary);
    var t, causes := StopBackgrounds(s);
    OutputsHaveResults(order, background, m, s, t, causes);
    ProgressSteady(s, t, causes);
    var failed;
    u, failed := Cleanup(order, t);
    err := primary + causes;
    final := if causes == [] then status else WorkerFailed;
    TornDownOk(order, background, m, stage, s, primary, t, causes, u, failed, final);
  }

  lemma TornDownOk(order: seq<string>, background: set<string>, m: nat, stage: nat, s: State, primary: seq<Cause>,
                   t: State, causes: seq<Cause>, u: State, failed: seq<Target>, final: Status)
    requires Distinct(order) && Out(order, background, m, stage, s, primary, t, causes, u, failed)
    requires final.Completed? <==> primary + causes == []
    ensures RunOk(order, background, final, primary + causes, u)
    ensures forall v :: v in s.results ==> SameVerdict(s, u, v)
  {
    hide Leaving, Progress, Judged, Noted, Results, RunOk, Steady, SameVerdict, Heard, Closings, Targets;
    OutIsOk(order, background, m, stage, s, primary, t, causes, u, failed, final);
    LeavingActive(order, background, m, stage, s, primary);
    VerdictsKept(order, background, m, s, t, causes, u, failed);
  }

  ghost predicate SameVerdict(s: State, t: State, v: string) {
    && v in s.results && v in t.results
    && t.results[v].status == s.results[v].status && t.results[v].errors == s.results[v].errors
  }

  /** Stopping tasks and closing outputs leaves the results there were. */
  lemma VerdictsKept(order: seq<string>, background: set<string>, m: nat, s: State, t: State, causes: seq<Cause>,
                     u: State, failed: seq<Target>)
    requires Distinct(order) && m <= |order| && s.active == ActiveOf(order[..m], background)
    requires Results(order, background, m, s) && Judged(s, t, causes, Reverse(s.active)) && Noted(t, u, failed)
    ensures forall v :: v in s.results ==> SameVerdict(s, u, v)
  {
    ReverseMembers(s.active);
    ActiveMembers(order[..m], background);
    hide Verdict, Settled, Reverse, ActiveOf, PortsAt;
    assert m < |order| ==> order[m] !in order[..m];
  }

  lemma LeavingActive(order: seq<string>, background: set<string>, m: nat, stage: nat, s: State, primary: seq<Cause>)
    requires Leaving(order, background, m, stage, s, primary)
    ensures m <= |order| && s.active == ActiveOf(order[..m], background) && Results(order, background, m, s)
    ensures forall v :: v in s.fatal ==> Failure(v, s.fatal[v]) in s.sent
  {
  }

  // ------------------------------------------------------------------------- Run

  function Begin(units: nat, tape: seq<Choice>): State {
    State([], map[], [], units, [], {}, map[], map[], map[], [], tape, [])
  }

  /** The next call to a unit: Validate, Plan, then Run or Start. */
  function QueryOf(u: string, stage: nat): Query {
    if stage == 0 then ToValidate(u) else if stage == 1 then ToPlan(u) else ToEnter(u)
  }

  lemma BeginAt(order: seq<string>, background: set<string>, tape: seq<Choice>)
    ensures At(order, background, 0, 0, Begin(|order|, tape))
  {
    assert order[..0] == [];
    BeginSteady(|order|, tape);
    hide Steady;
  }

  lemma BeginSteady(units: nat, tape: seq<Choice>)
    ensures Steady(Begin(units, tape))
  {
  }

  /** One more call to the unit at hand, and its answer. */
  lemma AtAsk(order: seq<string>, background: set<string>, n: nat, stage: nat, s: State)
    requires Distinct(order) && At(order, background, n, stage, s) && n < |order| && stage < 3
    ensures var t := Ask(s, QueryOf(order[n], stage));
            At(order, background, n, stage + 1, t) && Asks(s, QueryOf(order[n], stage), t)
  {
    var query := QueryOf(order[n], stage);
    hide Steady, ActiveOf, WorkOf, Drained, Ask, Later, Asks, Succeeded, Called;
    AtFresh(order, background, n, stage, s);
    AskSteady(s, query);
    var t := Ask(s, query);
    AskedAt(order, background, n, stage, s, t);
  }

  lemma AtFresh(order: seq<string>, background: set<string>, n: nat, stage: nat, s: State)
    requires Distinct(order) && At(order, background, n, stage, s) && n < |order| && stage < 3
    ensures Fresh(s, QueryOf(order[n], stage)) && Steady(s)
  {
    hide Steady, ActiveOf, Trace, Drained, Succeeded;
    ActiveMembers(order[..n], background);
    assert order[n] !in order[..n];
  }

  lemma AskedAt(order: seq<string>, background: set<string>, n: nat, stage: nat, s: State, t: State)
    requires At(order, background, n, stage, s) && n < |order| && stage < 3
    requires var query := QueryOf(order[n], stage);
             Steady(t) && Asks(s, query, t) && Later(Called(s, query), Current(query), t)
    ensures At(order, background, n, stage + 1, t)
  {
    var query := QueryOf(order[n], stage);
    hide Steady, ActiveOf, Trace, Drained, Succeeded, NextChoice, Later, EnteredBy, Called, Current, CallOf, QueryOf;
    TraceAsk(order, background, n, stage);
    SucceededSame(order, background, n, s, t);
    EnteredMore(order, n, stage, s, t);
    AskedDrained(s, query, t);
    AskedOutputs(order, background, n, stage, s, t);
  }

  lemma TraceAsk(order: seq<string>, background: set<string>, n: nat, stage: nat)
    requires n < |order| && stage < 3
    ensures Trace(order, background, n, stage + 1) == Trace(order, background, n, stage) + CallOf(QueryOf(order[n], stage))
  {
    hide WorkOf;
  }

  lemma SucceededSame(order: seq<string>, background: set<string>, n: nat, s: State, t: State)
    requires Succeeded(order, background, n, s) && t.results == s.results
    ensures Succeeded(order, background, n, t)
  {
  }

  lemma EnteredMore(order: seq<string>, n: nat, stage: nat, s: State, t: State)
    requires EnteredBy(order, n, stage, s.asked) && n < |order| && stage < 3 && Asks(s, QueryOf(order[n], stage), t)
    ensures EnteredBy(order, n, stage + 1, t.asked)
  {
    hide NextChoice, CallOf;
  }

  lemma AskedDrained(s: State, query: Query, t: State)
    requires Later(Called(s, query), Current(query), t) && |s.queue| <= |s.sent|
    ensures |t.queue| <= |t.sent| && Drained(t) == Drained(s)
  {
    hide CallOf;
  }

  lemma AskedOutputs(order: seq<string>, background: set<string>, n: nat, stage: nat, s: State, t: State)
    requires At(order, background, n, stage, s) && n < |order| && stage < 3
    requires var query := QueryOf(order[n], stage); Later(Called(s, query), Current(query), t)
    ensures forall u :: u in t.outputs ==> u in order[..n] || (stage + 1 >= 3 && u == order[n])
  {
    hide Steady, ActiveOf, Trace, Drained, Succeeded, Settled, EnteredBy, CallOf;
    ActiveMembers(order[..n], background);
  }

  /** What At says about a state that has received whatever was in the channel. */
  lemma AtThenReceived(order: seq<string>, background: set<string>, n: nat, stage: nat, s: State)
    requires At(order, background, n, stage, s)
    ensures var t := Received(s);
            && Steady(t) && Drained(t) == s.queue && t.active == s.active && t.log == s.log
            && t.results == s.results && t.outputs == s.outputs && t.asked == s.asked
            && (forall v :: v in t.fatal ==> Failure(v, t.fatal[v]) in t.sent)
    ensures BackgroundsIn(Wrap(s.queue)) == s.queue && (Wrap(s.queue) == [] <==> s.queue == [])
  {
    WrapUnwraps(s.queue);
    ReceivedSteady(s);
    QueuedIsSent(s);
    RecordAllKeys(s.fatal, s.queue);
    hide Wrap, BackgroundsIn, RecordAll, Steady, ActiveOf, Trace, Succeeded, SentBy, EnteredBy;
  }

  lemma SucceededResults(order: seq<string>, background: set<string>, n: nat, stage: nat, s: State, t: State)
    requires Distinct(order) && At(order, background, n, stage, s) && stage < 3 && t.results == s.results && t.outputs == s.outputs
    ensures Results(order, background, n, t)
  {
    hide Steady, ActiveOf, Trace;
    assert n < |order| ==> order[n] !in order[..n];
    forall u | u in s.outputs
      ensures u in order[..n]
    {
    }
  }

  /** Nothing received: nothing changes. Something received: Run gives up. */
  lemma AtReceived(order: seq<string>, background: set<string>, n: nat, stage: nat, s: State)
    requires Distinct(order) && At(order, background, n, stage, s) && stage < 3
    requires Wrap(s.queue) == [] || Owed(background, s.asked, Wrap(s.queue))
    ensures if Wrap(s.queue) == [] then Received(s) == s
            else Leaving(order, background, n, stage, Received(s), Wrap(s.queue)) && Wrap(s.queue)[0].Background?
  {
    hide BackgroundsIn, Wrap, Steady, RecordAll, ActiveOf, Trace, Results, Succeeded, Owed, EnteredBy;
    AtThenReceived(order, background, n, stage, s);
    SucceededResults(order, background, n, stage, s, Received(s));
    if s.queue == [] { NothingReceived(s); } else { WrapUnwraps(s.queue); }
  }

  lemma NothingReceived(s: State)
    requires s.queue == []
    ensures Received(s) == s && Wrap(s.queue) == []
  {
  }

  /** The unit at hand fails: its result says so, and Run gives up. */
  lemma AtFails(order: seq<string>, background: set<string>, n: nat, stage: nat, s: State, r: UnitResult, cause: Cause)
    requires Distinct(order) && n < |order| && At(order, background, n, stage, s)
    requires !r.status.Completed? && r.cleanup == [] && !cause.Background?
    ensures Owed(background, s.asked, [cause]) ==>
              Leaving(order, background, n, stage, s.(results := s.results[order[n] := r]), [cause])
    ensures Owed(background, s.asked, [cause] + Wrap(s.queue)) ==>
              Leaving(order, background, n, stage, Received(s).(results := s.results[order[n] := r]), [cause] + Wrap(s.queue))
  {
    hide BackgroundsIn, Wrap, Steady, RecordAll, ActiveOf, Trace, Results, Succeeded, Owed, EnteredBy;
    AtThenReceived(order, background, n, stage, s);
    BackgroundsJoin([cause], Wrap(s.queue));
    OneCause(cause);
    FailedResults(order, background, n, stage, s, r);
    ResultsSteady(s, s.results[order[n] := r]);
    ResultsSteady(Received(s), s.results[order[n] := r]);
  }

  lemma OneCause(cause: Cause)
    requires !cause.Background?
    ensures BackgroundsIn([cause]) == []
  {
    assert [cause][..0] == [];
  }

  lemma FailedResults(order: seq<string>, background: set<string>, n: nat, stage: nat, s: State, r: UnitResult)
    requires Distinct(order) && n < |order| && Succeeded(order, background, n, s) && !r.status.Completed? && r.cleanup == []
    requires forall u :: u in s.outputs ==> u in order[..n] || (stage >= 3 && u == order[n])
    ensures Results(order, background, n, s.(results := s.results[order[n] := r]))
    ensures Results(order, background, n, Received(s).(results := s.results[order[n] := r]))
  {
  }

  function Activate(s: State, u: string, monitored: bool): State {
    s.(active := s.active + [u], monitors := s.monitors[u := if monitored then Waiting else Unmonitored],
       log := s.log + [Started(u)])
  }

  function Complete(s: State, u: string): State {
    s.(results := s.results[u := UnitResult(Completed, [], [])], log := s.log + [Ran(u)])
  }

  lemma TraceMore(order: seq<string>, background: set<string>, n: nat)
    requires n < |order|
    ensures var u := order[n];
            && Trace(order, background, n + 1, 0)
               == Trace(order, background, n, 3) + [if u in background then Started(u) else Ran(u)]
            && ActiveOf(order[..n + 1], background)
               == ActiveOf(order[..n], background) + (if u in background then [u] else [])
            && order[..n + 1] == order[..n] + [u]
  {
    assert order[..n + 1][..n] == order[..n];
  }

  lemma {:induction false} ActiveLength(units: seq<string>, background: set<string>)
    ensures |ActiveOf(units, background)| <= |units|
  {
    if units != [] { ActiveLength(units[..|units| - 1], background); }
  }

  /** The unit whose Start has just succeeded joins the active tasks. */
  ghost predicate JustEntered(s: State, u: string, monitored: bool) {
    && s.asked != []
    && var a := s.asked[|s.asked| - 1]; a.query == ToEnter(u) && a.choice.monitored == monitored
  }

  lemma ActivateSteady(s: State, u: string, monitored: bool)
    requires Steady(s) && u !in s.active && |s.active| < s.room && JustEntered(s, u, monitored)
    ensures Steady(Activate(s, u, monitored)) && Drained(Activate(s, u, monitored)) == Drained(s)
  {
    ActivateBalanced(s, u, monitored);
    ActivateAccounted(s, u, monitored);
    hide Balanced, Accounted;
  }

  /** What closing an output answers is no matter for the error. */
  lemma CloseCharge(background: set<string>, a: Answer)
    requires a.query.ToClose?
    ensures Charge(background, a) == []
  {
  }

  lemma ActivateBalanced(s: State, u: string, monitored: bool)
    requires Balanced(s) && u !in s.active && |s.active| < s.room
    ensures Balanced(Activate(s, u, monitored)) && Drained(Activate(s, u, monitored)) == Drained(s)
  {
  }

  lemma ActivateAccounted(s: State, u: string, monitored: bool)
    requires Balanced(s) && Accounted(s) && u !in s.active && JustEntered(s, u, monitored)
    ensures Accounted(Activate(s, u, monitored))
  {
    hide CallsOf, CallsIn, UnitOk, Played, Balanced, Once, Entrances, Units, Activate, JustEntered;
    ActivateBooks(s, u, monitored);
    ActivateEntrances(s, u, monitored);
    ActivateUnits(s, u, monitored);
  }

  lemma ActivateBooks(s: State, u: string, monitored: bool)
    requires Played(s) && CallsOf(s.asked) == CallsIn(s.log)
    ensures var t := Activate(s, u, monitored);
            Played(t) && CallsOf(t.asked) == CallsIn(t.log) && t.asked == s.asked
  {
    CallsMore(s.log, Started(u));
    hide CallsOf, CallsIn;
  }

  lemma ActivateEntrances(s: State, u: string, monitored: bool)
    requires Entrances(s) && JustEntered(s, u, monitored)
    ensures Entrances(Activate(s, u, monitored))
  {
    var t, last := Activate(s, u, monitored), |s.asked| - 1;
    forall v | v in t.active || v in t.outputs
      ensures exists p :: 0 <= p < |t.asked| && t.asked[p].query == ToEnter(v)
    {
      if v == u { assert t.asked[last].query == ToEnter(u); }
    }
  }

  lemma ActivateUnits(s: State, u: string, monitored: bool)
    requires Balanced(s) && Units(s) && Once(s.asked) && u !in s.active && JustEntered(s, u, monitored)
    ensures Units(Activate(s, u, monitored))
  {
    var t, last := Activate(s, u, monitored), |s.asked| - 1;
    hide UnitOk, Balanced;
    forall p: nat | p < |t.asked| && t.asked[p].query.ToEnter?
      ensures UnitOk(t, p)
    {
      assert UnitOk(s, p);
      if p == last { ActivatedUnit(s, u, monitored); } else { OthersUnit(s, u, monitored, p); }
    }
  }

  lemma ActivatedUnit(s: State, u: string, monitored: bool)
    requires Balanced(s) && u !in s.active && JustEntered(s, u, monitored) && UnitOk(s, |s.asked| - 1)
    ensures UnitOk(Activate(s, u, monitored), |s.asked| - 1)
  {
    var t, last := Activate(s, u, monitored), |s.asked| - 1;
    assert t.asked[last + 1..] == [] && Span(t, last) == Span(s, last);
    NoDeeds();
    hide LastSet, DeedsIn, PortOf;
    assert u !in s.monitors;
  }

  lemma OthersUnit(s: State, u: string, monitored: bool, p: nat)
    requires p < |s.asked| && s.asked[p].query.ToEnter? && s.asked[p].query.unit != u && UnitOk(s, p)
    ensures UnitOk(Activate(s, u, monitored), p)
  {
    hide LastSet, DeedsIn, PortOf, FirstTake;
    assert Span(Activate(s, u, monitored), p) == Span(s, p);
  }

  lemma AtStarted(order: seq<string>, background: set<string>, n: nat, s: State, monitored: bool)
    requires Distinct(order) && n < |order| && At(order, background, n, 3, s) && order[n] in background
    requires JustEntered(s, order[n], monitored)
    ensures At(order, background, n + 1, 0, Activate(s, order[n], monitored))
  {
    hide Steady, ActiveOf, Trace, WorkOf, Stages, Succeeded, EnteredBy, JustEntered;
    EnteredNext(order, n, s.asked);
    TraceMore(order, background, n);
    ActiveLength(order[..n], background);
    ActiveMembers(order[..n], background);
    assert order[n] !in order[..n];
    ActivateSteady(s, order[n], monitored);
    SucceededMore(order, background, n, s, Activate(s, order[n], monitored));
  }

  lemma EnteredNext(order: seq<string>, n: nat, asked: seq<Answer>)
    requires n < |order| && EnteredBy(order, n, 3, asked)
    ensures EnteredBy(order, n + 1, 0, asked)
  {
    assert order[..n + 1] == order[..n] + [order[n]];
  }

  /** One more unit has succeeded. */
  lemma SucceededMore(order: seq<string>, background: set<string>, n: nat, s: State, t: State)
    requires n < |order| && Succeeded(order, background, n, s)
    requires if order[n] in background then t.results == s.results
             else t.results == s.results[order[n] := UnitResult(Completed, [], [])]
    ensures Succeeded(order, background, n + 1, t)
  {
    assert order[..n + 1] == order[..n] + [order[n]];
  }

  lemma CompleteSteady(s: State, u: string)
    requires Steady(s)
    ensures Steady(Complete(s, u)) && Drained(Complete(s, u)) == Drained(s)
  {
    CallsMore(s.log, Ran(u));
    AccountedSame(s, Complete(s, u));
    BalancedSame(s, Complete(s, u));
    hide Balanced, Accounted;
  }

  lemma AtRan(order: seq<string>, background: set<string>, n: nat, s: State)
    requires Distinct(order) && n < |order| && At(order, background, n, 3, s) && order[n] !in background
    ensures At(order, background, n + 1, 0, Complete(s, order[n]))
  {
    hide Steady, ActiveOf, Trace, WorkOf, Stages, Succeeded, EnteredBy;
    EnteredNext(order, n, s.asked);
    TraceMore(order, background, n);
    CompleteSteady(s, order[n]);
    SucceededMore(order, background, n, s, Complete(s, order[n]));
  }

  lemma AtEnd(order: seq<string>, background: set<string>, s: State)
    requires At(order, background, |order|, 0, s) && s.queue == [] && Smooth(background, s.asked)
    ensures Leaving(order, background, |order|, 0, s, [])
  {
    hide ActiveOf, Trace, EnteredBy, Smooth, Steady, Results, Succeeded;
    assert order[..|order|] == order;
    EndResults(order, background, s);
    assert BackgroundsIn([]) == [] && Wrap([]) == [];
    hide BackgroundsIn, Wrap;
  }

  lemma EndResults(order: seq<string>, background: set<string>, s: State)
    requires Succeeded(order, background, |order|, s) && forall u :: u in s.outputs ==> u in order[..|order|]
    ensures Results(order, background, |order|, s)
  {
  }

  /** One more answer that calls for nothing. */
  lemma SmoothMore(background: set<string>, s: State, query: Query, t: State)
    requires Smooth(background, s.asked) && Asks(s, query, t) && OfWork(query)
    requires Untouched(s) && (Checks(background, query) ==> s.queue == [])
    requires Charge(background, t.asked[|s.asked|]) == []
    ensures Smooth(background, t.asked)
  {
    hide Charge, CallOf;
  }

  /** The answer that ends the work. */
  lemma OwedLast(background: set<string>, s: State, query: Query, t: State)
    requires Smooth(background, s.asked) && Asks(s, query, t) && OfWork(query)
    requires Untouched(s) && (Checks(background, query) ==> s.queue == [])
    ensures Owed(background, t.asked, Charge(background, t.asked[|s.asked|])) && Untouched(t)
  {
    hide Charge, CallOf;
    assert t.asked[..|s.asked|] == s.asked;
  }

  lemma OwedWrap(background: set<string>, asked: seq<Answer>, failures: seq<Failure>)
    requires Smooth(background, asked)
    ensures Owed(background, asked, Wrap(failures))
  {
    WrapUnwraps(failures);
    hide Wrap, Smooth;
  }

  /**
    `order` is the graph's order, `background` its units that run in the
    background. The error is the list of causes joined, in order.
   */
  method Run(order: seq<string>, background: set<string>, tape: seq<Choice>)
    returns (status: Status, err: seq<Cause>, t: State)
    requires Distinct(order)
    ensures RunOk(order, background, status, err, t) && t.tape == tape
    ensures Explained(background, status, err, t)
  {
    hide At, Leaving, RunOk, Ask, Received, Wrap, Asks, Smooth, Charge, Owed, Activate, Complete, Untouched, JustEntered;
    var s, failures, causes := Begin(|order|, tape), [], [];
    BeginAt(order, background, tape);
    BeginSmooth(background, |order|, tape);
    for n := 0 to |order|
      invariant At(order, background, n, 0, s) && Smooth(background, s.asked) && s.tape == tape && Untouched(s)
    {
      var name := order[n];
      ghost var before := s;
      AtChecks(order, background, n, 0, s);
      s, failures, causes := CheckBackgroundErrors(s);
      if causes != [] {
        status, err, t := TearDown(order, background, n, 0, s, WorkerFailed, causes);
        return;
      }

      var choice := NextChoice(s);
      before := s;
      AtAsk(order, background, n, 0, s);
      s := Ask(s, ToValidate(name));
      AtAnswered(order, background, n, 0, before, s, choice);
      if choice.outcome.Failed? {
        AtFails(order, background, n, 1, s, UnitResult(ConfigFailed, [choice.outcome.text], []),
                Validating(name, choice.outcome.text));
        s, failures, causes := CheckBackgroundErrors(s);
        if causes != [] {
          status, err, t := TearDown(order, background, n, 1, s, WorkerFailed, causes);
          return;
        }
        s := s.(results := s.results[name := UnitResult(ConfigFailed, [choice.outcome.text], [])]);
        assert name in s.results;
        status, err, t := TearDown(order, background, n, 1, s, ConfigFailed, [Validating(name, choice.outcome.text)]);
        return;
      }

      choice := NextChoice(s);
      before := s;
      AtAsk(order, background, n, 1, s);
      s := Ask(s, ToPlan(name));
      AtAnswered(order, background, n, 1, before, s, choice);
      if choice.outcome.Failed? {
        AtFails(order, background, n, 2, s, UnitResult(PlanFailed, [choice.outcome.text], []),
                Planning(name, choice.outcome.text));
        s, failures, causes := CheckBackgroundErrors(s);
        if causes != [] {
          status, err, t := TearDown(order, background, n, 2, s, WorkerFailed, causes);
          return;
        }
        s := s.(results := s.results[name := UnitResult(PlanFailed, [choice.outcome.text], [])]);
        assert name in s.results;
        status, err, t := TearDown(order, background, n, 2, s, PlanFailed, [Planning(name, choice.outcome.text)]);
        return;
      }

      if name in background {
        choice := NextChoice(s);
        before := s;
        AtAsk(order, background, n, 2, s);
        s := Ask(s, ToEnter(name));
        AtStartAnswered(order, background, n, before, s, choice);
        if choice.outcome.Failed? {
          AtFails(order, background, n, 3, s, UnitResult(WorkerFailed, [choice.outcome.text], []),
                  Starting(name, choice.outcome.text));
          s := s.(results := s.results[name := UnitResult(WorkerFailed, [choice.outcome.text], [])]);
          assert name in s.results;
          status, err, t := TearDown(order, background, n, 3, s, WorkerFailed, [Starting(name, choice.outcome.text)]);
          return;
        }
        AtStarted(order, background, n, s, choice.monitored);
        ActivateKeeps(s, name, choice.monitored);
        s := Activate(s, name, choice.monitored);
        continue;
      }

      AtChecks(order, background, n, 2, s);
      s, failures, causes := CheckBackgroundErrors(s);
      if causes != [] {
        status, err, t := TearDown(order, background, n, 2, s, WorkerFailed, causes);
        return;
      }
      choice := NextChoice(s);
      before := s;
      AtAsk(order, background, n, 2, s);
      s := Ask(s, ToEnter(name));
      ghost var ran := s;
      AtRunAnswered(order, background, n, before, s, choice);
      s, failures, causes := CheckBackgroundErrors(s);
      if choice.outcome.Failed? || causes != [] {
        var text := if choice.outcome.Failed? then choice.outcome.text
                    else if choice.context.Failed? then choice.context.text
                    else FirstText(failures);
        AtFails(order, background, n, 3, ran, UnitResult(WorkerFailed, [text], []), Running(name, text));
        ReceivedSame(ran);
        s := s.(results := s.results[name := UnitResult(WorkerFailed, [text], [])]);
        assert name in s.results;
        status, err, t := TearDown(order, background, n, 3, s, WorkerFailed, [Running(name, text)] + causes);
        return;
      }
      NoneReceived(ran);
      AtRan(order, background, n, s);
      CompleteKeeps(s, name);
      s := Complete(s, name);
    }
    AtChecks(order, background, |order|, 0, s);
    ghost var last := s;
    s, failures, causes := CheckBackgroundErrors(s);
    if causes != [] {
      status, err, t := TearDown(order, background, |order|, 0, s, WorkerFailed, causes);
      return;
    }
    NoneReceived(last);
    AtEnd(order, background, s);
    status, err, t := TearDown(order, background, |order|, 0, s, Completed, []);
  }

  lemma BeginSmooth(background: set<string>, units: nat, tape: seq<Choice>)
    ensures Smooth(background, Begin(units, tape).asked) && Untouched(Begin(units, tape))
  {
  }

  /** Between two calls: either nothing has arrived, or Run gives up. */
  lemma AtChecks(order: seq<string>, background: set<string>, n: nat, stage: nat, s: State)
    requires Distinct(order) && At(order, background, n, stage, s) && stage < 3 && Smooth(background, s.asked)
    ensures Received(s).tape == s.tape
    ensures if Wrap(s.queue) == [] then Received(s) == s && s.queue == []
            else Leaving(order, background, n, stage, Received(s), Wrap(s.queue)) && Wrap(s.queue)[0].Background?
  {
    EmptyWrap(s.queue);
    OwedWrap(background, s.asked, s.queue);
    AtReceived(order, background, n, stage, s);
    hide At, Leaving, Wrap, RecordAll;
  }

  /** Validate or Plan has answered. */
  lemma AtAnswered(order: seq<string>, background: set<string>, n: nat, stage: nat, s: State, t: State, choice: Choice)
    requires Distinct(order) && n < |order| && stage < 2 && At(order, background, n, stage + 1, t)
    requires Smooth(background, s.asked) && Asks(s, QueryOf(order[n], stage), t) && choice == NextChoice(s)
    requires Untouched(s) && (stage == 0 ==> s.queue == [])
    ensures t.tape == s.tape && Received(t).tape == s.tape && Untouched(t)
    ensures choice.outcome.Clean? ==> Smooth(background, t.asked)
    ensures choice.outcome.Failed? ==>
              if Wrap(t.queue) == []
              then && Received(t) == t
                   && Owed(background, t.asked, [if stage == 0 then Validating(order[n], choice.outcome.text)
                                                 else Planning(order[n], choice.outcome.text)])
              else Leaving(order, background, n, stage + 1, Received(t), Wrap(t.queue)) && Wrap(t.queue)[0].Background?
  {
    hide At, Leaving, Wrap, RecordAll, Smooth, Owed, NextChoice, CallOf;
    var query := QueryOf(order[n], stage);
    OwedLast(background, s, query, t);
    EmptyWrap(t.queue);
    if choice.outcome.Clean? {
      SmoothMore(background, s, query, t);
    } else {
      AtReceived(order, background, n, stage + 1, t);
    }
  }

  lemma EmptyWrap(failures: seq<Failure>)
    ensures Wrap(failures) == [] <==> failures == []
  {
    WrapUnwraps(failures);
  }

  /** Start has answered. */
  lemma AtStartAnswered(order: seq<string>, background: set<string>, n: nat, s: State, t: State, choice: Choice)
    requires n < |order| && order[n] in background && Untouched(s)
    requires Smooth(background, s.asked) && Asks(s, ToEnter(order[n]), t) && choice == NextChoice(s)
    ensures t.tape == s.tape && JustEntered(t, order[n], choice.monitored) && Untouched(t)
    ensures choice.outcome.Clean? ==> Smooth(background, t.asked)
    ensures choice.outcome.Failed? ==> Owed(background, t.asked, [Starting(order[n], choice.outcome.text)])
  {
    hide Smooth, Owed, NextChoice, CallOf;
    OwedLast(background, s, ToEnter(order[n]), t);
    if choice.outcome.Clean? { SmoothMore(background, s, ToEnter(order[n]), t); }
  }

  /** Run has answered. */
  lemma AtRunAnswered(order: seq<string>, background: set<string>, n: nat, s: State, t: State, choice: Choice)
    requires n < |order| && order[n] !in background && Untouched(s) && s.queue == []
    requires Smooth(background, s.asked) && Asks(s, ToEnter(order[n]), t) && choice == NextChoice(s)
    ensures t.tape == s.tape && Received(t).tape == s.tape && Untouched(t)
    ensures choice.outcome.Clean? && Wrap(t.queue) == [] ==> Smooth(background, t.asked)
    ensures choice.outcome.Failed? || Wrap(t.queue) != [] ==>
              var text := if choice.outcome.Failed? then choice.outcome.text
                          else if choice.context.Failed? then choice.context.text
                          else FirstText(t.queue);
              Owed(background, t.asked, [Running(order[n], text)] + Wrap(t.queue))
  {
    hide Smooth, Owed, NextChoice, CallOf, Wrap, RecordAll;
    OwedLast(background, s, ToEnter(order[n]), t);
    EmptyWrap(t.queue);
    if choice.outcome.Clean? && t.queue == [] { SmoothMore(background, s, ToEnter(order[n]), t); }
  }

  lemma ActivateKeeps(s: State, u: string, monitored: bool)
    ensures Activate(s, u, monitored).asked == s.asked && Activate(s, u, monitored).tape == s.tape
    ensures Untouched(s) ==> Untouched(Activate(s, u, monitored))
  {
  }

  lemma CompleteKeeps(s: State, u: string)
    ensures Complete(s, u).asked == s.asked && Complete(s, u).tape == s.tape
    ensures Untouched(s) ==> Untouched(Complete(s, u))
  {
  }

  function FirstText(failures: seq<Failure>): string {
    if failures == [] then "" else failures[0].text
  }

  lemma ReceivedSame(s: State)
    ensures Received(s).results == s.results
  {
  }

  lemma NoneReceived(s: State)
    requires Wrap(s.queue) == []
    ensures s.queue == [] && Received(s) == s
  {
    WrapUnwraps(s.queue);
  }
}
