/**
  What a run of the engine owes to the answers it got: the error channel, the record
  of failed tasks, the wait for one monitor, and the progress of a shutdown.
 */
module EngineProgress {
  import opened Outcomes
  import opened Ordering
  import opened Engine

  /** The accounts of the monitors are in order, and so is the record of the answers. */
  ghost predicate Steady(s: State) {
    Balanced(s) && Accounted(s)
  }

  lemma AskSteady(s: State, query: Query)
    requires Steady(s) && Fresh(s, query)
    ensures Steady(Ask(s, query)) && Asks(s, query, Ask(s, query))
    ensures Later(Called(s, query), Current(query), Ask(s, query))
  {
    AskAccounted(s, query);
    AskFrame(s, query);
    BalancedSame(s, Called(s, query));
    hide Deeds, Disturb, Accounted, CallOf, NextChoice, Current, Fresh;
    DisturbSteady(Called(s, query), Current(query), Deeds(query, NextChoice(s)));
    AnsweredSteady(Called(s, query), Current(query), Disturb(Called(s, query), Current(query), Deeds(query, NextChoice(s))),
                   query, NextChoice(s));
  }

  lemma AnsweredSteady(s: State, current: set<string>, t: State, query: Query, choice: Choice)
    requires Balanced(t) && Later(s, current, t)
    ensures Balanced(Answered(t, query, choice)) && Later(s, current, Answered(t, query, choice))
  {
    BalancedSame(t, Answered(t, query, choice));
    hide Balanced;
  }

  /** The log, the results and the answers are of no concern to the monitors. */
  lemma BalancedSame(s: State, t: State)
    requires Balanced(s) && t == s.(log := t.log, results := t.results, asked := t.asked)
    ensures Balanced(t) && Drained(t) == Drained(s)
  {
  }

  // ------------------------------------------------------- what an answer calls for

  /** The text on record for a task whose Done did not complete. */
  const LATE := "done did not complete"

  /** The text of a failed Run: its own error, else the context's, else the first background failure's. */
  function RunText(a: Answer): string {
    if a.choice.outcome.Failed? then a.choice.outcome.text
    else if a.choice.context.Failed? then a.choice.context.text
    else if a.pending != [] then a.pending[0].text
    else ""
  }

  /** The causes that an answer during the shutdown adds to the error. */
  function StopCharge(a: Answer): seq<Cause> {
    match a.query
    case ToStop(u) => if a.choice.outcome.Failed? then [Stopping(u, a.choice.outcome.text)] else []
    case ToJoin(u) => if a.choice.late then [Overdue(u)] else []
    case _ => []
  }

  /**
    The causes an answer calls for. A failed Validate or Plan gives way to background
    failures that have arrived; a failed Start does not; a Run fails with them.
   */
  function Charge(background: set<string>, a: Answer): seq<Cause> {
    match a.query
    case ToValidate(u) =>
      if a.choice.outcome.Clean? then []
      else if a.pending == [] then [Validating(u, a.choice.outcome.text)]
      else Wrap(a.pending)
    case ToPlan(u) =>
      if a.choice.outcome.Clean? then []
      else if a.pending == [] then [Planning(u, a.choice.outcome.text)]
      else Wrap(a.pending)
    case ToEnter(u) =>
      if u in background then
        if a.choice.outcome.Clean? then [] else [Starting(u, a.choice.outcome.text)]
      else if a.choice.outcome.Clean? && a.pending == [] then []
      else [Running(u, RunText(a))] + Wrap(a.pending)
    case _ => StopCharge(a)
  }

  /** The answers from `s` to `t` are those of a shutdown, and `causes` has what they call for and nothing else. */
  ghost predicate Heard(s: State, t: State, causes: seq<Cause>) {
    && s.asked <= t.asked
    && (forall i :: |s.asked| <= i < |t.asked| ==> t.asked[i].query.ToStop? || t.asked[i].query.ToJoin?)
    && (forall i, c :: |s.asked| <= i < |t.asked| && c in StopCharge(t.asked[i]) ==> c in causes)
    && (forall c :: c in causes && !c.Background? ==> exists i :: |s.asked| <= i < |t.asked| && c in StopCharge(t.asked[i]))
  }

  lemma HeardNothing(s: State, t: State, causes: seq<Cause>)
    requires t.asked == s.asked && forall c :: c in causes ==> c.Background?
    ensures Heard(s, t, causes)
  {
  }

  lemma HeardThen(s: State, t: State, a: seq<Cause>, u: State, b: seq<Cause>)
    requires Heard(s, t, a) && Heard(t, u, b)
    ensures Heard(s, u, a + b)
  {
    hide StopCharge;
    forall c | c in a + b && !c.Background?
      ensures exists i :: |s.asked| <= i < |u.asked| && c in StopCharge(u.asked[i])
    {
      if c in a {
        var i :| |s.asked| <= i < |t.asked| && c in StopCharge(t.asked[i]);
        assert u.asked[i] == t.asked[i];
      } else {
        var i :| |t.asked| <= i < |u.asked| && c in StopCharge(u.asked[i]);
      }
    }
    forall i, c | |s.asked| <= i < |u.asked| && c in StopCharge(u.asked[i])
      ensures c in a + b
    {
      if i < |t.asked| { assert u.asked[i] == t.asked[i]; }
    }
  }

  // ------------------------------------------------------- background failures

  function Record(fatal: map<string, string>, unit: string, text: string): map<string, string> {
    if unit in fatal then fatal else fatal[unit := text]
  }

  function RecordAll(fatal: map<string, string>, failures: seq<Failure>): map<string, string> {
    if failures == [] then fatal
    else
      var n := |failures| - 1;
      Record(RecordAll(fatal, failures[..n]), failures[n].unit, failures[n].text)
  }

  function Wrap(failures: seq<Failure>): seq<Cause> {
    if failures == [] then []
    else
      var n := |failures| - 1;
      Wrap(failures[..n]) + [Background(failures[n].unit, failures[n].text)]
  }

  /** The background failures among the causes of an error. */
  function BackgroundsIn(causes: seq<Cause>): seq<Failure> {
    if causes == [] then []
    else
      var n := |causes| - 1;
      BackgroundsIn(causes[..n])
      + (if causes[n].Background? then [Failure(causes[n].unit, causes[n].text)] else [])
  }

  lemma {:induction false} BackgroundsJoin(a: seq<Cause>, b: seq<Cause>)
    ensures BackgroundsIn(a + b) == BackgroundsIn(a) + BackgroundsIn(b)
  {
    if b == [] {
      assert a + b == a;
    } else {
      var n := |b| - 1;
      BackgroundsJoin(a, b[..n]);
      assert (a + b)[..|a| + n] == a + b[..n];
    }
  }

  lemma {:induction false} WrapUnwraps(failures: seq<Failure>)
    ensures BackgroundsIn(Wrap(failures)) == failures
    ensures |Wrap(failures)| == |failures| && forall c :: c in Wrap(failures) ==> c.Background?
  {
    if failures != [] {
      var n := |failures| - 1;
      WrapUnwraps(failures[..n]);
      assert Wrap(failures)[..n] == Wrap(failures[..n]);
      assert failures == failures[..n] + [failures[n]];
    }
  }

  lemma {:induction false} RecordAllKeys(fatal: map<string, string>, failures: seq<Failure>)
    ensures forall u :: u in RecordAll(fatal, failures) <==> u in fatal || exists f :: f in failures && f.unit == u
    ensures forall u :: u in fatal ==> RecordAll(fatal, failures)[u] == fatal[u]
    ensures forall u :: u in RecordAll(fatal, failures) && u !in fatal ==> Failure(u, RecordAll(fatal, failures)[u]) in failures
  {
    if failures != [] {
      var n := |failures| - 1;
      RecordAllKeys(fatal, failures[..n]);
      assert failures == failures[..n] + [failures[n]];
    }
  }

  /** Receive from the error channel until it is empty. */
  function Received(s: State): State {
    s.(queue := [], fatal := RecordAll(s.fatal, s.queue))
  }

  method CheckBackgroundErrors(s: State) returns (t: State, failures: seq<Failure>, causes: seq<Cause>)
    ensures t == Received(s) && failures == s.queue && causes == Wrap(s.queue)
  {
    hide RecordAll, Wrap, Record;
    NothingReceived(s.fatal);
    t, failures, causes := s, [], [];
    while t.queue != []
      invariant failures + t.queue == s.queue && causes == Wrap(failures)
      invariant t == s.(queue := t.queue, fatal := RecordAll(s.fatal, failures))
      decreases |t.queue|
    {
      var f := t.queue[0];
      OneReceived(s.fatal, failures, f);
      t := t.(queue := t.queue[1..], fatal := Record(t.fatal, f.unit, f.text));
      failures := failures + [f];
      causes := causes + [Background(f.unit, f.text)];
    }
    assert failures == s.queue;
  }

  lemma NothingReceived(fatal: map<string, string>)
    ensures RecordAll(fatal, []) == fatal && Wrap([]) == []
  {
  }

  lemma OneReceived(fatal: map<string, string>, failures: seq<Failure>, f: Failure)
    ensures RecordAll(fatal, failures + [f]) == Record(RecordAll(fatal, failures), f.unit, f.text)
    ensures Wrap(failures + [f]) == Wrap(failures) + [Background(f.unit, f.text)]
  {
    assert (failures + [f])[..|failures|] == failures;
  }

  lemma ReceivedSteady(s: State)
    requires Steady(s)
    ensures Steady(Received(s)) && Drained(Received(s)) == s.sent == Drained(s) + s.queue
    ensures BackgroundsIn(Wrap(s.queue)) == s.queue
    ensures forall u :: u in Received(s).fatal <==> u in s.fatal || exists f :: f in s.queue && f.unit == u
  {
    hide BackgroundsIn, Wrap, RecordAll, SentOk;
    WrapUnwraps(s.queue);
    RecordAllKeys(s.fatal, s.queue);
    SentSplits(s);
    ReceivedQueue(s);
  }

  lemma SentSplits(s: State)
    requires QueueOk(s)
    ensures s.sent == Drained(s) + s.queue
  {
  }

  lemma ReceivedQueue(s: State)
    requires Steady(s)
    requires forall u :: u in Received(s).fatal <==> u in s.fatal || exists f :: f in s.queue && f.unit == u
    requires s.sent == Drained(s) + s.queue
    ensures Steady(Received(s)) && Drained(Received(s)) == s.sent
  {
    hide RecordAll, SentOk, Accounted;
    AccountedSame(s, Received(s));
    SteadySent(s, Received(s));
    assert QueueOk(Received(s)) by { ReceivedOnRecord(s); }
  }

  lemma ReceivedOnRecord(s: State)
    requires QueueOk(s)
    requires forall u :: u in Received(s).fatal <==> u in s.fatal || exists f :: f in s.queue && f.unit == u
    requires s.sent == Drained(s) + s.queue
    ensures QueueOk(Received(s))
  {
    hide RecordAll;
    forall f | f in s.sent
      ensures f.unit in Received(s).fatal
    {
      assert f in Drained(s) || f in s.queue;
    }
  }

  lemma SteadySent(s: State, t: State)
    requires SentOk(s) && t.sent == s.sent && t.monitors == s.monitors && t.taken == s.taken
    ensures SentOk(t)
  {
  }

  lemma ResultsSteady(s: State, results: map<string, UnitResult>)
    requires Steady(s)
    ensures Steady(s.(results := results)) && Drained(s.(results := results)) == Drained(s)
    ensures forall v :: SentBy(s.(results := results), v) == SentBy(s, v)
  {
    BalancedSame(s, s.(results := results));
    AccountedSame(s, s.(results := results));
    hide Balanced, Accounted;
  }

  // ----------------------------------------------------------------- one Stop

  lemma {:induction false} DisturbJoin(s: State, current: set<string>, a: seq<Act>, b: seq<Act>)
    ensures Disturb(s, current, a + b) == Disturb(Disturb(s, current, a), current, b)
    decreases |a|
  {
    hide Apply;
    if a == [] {
      assert a + b == b;
    } else {
      assert (a + b)[1..] == a[1..] + b;
      DisturbJoin(Apply(s, current, a[0]), current, a[1..], b);
    }
  }

  /** The monitor takes what it can still take, sends what it holds, and is gone. */
  lemma FinishSettles(s: State, u: string, outcome: Outcome)
    requires Balanced(s) && u in s.monitors
    ensures Settled(Disturb(s, {}, [Takes(u, outcome), Sends(u)]), u)
  {
    var t := TakeDone(s, u, outcome);
    TakeSteady(s, u, outcome);
    if u in t.monitors && t.monitors[u].Holding? { NeverBlocks(t, u); }
    hide Balanced, Later;
    TwoActs(s, {}, Takes(u, outcome), Sends(u));
  }

  lemma TwoActs(s: State, current: set<string>, a: Act, b: Act)
    ensures Disturb(s, current, [a, b]) == Apply(Apply(s, current, a), current, b)
  {
    hide Apply;
    assert [a, b][1..] == [b];
    assert Disturb(Apply(s, current, a), current, [b]) == Disturb(Apply(Apply(s, current, a), current, b), current, []);
  }

  lemma JoinSettles(s: State, u: string)
    requires Balanced(s) && u in s.monitors
    ensures Settled(Ask(s, ToJoin(u)), u)
  {
    var choice := NextChoice(s);
    var c := Called(s, ToJoin(u));
    assert c == s;
    hide Balanced, Later, Disturb, NextChoice;
    DisturbSteady(c, {}, choice.acts);
    LaterKeys(c, {}, Disturb(c, {}, choice.acts));
    FinishSettles(Disturb(c, {}, choice.acts), u, choice.outcome);
    DisturbJoin(c, {}, choice.acts, [Takes(u, choice.outcome), Sends(u)]);
  }

  lemma JoinSteady(s: State, u: string)
    requires Steady(s) && u in s.monitors
    ensures var t := Ask(s, ToJoin(u));
            Steady(t) && Later(s, {}, t) && Settled(t, u) && Asks(s, ToJoin(u), t)
  {
    assert Fresh(s, ToJoin(u)) && Balanced(s);
    hide Later, Steady, Ask, Settled, Asks, Called, Current, Fresh;
    AskSteady(s, ToJoin(u));
    JoinSettles(s, u);
    JoinCalls(s, u);
  }

  /** Waiting for a monitor is no call, and no unit is at work meanwhile. */
  lemma JoinCalls(s: State, u: string)
    ensures Called(s, ToJoin(u)) == s && Current(ToJoin(u)) == {}
  {
  }

  lemma StillSettled(s: State)
    requires Steady(s)
    ensures Later(s, {}, s)
  {
    LaterItself(s, {});
    hide Later, Balanced, Accounted;
  }

  /** waitBackgroundMonitor: on time, or stopped because the task's Done did not complete. */
  method WaitBackgroundMonitor(s: State, u: string) returns (t: State, late: bool)
    requires Steady(s) && u in s.monitors
    ensures Steady(t) && Later(s, {}, t) && Settled(t, u)
    ensures if Settled(s, u) then t == s && !late else Asks(s, ToJoin(u), t) && late == t.asked[|s.asked|].choice.late
  {
    hide Later, Disturb, Ask, NextChoice, Settled, Steady;
    if Settled(s, u) {
      StillSettled(s);
      return s, false;
    }
    JoinSteady(s, u);
    t, late := Ask(s, ToJoin(u)), NextChoice(s).late;
  }

  lemma LaterKeys(s: State, current: set<string>, t: State)
    requires Later(s, current, t)
    ensures t.monitors.Keys == s.monitors.Keys && t.active == s.active
  {
  }

  // ------------------------------------------------------ progress of a shutdown

  predicate SentBy(s: State, u: string) {
    exists k :: 0 <= k < |s.sent| && s.sent[k].unit == u
  }

  ghost predicate Onward(s: State, t: State) {
    && t.active == s.active && t.room == s.room && t.tape == s.tape && t.monitors.Keys == s.monitors.Keys
    && (forall u :: Settled(s, u) ==> Settled(t, u))
    && s.sent <= t.sent
    && (forall k :: |s.sent| <= k < |t.sent| ==> !Settled(s, t.sent[k].unit))
    && (forall u :: u in t.outputs ==> u in s.outputs || u in s.active)
  }

  /** `t` is a later state of the same run; the background failures received since are among `causes`. */
  ghost predicate Progress(s: State, t: State, causes: seq<Cause>) {
    && Steady(t) && Onward(s, t) && FatalBy(s, t, causes)
    && |s.queue| <= |s.sent| && Drained(t) == Drained(s) + BackgroundsIn(causes)
  }

  /**
    A task is on record as failed because it was overdue, and then with that text,
    or else because its monitor said so. What is on record stays.
   */
  ghost predicate FatalBy(s: State, t: State, causes: seq<Cause>) {
    && (forall v :: v in s.fatal ==> v in t.fatal && t.fatal[v] == s.fatal[v])
    && (forall v :: v in t.fatal && v !in s.fatal ==>
          if Overdue(v) in causes then t.fatal[v] == LATE else Failure(v, t.fatal[v]) in t.sent)
    && (forall v :: Overdue(v) in causes ==> v in t.fatal && v !in s.fatal)
  }

  lemma ProgressItself(s: State)
    requires Steady(s)
    ensures Progress(s, s, [])
  {
  }

  lemma OnwardThen(s: State, t: State, u: State)
    requires Onward(s, t) && Onward(t, u)
    ensures Onward(s, u)
  {
  }

  lemma ProgressOnward(s: State, t: State, causes: seq<Cause>, t': State)
    requires Progress(s, t, causes) && Steady(t') && Onward(t, t') && t'.fatal == t.fatal
    requires |t.queue| <= |t.sent| && |t'.queue| <= |t'.sent| && Drained(t') == Drained(t)
    ensures Progress(s, t', causes)
  {
    hide Steady, Settled, FatalBy;
    OnwardThen(s, t, t');
    FatalLater(s, t, causes, t') by { OnwardSent(t, t'); }
    hide Onward;
  }

  lemma LaterOnward(t: State, t': State)
    requires Later(t, {}, t')
    ensures Onward(t, t') && t'.fatal == t.fatal
    ensures |t.queue| <= |t.sent| && |t'.queue| <= |t'.sent| && Drained(t') == Drained(t)
  {
  }

  lemma ProgressLater(s: State, t: State, causes: seq<Cause>, t': State)
    requires Progress(s, t, causes) && Steady(t') && Later(t, {}, t')
    ensures Progress(s, t', causes)
  {
    hide Steady, Later, Onward, Progress;
    LaterOnward(t, t');
    ProgressOnward(s, t, causes, t');
  }

  /** A call during the shutdown. */
  lemma ProgressAsk(s: State, t: State, causes: seq<Cause>, query: Query)
    requires Progress(s, t, causes) && query.ToStop?
    ensures Progress(s, Ask(t, query), causes) && Asks(t, query, Ask(t, query))
    ensures forall u :: Settled(t, u) ==> Settled(Ask(t, query), u)
  {
    hide Steady, Later, Onward, Ask, Asks, Drained, Settled, Disturb, FatalBy, BackgroundsIn;
    AskSteady(t, query);
    CalledOnward(t, query, Ask(t, query));
    hide Progress;
    ProgressOnward(s, t, causes, Ask(t, query));
  }

  lemma CalledOnward(t: State, query: Query, t': State)
    requires Later(Called(t, query), {}, t')
    ensures Onward(t, t') && t'.fatal == t.fatal
    ensures |t.queue| <= |t.sent| && |t'.queue| <= |t'.sent| && Drained(t') == Drained(t)
    ensures forall u :: Settled(t, u) ==> Settled(t', u)
  {
    LaterOnward(Called(t, query), t');
  }

  lemma FatalLater(s: State, t: State, causes: seq<Cause>, t': State)
    requires FatalBy(s, t, causes) && t'.fatal == t.fatal && t.sent <= t'.sent
    ensures FatalBy(s, t', causes)
  {
  }

  lemma ReceivedFatal(s: State, t: State, causes: seq<Cause>)
    requires Steady(t) && FatalBy(s, t, causes)
    ensures FatalBy(s, Received(t), causes + Wrap(t.queue))
  {
    RecordAllKeys(t.fatal, t.queue);
    WrapUnwraps(t.queue);
    QueuedIsSent(t);
    hide RecordAll, Wrap, BackgroundsIn, Steady, SentBy;
    MoreFatal(s, t, causes, Received(t), Wrap(t.queue));
  }

  lemma MoreFatal(s: State, t: State, causes: seq<Cause>, t': State, more: seq<Cause>)
    requires FatalBy(s, t, causes) && t'.sent == t.sent
    requires forall v :: v in t.fatal ==> v in t'.fatal && t'.fatal[v] == t.fatal[v]
    requires forall c :: c in more ==> c.Background?
    requires forall v :: v in t'.fatal && v !in t.fatal ==> Failure(v, t'.fatal[v]) in t.sent
    ensures FatalBy(s, t', causes + more)
  {
  }

  /** Onward looks at neither the error channel nor the records of failure. */
  lemma OnwardSame(s: State, t: State, t': State)
    requires Onward(s, t) && t' == t.(queue := t'.queue, fatal := t'.fatal, results := t'.results, log := t'.log, asked := t'.asked)
    ensures Onward(s, t')
  {
  }

  lemma QueuedIsSent(t: State)
    requires QueueOk(t)
    ensures forall f :: f in t.queue ==> f in t.sent && SentBy(t, f.unit)
  {
    forall f | f in t.queue
      ensures f in t.sent && SentBy(t, f.unit)
    {
      var k :| 0 <= k < |t.queue| && t.queue[k] == f;
      assert t.sent[|t.sent| - |t.queue| + k] == f;
    }
  }

  lemma SentIsFatal(t: State)
    requires Steady(t)
    ensures forall v :: SentBy(t, v) ==> v in Received(t).fatal
  {
    ReceivedSteady(t);
    hide RecordAll, Wrap, BackgroundsIn;
    forall v | SentBy(t, v)
      ensures v in Received(t).fatal
    {
      var k :| 0 <= k < |t.sent| && t.sent[k].unit == v;
      assert Drained(Received(t))[k] == t.sent[k];
    }
  }

  lemma ProgressReceived(s: State, t: State, causes: seq<Cause>)
    requires Progress(s, t, causes)
    ensures Progress(s, Received(t), causes + Wrap(t.queue)) && Received(t).queue == []
    ensures forall v :: SentBy(t, v) ==> v in Received(t).fatal
  {
    hide Steady, FatalBy, RecordAll, Wrap, BackgroundsIn, SentBy, Settled;
    ReceivedSteady(t);
    ReceivedFatal(s, t, causes);
    SentIsFatal(t);
    BackgroundsJoin(causes, Wrap(t.queue));
    OnwardSame(s, t, Received(t));
  }

  /** The results may change freely. */
  lemma ProgressNoted(s: State, t: State, causes: seq<Cause>, t': State)
    requires Progress(s, t, causes) && t' == t.(results := t'.results)
    ensures Progress(s, t', causes)
  {
    hide Steady, SentBy, BackgroundsIn;
    ResultsSteady(t, t'.results);
    OnwardSame(s, t, t');
    hide Onward;
  }

  function Noticed(t: State, c: Cause): State {
    if c.Overdue? then t.(fatal := Record(t.fatal, c.unit, LATE)) else t
  }

  lemma NoticedFatal(s: State, t: State, causes: seq<Cause>, c: Cause)
    requires FatalBy(s, t, causes) && (c.Overdue? || c.Stopping?) && (c.Overdue? ==> c.unit !in t.fatal)
    ensures FatalBy(s, Noticed(t, c), causes + [c])
  {
  }

  lemma NoticedSteady(t: State, c: Cause)
    requires Steady(t)
    ensures Steady(Noticed(t, c))
  {
    hide Accounted;
    AccountedSame(t, Noticed(t, c));
  }

  lemma ProgressCause(s: State, t: State, causes: seq<Cause>, c: Cause)
    requires Progress(s, t, causes) && (c.Overdue? || c.Stopping?) && (c.Overdue? ==> c.unit !in t.fatal)
    ensures Progress(s, Noticed(t, c), causes + [c])
  {
    hide Settled, Steady, FatalBy, SentBy;
    assert (causes + [c])[..|causes|] == causes;
    NoticedSteady(t, c);
    NoticedFatal(s, t, causes, c);
    OnwardSame(s, t, Noticed(t, c));
  }

  lemma FatalThen(s: State, t: State, a: seq<Cause>, u: State, b: seq<Cause>)
    requires FatalBy(s, t, a) && FatalBy(t, u, b) && t.sent <= u.sent
    ensures FatalBy(s, u, a + b)
  {
  }

  lemma ProgressThen(s: State, t: State, a: seq<Cause>, u: State, b: seq<Cause>)
    requires Progress(s, t, a) && Progress(t, u, b)
    ensures Progress(s, u, a + b)
  {
    hide Onward, Settled, BackgroundsIn, Steady, FatalBy;
    OnwardThen(s, t, u);
    BackgroundsJoin(a, b);
    assert t.sent <= u.sent by { OnwardSent(t, u); }
    FatalThen(s, t, a, u, b);
  }

  lemma OnwardSent(s: State, t: State)
    requires Onward(s, t)
    ensures s.sent <= t.sent
  {
  }
}
