/**
  What a run of the engine makes of the answers it gets: which end the work, which
  causes they put in the error, which background failures are reported, and which
  outputs are closed.
 */
module EngineAnswers {
  import opened Outcomes
  import opened Ordering
  import opened Engine
  import opened EngineProgress
  import opened Shutdown
  import opened EngineRun
  import opened EngineGuarantees

  /** No more calls to Validate, Plan, Run or Start. */
  predicate WorkOver(t: State, i: nat) {
    forall j :: i < j < |t.asked| ==> !OfWork(t.asked[j].query)
  }

  /** A Run or Start that fails is the last work call, and the error begins with its cause. */
  lemma FailedEntryEndsWork(background: set<string>, err: seq<Cause>, t: State, i: nat, text: string)
    requires Charged(background, err, t) && i < |t.asked| && t.asked[i].query.ToEnter?
    requires t.asked[i].choice.outcome == Failed(text)
    ensures var u := t.asked[i].query.unit;
            && WorkOver(t, i) && err != []
            && err[0] == (if u in background then Starting(u, text) else Running(u, text))
  {
    ChargeEndsWork(background, err, t, i);
    hide Wrap;
  }

  lemma ChargeEndsWork(background: set<string>, err: seq<Cause>, t: State, i: nat)
    requires Charged(background, err, t) && i < |t.asked| && OfWork(t.asked[i].query)
    requires Charge(background, t.asked[i]) != []
    ensures WorkOver(t, i) && Charge(background, t.asked[i]) <= err
  {
    hide Charge;
  }

  /**
    A Run that succeeds while background failures are waiting fails with the context's
    error, or else with the first of them, and they follow in the error.
   */
  lemma ArrivedFailureEndsWork(background: set<string>, err: seq<Cause>, t: State, i: nat)
    requires Charged(background, err, t) && i < |t.asked| && t.asked[i].query.ToEnter?
    requires t.asked[i].query.unit !in background && t.asked[i].choice.outcome.Clean? && t.asked[i].pending != []
    ensures var u, a := t.asked[i].query.unit, t.asked[i];
            && WorkOver(t, i)
            && [Running(u, if a.choice.context.Failed? then a.choice.context.text else a.pending[0].text)] + Wrap(a.pending) <= err
  {
    ChargeEndsWork(background, err, t, i);
    hide Wrap;
  }

  /**
    A Validate or Plan that fails is the last work call. The error begins with its
    cause, or with the background failures that had arrived by then, if any.
   */
  lemma RefusalEndsWork(background: set<string>, err: seq<Cause>, t: State, i: nat, text: string)
    requires Charged(background, err, t) && i < |t.asked| && (t.asked[i].query.ToValidate? || t.asked[i].query.ToPlan?)
    requires t.asked[i].choice.outcome == Failed(text)
    ensures var u, pending := t.asked[i].query.unit, t.asked[i].pending;
            && WorkOver(t, i) && err != []
            && (pending == [] ==> err[0] == if t.asked[i].query.ToValidate? then Validating(u, text) else Planning(u, text))
            && (pending != [] ==> Wrap(pending) <= err && err[0] == Background(pending[0].unit, pending[0].text))
  {
    WrapUnwraps(t.asked[i].pending);
    FirstWrapped(t.asked[i].pending);
    ChargeEndsWork(background, err, t, i);
    hide Wrap, BackgroundsIn;
  }

  lemma {:induction false} FirstWrapped(failures: seq<Failure>)
    ensures failures != [] ==> Wrap(failures) != [] && Wrap(failures)[0] == Background(failures[0].unit, failures[0].text)
  {
    if |failures| > 1 { FirstWrapped(failures[..|failures| - 1]); }
  }

  /** Every Stop that fails and every overdue monitor is in the error, and nothing else is there as such. */
  lemma StopsAreReported(background: set<string>, err: seq<Cause>, t: State, u: string, text: string)
    requires Charged(background, err, t)
    ensures Stopping(u, text) in err <==>
              exists i :: 0 <= i < |t.asked| && t.asked[i].query == ToStop(u) && t.asked[i].choice.outcome == Failed(text)
    ensures Overdue(u) in err <==>
              exists i :: 0 <= i < |t.asked| && t.asked[i].query == ToJoin(u) && t.asked[i].choice.late
  {
    hide Charge;
    forall i | 0 <= i < |t.asked|
      ensures Stopping(u, text) in Charge(background, t.asked[i]) <==>
                t.asked[i].query == ToStop(u) && t.asked[i].choice.outcome == Failed(text)
      ensures Overdue(u) in Charge(background, t.asked[i]) <==> t.asked[i].query == ToJoin(u) && t.asked[i].choice.late
    {
      StopIsCharged(background, t.asked[i], u, text);
    }
  }

  lemma StopIsCharged(background: set<string>, a: Answer, u: string, text: string)
    ensures Stopping(u, text) in Charge(background, a) <==> a.query == ToStop(u) && a.choice.outcome == Failed(text)
    ensures Overdue(u) in Charge(background, a) <==> a.query == ToJoin(u) && a.choice.late
  {
    WrapUnwraps(a.pending);
    hide Wrap, BackgroundsIn;
  }

  /** The answer is as good as can be. What closing an output answers is no matter for the error. */
  predicate Fine(a: Answer) {
    match a.query
    case ToJoin(_) => !a.choice.late
    case ToClose(_, _) => true
    case _ => a.choice.outcome.Clean?
  }

  /**
    Run returns no error, and a completed status, if and only if every call answered
    well, no monitor took an error, and none was overdue.
   */
  lemma CleanExactlyWhenAllFine(order: seq<string>, background: set<string>, status: Status, err: seq<Cause>, t: State)
    requires RunOk(order, background, status, err, t)
    ensures status.Completed? <==> t.taken == {} && forall i :: 0 <= i < |t.asked| ==> Fine(t.asked[i])
    ensures err == [] <==> status.Completed?
  {
    hide TornDown, Prefixed, AllCompleted, Steady, ResultsDue, Charge;
    if err == [] {
      NothingTaken(err, t) by { hide Charged; }
      forall i | 0 <= i < |t.asked|
        ensures Fine(t.asked[i])
      {
        UnchargedIsFine(background, err, t, i);
      }
    } else if t.taken == {} && forall i :: 0 <= i < |t.asked| ==> Fine(t.asked[i]) {
      NoBackground(err, t);
      assert err[0] in err;
      var i :| 0 <= i < |t.asked| && err[0] in Charge(background, t.asked[i]);
      FineIsUncharged(background, err, t, i);
      assert false;
    }
  }

  lemma NothingTaken(err: seq<Cause>, t: State)
    requires NoneLost(err, t) && err == []
    ensures t.taken == {}
  {
    assert t.sent == [];
    hide BackgroundsIn;
  }

  lemma NoBackground(err: seq<Cause>, t: State)
    requires NoneLost(err, t) && t.taken == {}
    ensures forall c :: c in err ==> !c.Background?
  {
    hide BackgroundsIn;
    forall c | c in err
      ensures !c.Background?
    {
      if c.Background? { BackgroundAmong(err, c); }
    }
  }

  lemma UnchargedIsFine(background: set<string>, err: seq<Cause>, t: State, i: nat)
    requires Charged(background, err, t) && err == [] && i < |t.asked|
    ensures Fine(t.asked[i])
  {
    EmptyWrap(t.asked[i].pending);
    NoMembers(Charge(background, t.asked[i])) by { hide Charge; }
    assert forall c :: c in Charge(background, t.asked[i]) ==> c in err by { hide Charge; }
    hide Wrap;
  }

  lemma NoMembers(causes: seq<Cause>)
    ensures (forall c :: c !in causes) ==> causes == []
  {
    if causes != [] { assert causes[0] in causes; }
  }

  lemma FineIsUncharged(background: set<string>, err: seq<Cause>, t: State, i: nat)
    requires Charged(background, err, t) && i < |t.asked| && Fine(t.asked[i])
    requires forall c :: c in err ==> !c.Background?
    ensures Charge(background, t.asked[i]) == []
  {
    var pending := t.asked[i].pending;
    WrapUnwraps(pending);
    if pending != [] {
      hide Wrap, BackgroundsIn;
      assert Wrap(pending)[0].Background? && forall c :: c in Charge(background, t.asked[i]) ==> c in err;
    }
  }

  /** The monitor of the unit entered at `p` was the first to hear, from then on, that its task failed like this. */
  predicate Reports(t: State, p: nat, f: Failure) {
    && p < |t.asked| && t.asked[p].query == ToEnter(f.unit) && f.unit in t.active && t.asked[p].choice.monitored
    && FirstTake(DeedsIn(t.asked[p + 1..]), f.unit) == Some(Failed(f.text))
  }

  /** The background failures in the error are the first outcomes of the monitored tasks, where these are failures. */
  lemma FirstFailureIsReported(order: seq<string>, background: set<string>, status: Status, err: seq<Cause>, t: State, f: Failure)
    requires RunOk(order, background, status, err, t)
    ensures f in BackgroundsIn(err) <==> exists p: nat :: Reports(t, p, f)
  {
    hide TornDown, Prefixed, Agrees, Steady, ResultsDue, Charged, BackgroundsIn, FirstTake, DeedsIn;
    if f in t.taken {
      var p := ReportPlace(t, f);
    }
    if p: nat :| Reports(t, p, f) { ReportIsTaken(t, p, f); }
  }

  lemma ReportPlace(t: State, f: Failure) returns (p: nat)
    requires Steady(t) && f in t.taken
    ensures Reports(t, p, f)
  {
    hide FirstTake, DeedsIn, CallsOf, CallsIn, LastSet, PortOf;
    assert f.unit in t.monitors;
    assert f.unit in t.active;
    p :| p < |t.asked| && t.asked[p].query == ToEnter(f.unit);
    assert UnitOk(t, p);
  }

  lemma ReportIsTaken(t: State, p: nat, f: Failure)
    requires Steady(t) && Reports(t, p, f)
    ensures f in t.taken
  {
    hide FirstTake, DeedsIn, CallsOf, CallsIn, LastSet, PortOf, Balanced;
    assert UnitOk(t, p);
  }

  /** The unit entered at `p` left this output closeable: the last thing it set it to, while it could. */
  predicate LeavesOpen(t: State, p: nat, u: string, port: string) {
    p < |t.asked| && t.asked[p].query == ToEnter(u) && LastSet(DeedsIn(Span(t, p)), u, port) == Some(true)
  }

  /** Exactly the outputs left closeable by units that were run or started are closed. */
  lemma ClosedAsSet(order: seq<string>, background: set<string>, status: Status, err: seq<Cause>, t: State, u: string, port: string)
    requires RunOk(order, background, status, err, t) && Distinct(order)
    ensures Closed(u, port) in t.log <==> exists p: nat :: LeavesOpen(t, p, u, port)
  {
    hide Prefixed, Agrees, Steady, ResultsDue, Charged, NoneLost, TornDown, LastSet, DeedsIn, Span;
    ClosesEachOnce(order, background, t, u, port);
    if p: nat :| LeavesOpen(t, p, u, port) {
      OpenIsSet(t, p, u, port);
      EnteredInOrder(order, background, t, p, u);
    }
    if u in t.outputs && PortOf(t.outputs, u, port) == Some(true) {
      var p := OpenPlace(t, u, port);
    }
  }

  lemma OpenIsSet(t: State, p: nat, u: string, port: string)
    requires Steady(t) && LeavesOpen(t, p, u, port)
    ensures PortOf(t.outputs, u, port) == Some(true)
  {
    hide FirstTake, DeedsIn, CallsOf, CallsIn, LastSet, PortOf, Balanced, Took, Span;
    assert UnitOk(t, p);
  }

  lemma OpenPlace(t: State, u: string, port: string) returns (p: nat)
    requires Steady(t) && u in t.outputs && PortOf(t.outputs, u, port) == Some(true)
    ensures LeavesOpen(t, p, u, port)
  {
    hide FirstTake, DeedsIn, CallsOf, CallsIn, LastSet, PortOf, Balanced, Took, Span;
    p :| p < |t.asked| && t.asked[p].query == ToEnter(u);
    assert UnitOk(t, p);
  }

  lemma EnteredInOrder(order: seq<string>, background: set<string>, t: State, p: nat, u: string)
    requires Steady(t) && TornDown(order, background, t) && p < |t.asked| && t.asked[p].query == ToEnter(u)
    ensures u in order
  {
    CallMade(t.asked, p, Entered(u));
    CallLogged(t.log, Entered(u));
    hide CallsOf, CallsIn, Balanced, Logged, Played, Once, Entrances, Units;
    var m: nat, stage: nat :| Logged(order, background, t, m, stage);
    var i :| 0 <= i < |t.log| && t.log[i] == Entered(u);
    var n := EnteredPlace(order, background, t, m, stage, i);
  }

  lemma {:induction false} CallMade(asked: seq<Answer>, p: nat, e: Event)
    requires p < |asked| && CallOf(asked[p].query) == [e]
    ensures e in CallsOf(asked)
  {
    var n := |asked| - 1;
    if p < n { CallMade(asked[..n], p, e); }
  }

  lemma {:induction false} CallLogged(log: seq<Event>, e: Event)
    requires e in CallsIn(log)
    ensures e in log
  {
    var n := |log| - 1;
    if e in CallsIn(log[..n]) { CallLogged(log[..n], e); }
  }
}
