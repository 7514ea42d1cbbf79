/**
  stopBackgrounds and the output cleanup of benchkit/kernel/kernel.go: what
  happens to the active background tasks and the closeable outputs on every way
  out of Engine.Run.
 */
module Shutdown {
  import opened Outcomes
  import opened Ordering
  import opened Engine
  import opened EngineProgress

  /** What the unit's monitor reported. */
  function Texts(failures: seq<Failure>, u: string): seq<string> {
    if failures == [] then []
    else
      var n := |failures| - 1;
      Texts(failures[..n], u) + (if failures[n].unit == u then [failures[n].text] else [])
  }

  /** What the unit's Stop returned. */
  function StopTexts(causes: seq<Cause>, u: string): seq<string> {
    if causes == [] then []
    else
      var n := |causes| - 1;
      StopTexts(causes[..n], u) + (if causes[n].Stopping? && causes[n].unit == u then [causes[n].text] else [])
  }

  /** The errors of a stopped task: that it was overdue or else what its monitor reported, then what Stop returned. */
  function ErrorsDue(s: State, causes: seq<Cause>, u: string): seq<string> {
    (if Overdue(u) in causes then [LATE] else Texts(s.sent, u)) + StopTexts(causes, u)
  }

  /** The unit has the result due, failed exactly if there is an error. */
  ghost predicate Verdict(s: State, causes: seq<Cause>, u: string) {
    && u in s.results
    && var errors := ErrorsDue(s, causes, u);
       s.results[u] == UnitResult(if errors == [] then Completed else WorkerFailed, errors, [])
  }

  /** A background failure of the unit was sent, or its Stop failed or came too late. */
  ghost predicate Blamed(s: State, causes: seq<Cause>, u: string) {
    SentBy(s, u) || Overdue(u) in causes || exists c :: c in causes && c.Stopping? && c.unit == u
  }

  lemma {:induction false} TextsAre(failures: seq<Failure>, u: string)
    ensures forall text :: text in Texts(failures, u) <==> Failure(u, text) in failures
  {
    if failures != [] {
      var n := |failures| - 1;
      TextsAre(failures[..n], u);
      assert failures == failures[..n] + [failures[n]];
    }
  }

  lemma {:induction false} StopTextsAre(causes: seq<Cause>, u: string)
    ensures forall text :: text in StopTexts(causes, u) <==> Stopping(u, text) in causes
  {
    if causes != [] {
      var n := |causes| - 1;
      StopTextsAre(causes[..n], u);
      assert causes == causes[..n] + [causes[n]];
    }
  }

  /** A task is judged failed exactly if there is something to blame. */
  lemma BlamedIff(s: State, causes: seq<Cause>, u: string)
    ensures Blamed(s, causes, u) <==> ErrorsDue(s, causes, u) != []
  {
    TextsAre(s.sent, u);
    StopTextsAre(causes, u);
    hide Texts, StopTexts;
    if SentBy(s, u) {
      var k :| 0 <= k < |s.sent| && s.sent[k].unit == u;
      assert Failure(u, s.sent[k].text) in s.sent;
      assert s.sent[k].text in Texts(s.sent, u);
    }
    if c :| c in causes && c.Stopping? && c.unit == u { assert c.text in StopTexts(causes, u); }
    if !Blamed(s, causes, u) {
      if Texts(s.sent, u) != [] { HeadIn(Texts(s.sent, u)); }
      if StopTexts(causes, u) != [] { HeadIn(StopTexts(causes, u)); }
    }
  }

  lemma HeadIn(texts: seq<string>)
    requires texts != []
    ensures texts[0] in texts
  {
  }

  lemma {:induction false} TextsJoin(a: seq<Failure>, b: seq<Failure>, u: string)
    ensures Texts(a + b, u) == Texts(a, u) + Texts(b, u)
  {
    if b == [] {
      assert a + b == a;
    } else {
      assert (a + b)[..|a| + |b| - 1] == a + b[..|b| - 1];
      TextsJoin(a, b[..|b| - 1], u);
    }
  }

  lemma {:induction false} StopTextsJoin(a: seq<Cause>, b: seq<Cause>, u: string)
    ensures StopTexts(a + b, u) == StopTexts(a, u) + StopTexts(b, u)
  {
    if b == [] {
      assert a + b == a;
    } else {
      assert (a + b)[..|a| + |b| - 1] == a + b[..|b| - 1];
      StopTextsJoin(a, b[..|b| - 1], u);
    }
  }

  lemma {:induction false} NoTexts(failures: seq<Failure>, u: string)
    requires forall k :: 0 <= k < |failures| ==> failures[k].unit != u
    ensures Texts(failures, u) == []
  {
    if failures != [] { NoTexts(failures[..|failures| - 1], u); }
  }

  lemma {:induction false} NoStopTexts(causes: seq<Cause>, u: string)
    requires forall c :: c in causes && c.Stopping? ==> c.unit != u
    ensures StopTexts(causes, u) == []
  {
    if causes != [] {
      var n := |causes| - 1;
      assert causes[n] in causes && forall c :: c in causes[..n] ==> c in causes;
      NoStopTexts(causes[..n], u);
    }
  }

  /** A unit's monitor reports once. */
  lemma {:induction false} OneText(failures: seq<Failure>, f: Failure)
    requires f in failures && forall j, k :: 0 <= j < k < |failures| ==> failures[j].unit != failures[k].unit
    ensures Texts(failures, f.unit) == [f.text]
  {
    var n := |failures| - 1;
    if failures[n] == f {
      NoTexts(failures[..n], f.unit);
    } else {
      assert f in failures[..n];
      OneText(failures[..n], f);
      assert failures[n].unit != f.unit;
    }
  }

  lemma LaterSame(s: State, current: set<string>, t: State)
    requires Later(s, current, t)
    ensures t.log == s.log && t.results == s.results && t.fatal == s.fatal && t.active == s.active
    ensures t.monitors.Keys == s.monitors.Keys
    ensures forall u :: Settled(s, u) ==> Settled(t, u)
  {
  }

  lemma SteadyActive(s: State, u: string)
    requires Steady(s)
    ensures u in s.active <==> u in s.monitors
  {
  }

  /** How a Stop went: late, and with which error. */
  datatype Stop = Stop(late: bool, err: Outcome)

  /** Stop was called, then the monitor was waited for if it was still there; this is how it went. */
  ghost predicate StopAnswered(s: State, t: State, u: string, stop: Stop) {
    var n := |s.asked|;
    && s.asked <= t.asked && n < |t.asked| <= n + 2
    && t.asked[n].query == ToStop(u) && t.asked[n].choice.outcome == stop.err
    && (if |t.asked| == n + 1 then !stop.late
        else t.asked[n + 1].query == ToJoin(u) && t.asked[n + 1].choice.late == stop.late)
  }

  /** Everything before the unit's result is written down. */
  method AwaitStop(s: State, u: string) returns (t: State, causes: seq<Cause>, stop: Stop)
    requires Steady(s) && u in s.active && (u in s.fatal ==> Failure(u, s.fatal[u]) in s.sent)
    ensures Progress(s, t, causes) && Settled(t, u) && t.queue == []
    ensures t.log == s.log + [Stopped(u)] && t.results == s.results
    ensures forall v :: SentBy(t, v) ==> v in t.fatal
    ensures forall c :: c in causes ==> c.Background? || c == Overdue(u)
    ensures StopAnswered(s, t, u, stop) && (Overdue(u) in causes <==> stop.late)
    ensures Wrap(s.queue) <= causes
  {
    hide Steady, Later, Settled, Progress, FatalBy, Onward, RecordAll, Wrap, BackgroundsIn, Ask, SentBy;
    var failures;
    ProgressItself(s);
    ProgressReceived(s, s, []);
    WrapUnwraps(s.queue);
    t, failures, causes := CheckBackgroundErrors(s);
    assert [] + causes == causes;
    var choice := NextChoice(t);
    ProgressAsk(s, t, causes, ToStop(u));
    t := Ask(t, ToStop(u));
    ProgressSteady(s, t, causes);
    SteadyActive(t, u);
    var late;
    ghost var before := t;
    t, late := WaitBackgroundMonitor(t, u);
    ProgressLater(s, before, causes, t);
    LaterSame(before, {}, t);
    stop := Stop(late, choice.outcome);
    if late {
      if u in before.fatal { OnRecordSettled(s, before, causes, u); }
      ProgressCause(s, t, causes, Overdue(u));
      SettledSame(t, Noticed(t, Overdue(u)), u);
      t, causes := Noticed(t, Overdue(u)), causes + [Overdue(u)];
    }
    ProgressReceived(s, t, causes);
    WrapUnwraps(t.queue);
    SettledSame(t, Received(t), u);
    SentSame(t, Received(t));
    var more;
    t, failures, more := CheckBackgroundErrors(t);
    causes := causes + more;
  }

  /** The monitor of a task that is on record as failed is gone. */
  lemma OnRecordSettled(s: State, t: State, causes: seq<Cause>, u: string)
    requires Progress(s, t, causes) && u in t.fatal && Overdue(u) !in causes
    requires u in s.fatal ==> Failure(u, s.fatal[u]) in s.sent
    ensures Settled(t, u)
  {
    hide Accounted, BackgroundsIn;
    assert Failure(u, t.fatal[u]) in t.sent;
    var k :| 0 <= k < |t.sent| && t.sent[k] == Failure(u, t.fatal[u]);
    assert t.monitors[t.sent[k].unit].Gone?;
  }

  lemma SettledSame(s: State, t: State, u: string)
    requires t.monitors == s.monitors
    ensures Settled(s, u) == Settled(t, u)
  {
  }

  lemma SentSame(s: State, t: State)
    requires t.sent == s.sent
    ensures forall v :: SentBy(s, v) == SentBy(t, v)
  {
  }

  lemma ProgressSteady(s: State, t: State, causes: seq<Cause>)
    requires Progress(s, t, causes)
    ensures Steady(t) && t.active == s.active && t.tape == s.tape
  {
  }

  /** The task's error texts: what its monitor reported, then what Stop returned. */
  function ErrorsOf(t: State, u: string, err: Outcome): seq<string> {
    (if u in t.fatal then [t.fatal[u]] else []) + (if err.Failed? then [err.text] else [])
  }

  function StopCause(u: string, err: Outcome): seq<Cause> {
    if err.Failed? then [Stopping(u, err.text)] else []
  }

  predicate OfShutdown(c: Cause) {
    c.Background? || c.Overdue? || c.Stopping?
  }

  method StopOne(s: State, u: string) returns (t: State, causes: seq<Cause>)
    requires Steady(s) && u in s.active && (u in s.fatal ==> Failure(u, s.fatal[u]) in s.sent)
    ensures Progress(s, t, causes) && Settled(t, u) && t.queue == []
    ensures t.log == s.log + [Stopped(u)]
    ensures forall c :: c in causes ==> OfShutdown(c) && (c.Background? || c.unit == u)
    ensures Verdict(t, causes, u) && t.results == s.results[u := t.results[u]]
    ensures Heard(s, t, causes) && exists stop :: StopAnswered(s, t, u, stop)
    ensures Wrap(s.queue) <= causes
  {
    hide Steady, Settled, Progress, SentBy, StopAnswered, ErrorsDue, Heard;
    var stop;
    t, causes, stop := AwaitStop(s, u);
    ghost var before, earlier := t, causes;
    StopErrors(s, t, causes, u, stop.err);
    StopHeard(s, t, causes, u, stop);
    var errors := ErrorsOf(t, u, stop.err);
    var status := if errors == [] then Completed else WorkerFailed;
    if stop.err.Failed? {
      ProgressCause(s, t, causes, Stopping(u, stop.err.text));
      causes := causes + [Stopping(u, stop.err.text)];
    } else {
      assert causes + StopCause(u, stop.err) == causes;
    }
    t := t.(results := t.results[u := UnitResult(status, errors, [])]);
    ProgressNoted(s, before, causes, t);
    SettledSame(before, t, u);
    AnswersSame(s, before, causes, u, stop, t);
  }

  lemma AnswersSame(s: State, t: State, causes: seq<Cause>, u: string, stop: Stop, t': State)
    requires StopAnswered(s, t, u, stop) && Heard(s, t, causes) && t'.asked == t.asked && t'.sent == t.sent
    ensures StopAnswered(s, t', u, stop) && Heard(s, t', causes) && ErrorsDue(t', causes, u) == ErrorsDue(t, causes, u)
  {
    hide Texts, StopTexts, StopCharge;
  }

  /** What is on record against the task and what Stop returned are the errors due. */
  lemma StopErrors(s: State, t: State, causes: seq<Cause>, u: string, err: Outcome)
    requires Progress(s, t, causes) && (u in s.fatal ==> Failure(u, s.fatal[u]) in s.sent)
    requires forall v :: SentBy(t, v) ==> v in t.fatal
    requires forall c :: c in causes ==> c.Background? || c == Overdue(u)
    ensures ErrorsOf(t, u, err) == ErrorsDue(t, causes + StopCause(u, err), u)
  {
    hide StopTexts, Texts, Progress, SentBy, StopCause;
    RecordIsDue(s, t, causes, u);
    StopTextsJoin(causes, StopCause(u, err), u);
    NoStopTexts(causes, u);
    OneStopText(u, err);
  }

  lemma OneStopText(u: string, err: Outcome)
    ensures StopTexts(StopCause(u, err), u) == (if err.Failed? then [err.text] else [])
    ensures Overdue(u) !in StopCause(u, err)
  {
    if err.Failed? { assert [Stopping(u, err.text)][..0] == []; }
  }

  lemma RecordIsDue(s: State, t: State, causes: seq<Cause>, u: string)
    requires Progress(s, t, causes) && (u in s.fatal ==> Failure(u, s.fatal[u]) in s.sent)
    requires forall v :: SentBy(t, v) ==> v in t.fatal
    ensures (if u in t.fatal then [t.fatal[u]] else []) == (if Overdue(u) in causes then [LATE] else Texts(t.sent, u))
  {
    hide Accounted, BackgroundsIn, Texts;
    if Overdue(u) in causes {
    } else if u in t.fatal {
      assert Failure(u, t.fatal[u]) in t.sent;
      OneText(t.sent, Failure(u, t.fatal[u]));
    } else {
      assert !SentBy(t, u);
      NoTexts(t.sent, u);
    }
  }

  /** What the answers of one Stop call for is what it adds to the error. */
  lemma StopHeard(s: State, t: State, causes: seq<Cause>, u: string, stop: Stop)
    requires StopAnswered(s, t, u, stop) && (Overdue(u) in causes <==> stop.late)
    requires forall c :: c in causes ==> c.Background? || c == Overdue(u)
    ensures Heard(s, t, causes + StopCause(u, stop.err))
    ensures forall c :: c in causes + StopCause(u, stop.err) ==> OfShutdown(c) && (c.Background? || c.unit == u)
  {
    var n := |s.asked|;
    assert StopCharge(t.asked[n]) == StopCause(u, stop.err);
    if |t.asked| == n + 2 { assert StopCharge(t.asked[n + 1]) == if stop.late then [Overdue(u)] else []; }
    hide StopCharge;
    forall c | c in causes + StopCause(u, stop.err) && !c.Background?
      ensures exists i :: n <= i < |t.asked| && c in StopCharge(t.asked[i])
    {
      if c == Overdue(u) {
        assert c in StopCharge(t.asked[n + 1]);
      } else {
        assert c in StopCharge(t.asked[n]);
      }
    }
  }

  // ------------------------------------------------------------------ all of them

  function StopEvents(units: seq<string>): seq<Event> {
    if units == [] then [] else StopEvents(units[..|units| - 1]) + [Stopped(units[|units| - 1])]
  }

  /** Units `done` are settled and judged, the others' results are as before. */
  ghost predicate Judged(s: State, t: State, causes: seq<Cause>, done: seq<string>) {
    && (forall u :: u in done ==> Settled(t, u) && Verdict(t, causes, u))
    && (forall u :: u in t.results <==> u in s.results || u in done)
    && (forall u :: u in s.results && u !in done ==> t.results[u] == s.results[u])
    && (forall c :: c in causes ==> c.Background? || c.unit in done)
  }

  /** Judgement of one more unit leaves the earlier ones standing. */
  lemma VerdictStays(t: State, causes: seq<Cause>, t': State, more: seq<Cause>, u: string, v: string)
    requires Settled(t, v) && Verdict(t, causes, v) && Progress(t, t', more) && u != v
    requires forall c :: c in more ==> c.Background? || c.unit == u
    requires v in t'.results && t'.results[v] == t.results[v]
    ensures Settled(t', v) && Verdict(t', causes + more, v)
  {
    SentStays(t, t', more, v);
    hide Progress, Settled, ErrorsDue;
    DueStays(t, causes, t', more, v);
  }

  lemma DueStays(t: State, causes: seq<Cause>, t': State, more: seq<Cause>, v: string)
    requires Texts(t'.sent, v) == Texts(t.sent, v)
    requires forall c :: c in more && !c.Background? ==> c.unit != v
    ensures ErrorsDue(t', causes + more, v) == ErrorsDue(t, causes, v)
  {
    hide Texts, StopTexts;
    StopTextsJoin(causes, more, v);
    NoStopTexts(more, v);
    assert Overdue(v) !in more;
  }

  lemma DueNow(t: State, causes: seq<Cause>, more: seq<Cause>, u: string)
    requires forall c :: c in causes && (c.Overdue? || c.Stopping?) ==> c.unit != u
    ensures ErrorsDue(t, causes + more, u) == ErrorsDue(t, more, u)
  {
    hide Texts, StopTexts;
    StopTextsJoin(causes, more, u);
    NoStopTexts(causes, u);
    assert Overdue(u) !in causes;
  }

  lemma SentStays(t: State, t': State, more: seq<Cause>, v: string)
    requires Settled(t, v) && Progress(t, t', more)
    ensures Settled(t', v) && Texts(t'.sent, v) == Texts(t.sent, v)
  {
    hide Texts, Steady, FatalBy, BackgroundsIn;
    var rest := t'.sent[|t.sent|..];
    assert t'.sent == t.sent + rest;
    TextsJoin(t.sent, rest, v);
    assert forall k :: 0 <= k < |rest| ==> rest[k] == t'.sent[|t.sent| + k];
    NoTexts(rest, v);
  }

  lemma JudgedMore(s: State, t: State, causes: seq<Cause>, done: seq<string>, t': State, more: seq<Cause>, u: string)
    requires Judged(s, t, causes, done) && u !in done
    requires Progress(t, t', more) && Settled(t', u)
    requires forall c :: c in more ==> c.Background? || c.unit == u
    requires Verdict(t', more, u) && t'.results == t.results[u := t'.results[u]]
    ensures Judged(s, t', causes + more, done + [u])
  {
    hide Progress, Settled, ErrorsDue, Verdict;
    VerdictKnown(t', more, u);
    forall v | v in done
      ensures Settled(t', v) && Verdict(t', causes + more, v)
    {
      VerdictKnown(t, causes, v);
      VerdictStays(t, causes, t', more, u, v);
    }
    VerdictNow(t', causes, more, u);
  }

  lemma VerdictKnown(t: State, causes: seq<Cause>, u: string)
    requires Verdict(t, causes, u)
    ensures u in t.results
  {
  }

  lemma VerdictNow(t: State, causes: seq<Cause>, more: seq<Cause>, u: string)
    requires Verdict(t, more, u) && forall c :: c in causes && !c.Background? ==> c.unit != u
    ensures Verdict(t, causes + more, u) && u in t.results
  {
    hide ErrorsDue;
    DueNow(t, causes, more, u);
  }

  method StopBackgrounds(s: State) returns (t: State, causes: seq<Cause>)
    requires Steady(s) && forall u :: u in s.fatal ==> Failure(u, s.fatal[u]) in s.sent
    ensures Progress(s, t, causes) && t.queue == [] && Heard(s, t, causes)
    ensures t.log == s.log + StopEvents(Reverse(s.active))
    ensures Judged(s, t, causes, Reverse(s.active))
    ensures forall c :: c in causes ==> OfShutdown(c)
    ensures Wrap(s.queue) <= causes
  {
    hide Steady, Settled, Progress, Wrap, BackgroundsIn, RecordAll, Judged, Verdict, Received, Reverse, StopEvents, Heard;
    var failures, more;
    ProgressItself(s);
    ProgressReceived(s, s, []);
    t, failures, causes := CheckBackgroundErrors(s);
    assert [] + causes == causes;
    ghost var turn := Reverse(s.active);
    assert |turn| == |s.active|;
    var i := |t.active|;
    ghost var done := [];
    WrapUnwraps(s.queue);
    ReceivedKeeps(s);
    HeardNothing(s, t, causes);
    JudgedNone(s, t, causes);
    ProgressSteady(s, t, causes);
    assert StopEvents(done) == [] by { NoStops(); }
    while i > 0
      invariant 0 <= i <= |s.active| && Progress(s, t, causes) && t.queue == [] && t.active == s.active
      invariant done == turn[..|s.active| - i]
      invariant t.log == s.log + StopEvents(done)
      invariant Judged(s, t, causes, done) && Heard(s, t, causes)
      invariant (forall c :: c in causes ==> OfShutdown(c)) && Wrap(s.queue) <= causes
      decreases i
    {
      i := i - 1;
      var u := t.active[i];
      ghost var before := t;
      ProgressSteady(s, t, causes);
      NotYet(s.active, i) by { SteadyDistinct(t); }
      FatalSource(s, t, causes, done, u);
      t, more := StopOne(t, u);
      ProgressThen(s, before, causes, t, more);
      JudgedMore(s, before, causes, done, t, more, u);
      HeardThen(s, before, causes, t, more);
      causes := causes + more;
      ProgressSteady(s, t, causes);
      StopMore(done, u);
      done := done + [u];
    }
    assert done == turn;
    ghost var last := t;
    ProgressReceived(s, t, causes);
    t, failures, more := CheckBackgroundErrors(t);
    NothingLeft(last);
    assert causes + [] == causes;
    causes := causes + more;
    JudgedSame(s, last, causes, done, t);
  }

  lemma StopMore(done: seq<string>, u: string)
    ensures StopEvents(done + [u]) == StopEvents(done) + [Stopped(u)]
  {
    assert (done + [u])[..|done|] == done;
  }

  lemma NoStops()
    ensures StopEvents([]) == []
  {
  }

  lemma ReceivedKeeps(s: State)
    ensures Received(s).results == s.results && Received(s).log == s.log && Received(s).active == s.active
    ensures Received(s).asked == s.asked
  {
  }

  lemma SteadyDistinct(t: State)
    requires Steady(t)
    ensures Distinct(t.active)
  {
  }

  lemma NotYet(active: seq<string>, i: nat)
    requires Distinct(active) && i < |active|
    ensures active[i] !in Reverse(active)[..|active| - i - 1]
    ensures Reverse(active)[..|active| - i] == Reverse(active)[..|active| - i - 1] + [active[i]]
  {
    hide Reverse, Distinct;
    ReverseAt(active, |active| - i - 1);
    SliceSnoc(Reverse(active), |active| - i - 1);
  }

  lemma SliceSnoc<T>(xs: seq<T>, n: nat)
    requires n < |xs|
    ensures xs[..n + 1] == xs[..n] + [xs[n]]
  {
  }

  lemma ReverseAt(xs: seq<string>, n: nat)
    requires n < |xs| && Distinct(xs)
    ensures Reverse(xs)[n] == xs[|xs| - 1 - n] && xs[|xs| - 1 - n] !in Reverse(xs)[..n]
  {
    hide Reverse;
    forall k | 0 <= k < n
      ensures Reverse(xs)[k] != xs[|xs| - 1 - n]
    {
      assert Reverse(xs)[k] == xs[|xs| - 1 - k];
    }
  }

  lemma FatalSource(s: State, t: State, causes: seq<Cause>, done: seq<string>, u: string)
    requires Progress(s, t, causes) && Judged(s, t, causes, done) && u !in done
    requires forall v :: v in s.fatal ==> Failure(v, s.fatal[v]) in s.sent
    ensures u in t.fatal ==> Failure(u, t.fatal[u]) in t.sent
  {
    hide Verdict, Steady, BackgroundsIn;
    assert Overdue(u) in causes ==> Overdue(u).unit in done;
  }

  lemma JudgedNone(s: State, t: State, causes: seq<Cause>)
    requires t.results == s.results && forall c :: c in causes ==> c.Background?
    ensures Judged(s, t, causes, [])
  {
  }

  lemma NothingLeft(t: State)
    requires t.queue == []
    ensures Wrap(t.queue) == [] && Received(t) == t
  {
  }

  lemma JudgedSame(s: State, t: State, causes: seq<Cause>, done: seq<string>, t': State)
    requires Judged(s, t, causes, done) && t' == t
    ensures Judged(s, t', causes, done)
  {
  }

  // ----------------------------------------------------------------- output cleanup

  datatype Target = Target(unit: string, port: string)

  /** The closeable ones among the named ports. */
  function Closeables(unit: string, ports: map<string, bool>, names: seq<string>): seq<Target> {
    if names == [] then []
    else
      var n := |names| - 1;
      Closeables(unit, ports, names[..n])
      + (if names[n] in ports && ports[names[n]] then [Target(unit, names[n])] else [])
  }

  ghost function TargetsOf(unit: string, outputs: map<string, map<string, bool>>): seq<Target> {
    if unit in outputs then Closeables(unit, outputs[unit], Reverse(SortedKeys(outputs[unit].Keys))) else []
  }

  /** Units in reverse order, each unit's ports in descending order. */
  ghost function Targets(order: seq<string>, outputs: map<string, map<string, bool>>): seq<Target> {
    if order == [] then []
    else TargetsOf(order[|order| - 1], outputs) + Targets(order[..|order| - 1], outputs)
  }

  method UnitTargets(unit: string, ports: map<string, bool>) returns (targets: seq<Target>)
    ensures targets == Closeables(unit, ports, Reverse(SortedKeys(ports.Keys)))
  {
    var names := ListKeys(ports.Keys);
    names := Reverse(names);
    hide SortedKeys, Reverse;
    targets := [];
    for j := 0 to |names|
      invariant targets == Closeables(unit, ports, names[..j])
    {
      SliceSnoc(names, j);
      assert names[..j + 1][..j] == names[..j];
      if names[j] in ports && ports[names[j]] {
        targets := targets + [Target(unit, names[j])];
      }
    }
    assert names[..|names|] == names;
  }

  method CleanupTargets(order: seq<string>, outputs: map<string, map<string, bool>>) returns (targets: seq<Target>)
    ensures targets == Targets(order, outputs)
  {
    hide Targets, TargetsOf;
    targets := [];
    var i := |order|;
    assert order[..i] == order;
    while i > 0
      invariant 0 <= i <= |order| && targets + Targets(order[..i], outputs) == Targets(order, outputs)
      decreases i
    {
      i := i - 1;
      var unit := order[i];
      TargetsSnoc(order, i, outputs);
      if unit !in outputs || |outputs[unit]| == 0 {
        NoPorts(unit, outputs);
        continue;
      }
      var more := UnitTargets(unit, outputs[unit]);
      targets := targets + more;
      assert more == TargetsOf(unit, outputs) by { WithPorts(unit, outputs); }
    }
    assert Targets(order[..0], outputs) == [] by { NoTargets(outputs); }
  }

  lemma NoTargets(outputs: map<string, map<string, bool>>)
    ensures Targets([], outputs) == []
  {
  }

  lemma TargetsSnoc(order: seq<string>, i: nat, outputs: map<string, map<string, bool>>)
    requires i < |order|
    ensures Targets(order[..i + 1], outputs) == TargetsOf(order[i], outputs) + Targets(order[..i], outputs)
  {
    assert order[..i + 1][..i] == order[..i];
  }

  lemma WithPorts(unit: string, outputs: map<string, map<string, bool>>)
    requires unit in outputs
    ensures TargetsOf(unit, outputs) == Closeables(unit, outputs[unit], Reverse(SortedKeys(outputs[unit].Keys)))
  {
  }

  lemma NoPorts(unit: string, outputs: map<string, map<string, bool>>)
    requires unit !in outputs || |outputs[unit]| == 0
    ensures TargetsOf(unit, outputs) == []
  {
    if unit in outputs { assert outputs[unit].Keys == {}; }
  }

  function CloseEvents(targets: seq<Target>): seq<Event> {
    if targets == [] then []
    else CloseEvents(targets[..|targets| - 1]) + [Closed(targets[|targets| - 1].unit, targets[|targets| - 1].port)]
  }

  /** The ports of one unit among the targets. */
  function PortsAt(unit: string, targets: seq<Target>): seq<string> {
    if targets == [] then []
    else
      var n := |targets| - 1;
      PortsAt(unit, targets[..n]) + (if targets[n].unit == unit then [targets[n].port] else [])
  }

  /** Close failures are noted at the unit's result and change nothing else. */
  ghost predicate Noted(s: State, t: State, failed: seq<Target>) {
    && t.results.Keys == s.results.Keys
    && (forall u :: u in s.results ==>
          t.results[u] == s.results[u].(cleanup := s.results[u].cleanup + PortsAt(u, failed)))
  }

  function NoteFailure(results: map<string, UnitResult>, f: Target): map<string, UnitResult>
    requires f.unit in results
  {
    results[f.unit := results[f.unit].(cleanup := results[f.unit].cleanup + [f.port])]
  }

  lemma NotedMore(s: State, t: State, failed: seq<Target>, f: Target, t': State)
    requires Noted(s, t, failed) && f.unit in t.results && t'.results == NoteFailure(t.results, f)
    ensures Noted(s, t', failed + [f])
  {
    assert (failed + [f])[..|failed|] == failed;
    hide PortsAt;
    forall u | u in s.results
      ensures t'.results[u] == s.results[u].(cleanup := s.results[u].cleanup + PortsAt(u, failed + [f]))
    {
      PortsMore(u, failed, f);
    }
  }

  lemma PortsMore(u: string, failed: seq<Target>, f: Target)
    ensures PortsAt(u, failed + [f]) == PortsAt(u, failed) + (if f.unit == u then [f.port] else [])
  {
    assert (failed + [f])[..|failed|] == failed;
  }

  /** The outputs whose Close failed. */
  function Unclosed(answers: seq<Answer>): seq<Target> {
    if answers == [] then []
    else
      var n := |answers| - 1;
      var q := answers[n].query;
      Unclosed(answers[..n])
      + (if q.ToClose? && answers[n].choice.outcome.Failed? then [Target(q.unit, q.port)] else [])
  }

  lemma UnclosedMore(answers: seq<Answer>, a: Answer)
    ensures Unclosed(answers + [a])
            == Unclosed(answers)
               + (if a.query.ToClose? && a.choice.outcome.Failed? then [Target(a.query.unit, a.query.port)] else [])
  {
    assert (answers + [a])[..|answers|] == answers;
  }

  lemma {:induction false} NoneUnclosed(answers: seq<Answer>)
    requires forall i :: 0 <= i < |answers| ==> !answers[i].query.ToClose?
    ensures Unclosed(answers) == []
  {
    if answers != [] { NoneUnclosed(answers[..|answers| - 1]); }
  }

  /** Closing an output adds the call and its answer. */
  lemma AskClose(s: State, x: Target)
    requires Steady(s)
    ensures var query := ToClose(x.unit, x.port);
            && Ask(s, query) == s.(log := s.log + [Closed(x.unit, x.port)],
                                   asked := s.asked + [Answer(query, NextChoice(s), s.queue)])
            && Steady(Ask(s, query))
  {
    hide Steady, Later;
    AskSteady(s, ToClose(x.unit, x.port));
  }

  /** Every output due is closed once, in order; the failures are those of its answers, noted at the units' results. */
  method Cleanup(order: seq<string>, s: State) returns (t: State, failed: seq<Target>)
    requires Steady(s) && forall u :: u in s.outputs ==> u in s.results
    ensures t == s.(log := s.log + CloseEvents(Targets(order, s.outputs)), results := t.results, asked := t.asked)
    ensures Noted(s, t, failed) && Unclosed(t.asked) == Unclosed(s.asked) + failed
    ensures s.asked <= t.asked && forall i :: |s.asked| <= i < |t.asked| ==> t.asked[i].query.ToClose?
    ensures Steady(t)
  {
    var targets := CleanupTargets(order, s.outputs);
    TargetsHaveOutputs(order, s.outputs);
    hide Targets, CloseEvents, Noted, PortsAt, Steady, Ask, Unclosed, NextChoice;
    t, failed := s, [];
    NothingNoted(s);
    for i := 0 to |targets|
      invariant t == s.(log := s.log + CloseEvents(targets[..i]), results := t.results, asked := t.asked)
      invariant Noted(s, t, failed) && Unclosed(t.asked) == Unclosed(s.asked) + failed
      invariant s.asked <= t.asked && forall i :: |s.asked| <= i < |t.asked| ==> t.asked[i].query.ToClose?
      invariant Steady(t)
    {
      var target := targets[i];
      CloseMore(targets, i);
      var choice := NextChoice(t);
      ghost var before := t;
      AskClose(t, target);
      UnclosedMore(t.asked, Answer(ToClose(target.unit, target.port), choice, t.queue));
      t := Ask(t, ToClose(target.unit, target.port));
      NotedAgain(s, before, failed, t);
      if choice.outcome.Failed? {
        ghost var closed := t;
        ResultsSteady(t, NoteFailure(t.results, target));
        t := t.(results := NoteFailure(t.results, target));
        NotedMore(s, closed, failed, target, t);
        failed := failed + [target];
      }
    }
    assert targets[..|targets|] == targets;
  }

  lemma NothingNoted(s: State)
    ensures Noted(s, s, []) && CloseEvents([]) == []
  {
  }

  lemma CloseMore(targets: seq<Target>, i: nat)
    requires i < |targets|
    ensures CloseEvents(targets[..i + 1]) == CloseEvents(targets[..i]) + [Closed(targets[i].unit, targets[i].port)]
  {
    assert targets[..i + 1][..i] == targets[..i];
  }

  lemma NotedAgain(s: State, t: State, failed: seq<Target>, t': State)
    requires Noted(s, t, failed) && t'.results == t.results
    ensures Noted(s, t', failed) && t'.results.Keys == s.results.Keys
  {
  }

  lemma TargetsHaveOutputs(order: seq<string>, outputs: map<string, map<string, bool>>)
    ensures forall x :: x in Targets(order, outputs) ==> x.unit in outputs
  {
    forall x | x in Targets(order, outputs)
      ensures x.unit in outputs
    {
      TargetHasOutput(order, outputs, x);
    }
  }

  lemma {:induction false} CloseablesAre(unit: string, ports: map<string, bool>, names: seq<string>)
    requires Distinct(names)
    ensures forall x :: x in Closeables(unit, ports, names) <==>
                          x.unit == unit && x.port in names && x.port in ports && ports[x.port]
    ensures Distinct(Closeables(unit, ports, names))
  {
    if names != [] {
      var n := |names| - 1;
      CloseablesAre(unit, ports, names[..n]);
      assert names == names[..n] + [names[n]];
    }
  }

  lemma TargetsOfAre(unit: string, outputs: map<string, map<string, bool>>)
    ensures forall x :: x in TargetsOf(unit, outputs) <==>
                          x.unit == unit && unit in outputs && x.port in outputs[unit] && outputs[unit][x.port]
    ensures Distinct(TargetsOf(unit, outputs))
  {
    if unit in outputs {
      var names := SortedKeys(outputs[unit].Keys);
      SortedKeysSorted(outputs[unit].Keys);
      ReverseSame(names);
      CloseablesAre(unit, outputs[unit], Reverse(names));
    }
  }

  lemma ReverseSame(xs: seq<string>)
    requires Distinct(xs)
    ensures Distinct(Reverse(xs)) && forall x :: x in Reverse(xs) <==> x in xs
  {
    var r := Reverse(xs);
    hide Reverse;
    forall x
      ensures x in r <==> x in xs
    {
      if x in xs {
        var i :| 0 <= i < |xs| && xs[i] == x;
        assert r[|xs| - 1 - i] == x;
      }
    }
  }

  /**
    Cleanup closes each closeable output of the order's units exactly once, and
    nothing else.
   */
  lemma {:induction false} ClosedOnce(order: seq<string>, outputs: map<string, map<string, bool>>)
    requires Distinct(order)
    ensures Distinct(Targets(order, outputs))
    ensures forall x :: x in Targets(order, outputs) <==>
                          x.unit in order && x.unit in outputs && x.port in outputs[x.unit] && outputs[x.unit][x.port]
  {
    if order != [] {
      var n := |order| - 1;
      var own, rest := TargetsOf(order[n], outputs), Targets(order[..n], outputs);
      ClosedOnce(order[..n], outputs);
      TargetsOfAre(order[n], outputs);
      assert Targets(order, outputs) == own + rest;
      hide TargetsOf, Targets;
      assert order == order[..n] + [order[n]] && order[n] !in order[..n];
      DistinctJoin(own, rest);
    }
  }

  lemma DistinctJoin(a: seq<Target>, b: seq<Target>)
    requires Distinct(a) && Distinct(b) && forall x :: x in a ==> x !in b
    ensures Distinct(a + b)
  {
    forall i, j | 0 <= i < j < |a + b|
      ensures (a + b)[i] != (a + b)[j]
    {
      if i < |a| <= j { assert a[i] in a && b[j - |a|] in b; }
    }
  }

  lemma {:induction false} TargetHasOutput(order: seq<string>, outputs: map<string, map<string, bool>>, x: Target)
    requires x in Targets(order, outputs)
    ensures x.unit in outputs && x.unit in order
  {
    var n := |order| - 1;
    if x in TargetsOf(order[n], outputs) {
      TargetsOfAre(order[n], outputs);
    } else {
      TargetHasOutput(order[..n], outputs, x);
    }
  }

  /** A unit's outputs are closed before those of any unit that comes earlier in the order. */
  lemma {:induction false} LaterUnitsCloseFirst(order: seq<string>, outputs: map<string, map<string, bool>>,
                                                i: nat, j: nat, a: nat, b: nat)
    requires Distinct(order) && a < b < |order| && i < |Targets(order, outputs)| && j < |Targets(order, outputs)|
    requires Targets(order, outputs)[i].unit == order[b] && Targets(order, outputs)[j].unit == order[a]
    ensures i < j
    decreases |order|, 1
  {
    hide TargetsOf, Targets;
    var own, rest := TargetsOf(order[|order| - 1], outputs), Targets(order[..|order| - 1], outputs);
    TargetsLast(order, outputs);
    if j >= |own| && i >= |own| {
      LaterAmong(order, outputs, i - |own|, j - |own|, a, b);
    }
  }

  lemma TargetsLast(order: seq<string>, outputs: map<string, map<string, bool>>)
    requires order != []
    ensures var u := order[|order| - 1]; var own := TargetsOf(u, outputs);
            && Targets(order, outputs) == own + Targets(order[..|order| - 1], outputs)
            && forall k :: 0 <= k < |own| ==> own[k].unit == u
  {
    var own := TargetsOf(order[|order| - 1], outputs);
    TargetsOfAre(order[|order| - 1], outputs);
    hide TargetsOf;
    forall k | 0 <= k < |own|
      ensures own[k].unit == order[|order| - 1]
    {
      assert own[k] in own;
    }
  }

  lemma {:induction false} LaterAmong(order: seq<string>, outputs: map<string, map<string, bool>>,
                                      i: nat, j: nat, a: nat, b: nat)
    requires Distinct(order) && a < b < |order|
    requires var front := order[..|order| - 1];
             && i < |Targets(front, outputs)| && j < |Targets(front, outputs)|
             && Targets(front, outputs)[i].unit == order[b] && Targets(front, outputs)[j].unit == order[a]
    ensures i < j
    decreases |order|, 0
  {
    if b == |order| - 1 {
      NotAmong(order, outputs, i);
      assert false;
    } else {
      LaterUnitsCloseFirst(order[..|order| - 1], outputs, i, j, a, b);
    }
  }

  /** The names go down. */
  ghost predicate Descending(names: seq<string>) {
    forall p, q :: 0 <= p < q < |names| ==> AtMost(names[q], names[p]) && names[q] != names[p]
  }

  lemma {:induction false} CloseablesDescend(unit: string, ports: map<string, bool>, names: seq<string>, i: nat, j: nat)
    requires Descending(names) && i < j < |Closeables(unit, ports, names)|
    ensures var cs := Closeables(unit, ports, names); AtMost(cs[j].port, cs[i].port) && cs[j].port != cs[i].port
  {
    hide AtMost;
    var n := |names| - 1;
    var front := Closeables(unit, ports, names[..n]);
    if j < |front| {
      CloseablesDescend(unit, ports, names[..n], i, j);
    } else {
      CloseablesAre(unit, ports, names[..n]);
      assert front[i] in front;
      var p :| 0 <= p < n && names[p] == front[i].port;
    }
  }

  lemma SortedDescends(names: seq<string>)
    requires Sorted(names) && Distinct(names)
    ensures Descending(Reverse(names))
  {
    hide AtMost;
    var r := Reverse(names);
    forall p, q | 0 <= p < q < |r|
      ensures AtMost(r[q], r[p]) && r[q] != r[p]
    {
      assert r[q] == names[|names| - 1 - q] && r[p] == names[|names| - 1 - p];
    }
  }

  /** Among the outputs of one unit, those with greater names are closed first. */
  lemma {:induction false} GreaterPortsCloseFirst(order: seq<string>, outputs: map<string, map<string, bool>>, i: nat, j: nat)
    requires Distinct(order) && i < j < |Targets(order, outputs)|
    requires Targets(order, outputs)[i].unit == Targets(order, outputs)[j].unit
    ensures AtMost(Targets(order, outputs)[j].port, Targets(order, outputs)[i].port)
    ensures Targets(order, outputs)[j].port != Targets(order, outputs)[i].port
    decreases |order|
  {
    hide TargetsOf, Targets, AtMost, Distinct;
    TargetsOfSome(order, outputs);
    TargetsLast(order, outputs);
    var n := |order| - 1;
    var own, rest := TargetsOf(order[n], outputs), Targets(order[..n], outputs);
    if j < |own| {
      UnitDescends(order[n], outputs, i, j);
    } else {
      NotAmong(order, outputs, j - |own|);
      assert i >= |own|;
      GreaterPortsCloseFirst(order[..n], outputs, i - |own|, j - |own|);
    }
  }

  lemma TargetsOfSome(order: seq<string>, outputs: map<string, map<string, bool>>)
    requires Distinct(order) && Targets(order, outputs) != []
    ensures order != [] && Distinct(order[..|order| - 1])
  {
  }

  lemma UnitDescends(unit: string, outputs: map<string, map<string, bool>>, i: nat, j: nat)
    requires i < j < |TargetsOf(unit, outputs)|
    ensures var own := TargetsOf(unit, outputs); AtMost(own[j].port, own[i].port) && own[j].port != own[i].port
  {
    hide AtMost, Sorted, Distinct, SortedKeys, Reverse, Closeables;
    SortedKeysSorted(outputs[unit].Keys);
    SortedDescends(SortedKeys(outputs[unit].Keys));
    CloseablesDescend(unit, outputs[unit], Reverse(SortedKeys(outputs[unit].Keys)), i, j);
  }

  lemma NotAmong(order: seq<string>, outputs: map<string, map<string, bool>>, i: nat)
    requires Distinct(order) && order != [] && i < |Targets(order[..|order| - 1], outputs)|
    ensures Targets(order[..|order| - 1], outputs)[i].unit != order[|order| - 1]
  {
    var front := order[..|order| - 1];
    TargetHasOutput(front, outputs, Targets(front, outputs)[i]);
  }
}
