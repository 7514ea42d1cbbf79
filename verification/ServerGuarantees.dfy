/**
  What every run of the plugin server guarantees, whatever the host sends, the
  tasks do and the pipe does.
 */
module ServerGuarantees {
  import opened Wire
  import Utf8
  import opened ServerTasks
  import opened ServerMachine

  /** The server after any run. */
  function Reached(steps: seq<Step>): Server {
    Exec(INIT, steps)
  }

  lemma ReachedInv(steps: seq<Step>)
    ensures Inv(Reached(steps))
  {
    InitInv();
    ExecKeeps(INIT, steps);
  }

  /**
    The terminal event of a task is attempted at most once and carries the first
    observation; by the time the record is gone, it has been attempted if and
    only if some receiver took something from Done.
   */
  lemma TerminalEventOnce(steps: seq<Step>, id: TaskId)
    requires id in Reached(steps).lives
    ensures var l := Reached(steps).lives[id];
            && (l.announced == [] || (l.consumed && l.seen != [] && l.announced == [l.seen[0]]))
            && (!l.listed ==> (l.consumed <==> l.announced != []))
  {
    ReachedInv(steps);
    assert TaskOk(Reached(steps).lives[id], Reached(steps).handler, id);
  }

  /** Every event frame in the stream is that one event, and follows the task's StartResponse. */
  lemma EventFollowsStart(steps: seq<Step>, k: nat)
    requires k < |Reached(steps).out| && Reached(steps).out[k].body.Event?
    ensures var s := Reached(steps); var b := s.out[k].body;
            && b.task in s.lives
            && var l := s.lives[b.task];
               && l.eventAt == Place(k)
               && l.seen != [] && b.cause == l.seen[0] && s.out[k].req == l.owner
               && l.startAt.Place? && l.startAt.k < k
               && s.out[l.startAt.k] == Frame(l.owner, StartResponse(b.task))
  {
    var s := Reached(steps);
    ReachedInv(steps);
    assert FrameLife(s, s.out[k], k);
    assert TaskOk(s.lives[s.out[k].body.task], s.handler, s.out[k].body.task);
    assert PlaceOk(s.lives[s.out[k].body.task], s.out[k].body.task, s.out, s.stops, s.broken);
  }

  /** An event attempted on a working pipe is in the stream, exactly if its error text can be marshalled. */
  lemma AnnouncedIsWritten(steps: seq<Step>, id: TaskId)
    requires id in Reached(steps).lives && !Reached(steps).broken && Reached(steps).lives[id].announced != []
    ensures var s := Reached(steps); var l := s.lives[id];
            && l.seen != []
            && (l.eventAt.Place? <==> l.seen[0].Clean? || Utf8.Valid(l.seen[0].text))
            && (l.eventAt.Place? ==> l.eventAt.k < |s.out| && s.out[l.eventAt.k] == Frame(l.owner, Event(id, l.seen[0])))
            && ((exists k :: 0 <= k < |s.out| && s.out[k].body.Event? && s.out[k].body.task == id)
                <==> l.seen[0].Clean? || Utf8.Valid(l.seen[0].text))
  {
    hide Inv, Reached;
    var s := Reached(steps);
    ReachedInv(steps);
    EventPlace(s, id);
    if Marshals(s.lives[id].seen[0]) {
      assert s.out[s.lives[id].eventAt.k].body.task == id;
    }
    forall k | 0 <= k < |s.out| && s.out[k].body.Event? && s.out[k].body.task == id
      ensures s.lives[id].eventAt.Place?
    {
      EventFrame(s, id, k);
    }
  }

  lemma EventPlace(s: Server, id: TaskId)
    requires Inv(s) && id in s.lives && !s.broken && s.lives[id].announced != []
    ensures var l := s.lives[id];
            && l.seen != [] && (l.eventAt.Place? <==> Marshals(l.seen[0]))
            && (l.eventAt.Place? ==> l.eventAt.k < |s.out| && s.out[l.eventAt.k] == Frame(l.owner, Event(id, l.seen[0])))
  {
    assert TaskOk(s.lives[id], s.handler, id) && PlaceOk(s.lives[id], id, s.out, s.stops, s.broken);
    hide Marshals, Ids, HandlerOk, RepliesOk, Kinds, Frames, Tasks, Places;
  }

  lemma EventFrame(s: Server, id: TaskId, k: nat)
    requires Inv(s) && id in s.lives && k < |s.out| && s.out[k].body.Event? && s.out[k].body.task == id
    ensures s.lives[id].eventAt == Place(k)
  {
    assert FrameLife(s, s.out[k], k);
  }

  ghost predicate Untouched(l: Life, l': Life) {
    !l'.listed && l'.seen == l.seen && l'.announced == l.announced && l'.eventAt == l.eventAt
  }

  /** A deleted record stays deleted, and nothing is observed or announced for it any more. */
  lemma {:induction false} DeletedStays(s: Server, steps: seq<Step>, id: TaskId)
    requires Inv(s) && id in s.lives && !s.lives[id].listed
    ensures id in Exec(s, steps).lives && Untouched(s.lives[id], Exec(s, steps).lives[id])
    decreases |steps|
  {
    if steps != [] {
      DeletedStep(s, steps[0], id);
      NextKeeps(s, steps[0]);
      DeletedStays(Next(s, steps[0]), steps[1..], id);
    }
  }

  lemma DeletedStop(l: Life, h: Handler, id: TaskId, n: nat, broken: bool, a: StopStep)
    requires TaskOk(l, h, id) && !l.listed && h.id == id
    ensures StopAct(l, h, n, broken, a).life.(record := l.record) == l
  {
  }

  lemma DeletedClose(l: Life, h: Handler, id: TaskId, n: nat, broken: bool, a: CloseStep)
    requires TaskOk(l, h, id) && !l.listed && h.id == id
    ensures CloseAct(l, h, n, broken, a).life == l
  {
  }

  lemma DeletedMonitor(l: Life, h: Handler, id: TaskId, n: nat, broken: bool, a: MonitorStep)
    requires TaskOk(l, h, id) && !l.listed
    ensures MonitorAct(l, id, n, broken, a).0 == l
  {
  }

  lemma DeletedStart(s: Server, a: StartStep, id: TaskId)
    requires Ids(s) && id in s.lives && TaskOk(s.lives[id], s.handler, id) && !s.lives[id].listed
    ensures id in StartNext(s, a).lives && StartNext(s, a).lives[id] == s.lives[id]
  {
    match a
    case Read(r) => hide StoreTask, WriteError, Apply, TaskOk;
    case WriteStarted => hide StoreTask, WriteError, ReadRequest;
    case _ => hide ReadRequest, Apply, TaskOk;
  }

  lemma ApplyAt(s: Server, i: TaskId, e: Effect, id: TaskId)
    requires id in s.lives
    ensures id in Apply(s, i, e).lives && Apply(s, i, e).lives[id] == (if i == id then e.life else s.lives[id])
  {
  }

  lemma DeletedStep(s: Server, step: Step, id: TaskId)
    requires Ids(s) && Tasks(s) && id in s.lives && !s.lives[id].listed
    ensures id in Next(s, step).lives && Untouched(s.lives[id], Next(s, step).lives[id])
  {
    hide StartNext, StopAct, CloseAct, MonitorAct, TaskOk, Ids, Apply, DoneAct;
    var l, h, n := s.lives[id], s.handler, |s.out|;
    assert TaskOk(l, h, id);
    match step
    case Start(a) => DeletedStart(s, a, id);
    case Stop(a) =>
      if h.id in s.lives { ApplyAt(s, h.id, StopAct(s.lives[h.id], h, n, s.broken, a), id); }
      if h.id == id { DeletedStop(l, h, id, n, s.broken, a); }
    case Close(a) =>
      if h.id in s.lives { ApplyAt(s, h.id, CloseAct(s.lives[h.id], h, n, s.broken, a), id); }
      if h.id == id { DeletedClose(l, h, id, n, s.broken, a); }
    case Monitoring(i, a) =>
      if i in s.lives {
        var (l', fs) := MonitorAct(s.lives[i], i, n, s.broken, a);
        ApplyAt(s, i, Effect(l', h, fs), id);
      }
      if i == id { DeletedMonitor(l, h, id, n, s.broken, a); }
    case Done(i, a) =>
      if i in s.lives { ApplyAt(s, i, Effect(DoneAct(s.lives[i], a), h, []), id); }
      DeletedDone(l, a);
    case _ =>
  }

  lemma DeletedDone(l: Life, a: DoneStep)
    ensures DoneAct(l, a).(chan := l.chan) == l
  {
  }

  function FlushCount(bodies: seq<Body>): nat {
    if bodies == [] then 0
    else FlushCount(bodies[..|bodies| - 1]) + (if bodies[|bodies| - 1].MetricFlush? then 1 else 0)
  }

  /** With a single flush position there is a single flush frame. */
  lemma {:induction false} CountFlushes(s: Server, id: TaskId, n: nat)
    requires Inv(s) && id in s.lives && n <= |s.out|
    ensures FlushCount(Published(s.out[..n], s.lives[id].owner))
         == (if s.lives[id].flushAt.Place? && s.lives[id].flushAt.k < n then 1 else 0)
  {
    hide Inv, Published, FlushCount;
    var l := s.lives[id];
    if n == 0 {
      assert s.out[..n] == [];
      NoFlushes(l.owner);
    } else {
      var f := s.out[n - 1];
      CountFlushes(s, id, n - 1);
      assert s.out[..n] == s.out[..n - 1] + [f];
      PublishedSnoc(s.out[..n - 1], f, l.owner);
      FlushMore(Published(s.out[..n - 1], l.owner), f.body);
      assert Published(s.out[..n - 1], l.owner) + [] == Published(s.out[..n - 1], l.owner);
      FlushPlace(s, id, n - 1);
    }
  }

  lemma NoFlushes(req: ReqId)
    ensures FlushCount(Published([], req)) == 0
  {
  }

  lemma FlushMore(bodies: seq<Body>, b: Body)
    ensures FlushCount(bodies + [b]) == FlushCount(bodies) + (if b.MetricFlush? then 1 else 0)
  {
    assert (bodies + [b])[..|bodies|] == bodies;
  }

  lemma FlushPlace(s: Server, id: TaskId, k: nat)
    requires Inv(s) && id in s.lives && k < |s.out|
    ensures s.lives[id].flushAt == Place(k) <==>
              s.out[k].req == s.lives[id].owner && s.out[k].body.MetricFlush?
  {
    assert FrameLife(s, s.out[k], k) && PlaceOk(s.lives[id], id, s.out, s.stops, s.broken);
  }

  /**
    However many stop attempts a task went through, its metrics are flushed at
    most once; and its StopResponse is out only after they were flushed, unless
    it had none. Nothing is published for it after the StopResponse.
   */
  lemma FlushedOnce(steps: seq<Step>, id: TaskId)
    requires id in Reached(steps).lives
    ensures var s := Reached(steps); var l := s.lives[id];
            && FlushCount(Published(s.out, l.owner)) <= 1
            && (l.stopAt.Place? ==>
                  && FlushCount(Published(s.out, l.owner)) == (if l.metricless then 0 else 1)
                  && forall k :: 0 <= k < |s.out| && s.out[k].req == l.owner && Publishes(s.out[k].body) ==>
                       k < l.stopAt.k)
  {
    var s := Reached(steps);
    ReachedInv(steps);
    CountFlushes(s, id, |s.out|);
    assert s.out[..|s.out|] == s.out;
    FlushBeforeStop(s, id);
    hide FlushCount, Inv, Reached;
    forall k | 0 <= k < |s.out| && s.out[k].req == s.lives[id].owner && Publishes(s.out[k].body)
      ensures s.lives[id].stopAt.Place? ==> k < s.lives[id].stopAt.k
    {
      PublishedBeforeStop(s, id, k);
    }
  }

  lemma FlushBeforeStop(s: Server, id: TaskId)
    requires Inv(s) && id in s.lives
    ensures var l := s.lives[id];
            && (l.flushAt.Place? ==> l.flushAt.k < |s.out|)
            && (l.stopAt.Place? ==> (l.metricless <==> l.flushAt.Never?))
  {
    assert TaskOk(s.lives[id], s.handler, id) && PlaceOk(s.lives[id], id, s.out, s.stops, s.broken);
  }

  lemma PublishedBeforeStop(s: Server, id: TaskId, k: nat)
    requires Inv(s) && id in s.lives && k < |s.out|
    requires s.out[k].req == s.lives[id].owner && Publishes(s.out[k].body)
    ensures s.lives[id].stopAt.Place? ==> k < s.lives[id].stopAt.k
  {
    assert FrameLife(s, s.out[k], k);
  }

  /**
    A stop request gets at most one frame. CONFIG_ERROR is the answer only when
    the task was never issued, or an earlier stop request already got its
    StopResponse.
   */
  lemma RefusedOnlyWhenGone(steps: seq<Step>, req: ReqId, k: nat)
    requires req in Reached(steps).stops && k < |Reached(steps).out| && Reached(steps).out[k].req == req
    ensures var s := Reached(steps);
            && (forall j :: 0 <= j < |s.out| && s.out[j].req == req ==> j == k)
            && (s.out[k].body == Error(ConfigError) && req !in s.strangers ==>
                  exists j :: 0 <= j < k && s.out[j].body.StopResponse?
                              && s.out[j].req in s.stops && s.stops[s.out[j].req] == s.stops[req])
  {
    var s := Reached(steps);
    ReachedInv(steps);
    forall j | 0 <= j < |s.out| && s.out[j].req == req
      ensures j == k
    {
      assert FrameKind(s, s.out[j], j) && FrameKind(s, s.out[k], k);
    }
    if s.out[k].body == Error(ConfigError) && req !in s.strangers {
      assert FrameLife(s, s.out[k], k);
      var id := s.stops[req];
      assert PlaceOk(s.lives[id], id, s.out, s.stops, s.broken);
    }
  }

  /** What an effect does to the task table. */
  lemma ApplyOnTable(s: Server, id: TaskId, e: Effect, f: Record -> Record)
    requires id in s.lives && (e.life.listed ==> s.lives[id].listed)
    requires s.lives[id].listed && e.life.listed ==> e.life.record == f(s.lives[id].record)
    ensures TableOf(Apply(s, id, e))
         == if s.lives[id].listed && !e.life.listed then Remove(TableOf(s), id) else Update(TableOf(s), id, f)
  {
    var t := Apply(s, id, e);
    assert t.next == s.next && t.lives == s.lives[id := e.life];
    hide Apply;
  }

  /**
    The steps of the machine change the task table exactly as the server
    object's methods do: every critical section is one of them.
   */
  lemma StopSectionsOnTable(s: Server, a: StopStep)
    requires s.handler.id in s.lives
    ensures TableOf(Next(s, Stop(a)))
         == if a.Abort? && (s.handler.pc.Aborting? || s.handler.pc.Failing?)
            then Update(TableOf(s), s.handler.id, r => MarkStopping(r, false))
            else TableOf(s)
  {
    hide Apply, MarkStopping;
    var e := StopAct(s.lives[s.handler.id], s.handler, |s.out|, s.broken, a);
    if a.Abort? && (s.handler.pc.Aborting? || s.handler.pc.Failing?) {
      ApplyOnTable(s, s.handler.id, e, r => MarkStopping(r, false));
    } else {
      ApplyOnTable(s, s.handler.id, e, r => r);
    }
  }

  lemma CloseSectionsOnTable(s: Server, a: CloseStep)
    requires s.handler.id in s.lives
    ensures TableOf(Next(s, Close(a)))
         == if a.DrainObserve? && s.handler.pc.Drained?
            then Update(TableOf(s), s.handler.id, r => ObserveRecord(r, s.handler.err))
            else if a.Decide? && s.handler.pc.Deciding? then Update(TableOf(s), s.handler.id, ClaimRecord)
            else if a.Halt? && s.handler.pc.Halting? then Update(TableOf(s), s.handler.id, HaltRecord)
            else if a.Forget? && s.handler.pc.Removing? then Remove(TableOf(s), s.handler.id)
            else TableOf(s)
  {
    hide CloseAct, Apply, ObserveRecord, ClaimRecord, HaltRecord;
    var id, h := s.handler.id, s.handler;
    CloseActRecord(s.lives[id], h, |s.out|, s.broken, a);
    var e := CloseAct(s.lives[id], h, |s.out|, s.broken, a);
    if a.DrainObserve? && h.pc.Drained? {
      ApplyOnTable(s, id, e, r => ObserveRecord(r, h.err));
    } else if a.Decide? && h.pc.Deciding? {
      ApplyOnTable(s, id, e, ClaimRecord);
    } else if a.Halt? && h.pc.Halting? {
      ApplyOnTable(s, id, e, HaltRecord);
    } else {
      ApplyOnTable(s, id, e, r => r);
    }
  }

  lemma CloseActRecord(l: Life, h: Handler, n: nat, broken: bool, a: CloseStep)
    ensures var l' := CloseAct(l, h, n, broken, a).life;
            && l'.listed == (l.listed && !(a.Forget? && h.pc.Removing?))
            && (l'.listed ==>
                  l'.record == (if a.DrainObserve? && h.pc.Drained? then ObserveRecord(l.record, h.err)
                                else if a.Decide? && h.pc.Deciding? then ClaimRecord(l.record)
                                else if a.Halt? && h.pc.Halting? then HaltRecord(l.record)
                                else l.record))
  {
  }

  lemma MonitorSectionsOnTable(s: Server, id: TaskId, a: MonitorStep)
    requires id in s.lives
    ensures TableOf(Next(s, Monitoring(id, a)))
         == if a.MonitorObserve? && s.lives[id].monitor.Consumed?
            then Update(TableOf(s), id, r => ObserveRecord(r, s.lives[id].carried))
            else if a.MonitorDecide? && s.lives[id].monitor.Claiming? then Update(TableOf(s), id, ClaimRecord)
            else TableOf(s)
  {
    var l := s.lives[id];
    MonitorActRecord(l, id, |s.out|, s.broken, a);
    hide MonitorAct, Apply, ObserveRecord, ClaimRecord;
    var (l', fs) := MonitorAct(l, id, |s.out|, s.broken, a);
    var e := Effect(l', s.handler, fs);
    if a.MonitorObserve? && l.monitor.Consumed? {
      ApplyOnTable(s, id, e, r => ObserveRecord(r, l.carried));
    } else if a.MonitorDecide? && l.monitor.Claiming? {
      ApplyOnTable(s, id, e, ClaimRecord);
    } else {
      ApplyOnTable(s, id, e, r => r);
    }
  }

  lemma MonitorActRecord(l: Life, id: TaskId, n: nat, broken: bool, a: MonitorStep)
    ensures var l' := MonitorAct(l, id, n, broken, a).0;
            && l'.listed == l.listed
            && (l.listed ==>
                  l'.record == (if a.MonitorObserve? && l.monitor.Consumed? then ObserveRecord(l.record, l.carried)
                                else if a.MonitorDecide? && l.monitor.Claiming? then ClaimRecord(l.record)
                                else l.record))
  {
  }

  lemma StoreOnTable(s: Server)
    requires Ids(s)
    ensures TableOf(StoreTask(s)) == Store(TableOf(s), s.handler.req)
  {
  }

  lemma BeginStopOnTable(s: Server, req: ReqId, id: TaskId)
    ensures var t := ReadRequest(s, StopRequest(req, id));
            t == s || TableOf(t) == Update(TableOf(s), id, r => MarkStopping(r, true))
  {
    var t := ReadRequest(s, StopRequest(req, id));
    if t != s {
      BeginStopLives(s, req, id);
      hide ReadRequest, MarkStopping;
    }
  }

  lemma BeginStopLives(s: Server, req: ReqId, id: TaskId)
    ensures var t := ReadRequest(s, StopRequest(req, id));
            t == s
            || (t.next == s.next
                && t.lives == if id in s.lives && s.lives[id].listed
                              then s.lives[id := s.lives[id].(record := MarkStopping(s.lives[id].record, true))]
                              else s.lives)
  {
    hide MarkStopping;
  }

  lemma StartSectionsOnTable(s: Server, a: StartStep)
    requires Ids(s)
    ensures TableOf(StartNext(s, a))
         == if a.StartSucceeds? && s.handler.pc.InStart? then Store(TableOf(s), s.handler.req)
            else if a.Read? && a.request.StopRequest? && StartNext(s, a) != s
            then Update(TableOf(s), a.request.task, r => MarkStopping(r, true))
            else TableOf(s)
  {
    var id := s.handler.id;
    match a
    case Read(StopRequest(req, i)) =>
      hide TableOf, ReadRequest, Update;
      BeginStopOnTable(s, req, i);
    case StartSucceeds =>
      hide TableOf, StoreTask, Store;
      StoreOnTable(s);
    case WriteStarted =>
      if s.handler.pc.Started? && id in s.lives {
        ApplyOnTable(s, id, StartedAct(s.lives[id], s.handler, |s.out|, s.broken), r => r);
      }
    case _ =>
  }

  /** Once the Serve loop meets the end of its input it reads no more requests. */
  lemma {:induction false} NothingReadAfterEof(s: Server, steps: seq<Step>)
    requires s.handler.pc.Idle?
    ensures Exec(Next(s, Start(Eof)), steps).got == s.got
  {
    DeadReadsNothing(Next(s, Start(Eof)), steps);
    hide Exec;
  }

  lemma {:induction false} DeadReadsNothing(s: Server, steps: seq<Step>)
    requires s.handler.pc.Dead?
    ensures Exec(s, steps).got == s.got
    decreases |steps|
  {
    if steps != [] {
      StaysDead(s, steps[0]);
      hide Next;
      DeadReadsNothing(Next(s, steps[0]), steps[1..]);
    }
  }

  lemma StaysDead(s: Server, step: Step)
    requires s.handler.pc.Dead?
    ensures Next(s, step).handler.pc.Dead? && Next(s, step).got == s.got
  {
    hide Observed, Take, WriteEvent, MarkStopping, DoneAct, NewLife;
  }
}
