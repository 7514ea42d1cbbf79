/**
  What every run of the host client guarantees, whatever frames the plugin sends
  and whenever contexts end, the pipe breaks or the environment refuses a frame.
 */
module HostGuarantees {
  import opened Outcomes
  import opened Wire
  import opened HostTables
  import opened HostMachine

  /** The host after any run. */
  function Reached(steps: seq<Step>): Host {
    Exec(INIT, steps)
  }

  lemma ReachedInv(steps: seq<Step>)
    ensures Inv(Reached(steps))
  {
    InitInv();
    ExecKeeps(INIT, steps);
  }

  /** Request ids are never reused, on the wire or between calls. */
  lemma RequestIdsDistinct(steps: seq<Step>, j: nat, k: nat)
    requires j < k < |Reached(steps).sent|
    ensures Reached(steps).sent[j].req != Reached(steps).sent[k].req
  {
    ReachedInv(steps);
    assert SentOk(Reached(steps));
  }

  /**
    What a call has consumed is a prefix of the frames addressed to it since it
    was registered; what it still has queued continues that prefix.
   */
  lemma NoGaps(steps: seq<Step>, r: ReqId)
    requires r in Reached(steps).calls
    ensures var s := Reached(steps); var c := s.calls[r];
            && c.since <= |s.stream|
            && c.taken <= Addressed(s.stream, c.since, r)
            && c.taken + Frames(c.box.queue) <= Addressed(s.stream, c.since, r)
            && (c.box.registered && s.pump.pc.Reading? ==>
                  c.taken + Frames(c.box.queue) == Addressed(s.stream, c.since, r))
  {
    hide Inv, Reached, BoxOk, Addressed, Frames;
    ReachedInv(steps);
    var s := Reached(steps);
    InvBox(s, r);
    BoxFacts(s.calls[r], r, s.stream, s.pump, s.failed);
  }

  /**
    A call that ended with the closed error had its waiter closed, and had consumed
    every frame that was ever queued for it before it met that error.
   */
  lemma ClosedErrorComesLast(steps: seq<Step>, r: ReqId)
    requires r in Reached(steps).calls && Reached(steps).calls[r].result.ClosedOut?
    ensures var s := Reached(steps); var c := s.calls[r];
            && c.box.closed && s.failed
            && c.atClose <= c.box.queued && c.taken == Frames(c.atClose)
            && c.taken <= Addressed(s.stream, c.since, r)
  {
    hide Inv, Reached, BoxOk, Addressed, Frames;
    ReachedInv(steps);
    var s := Reached(steps);
    InvBox(s, r);
    InvClosed(s, r);
    BoxFacts(s.calls[r], r, s.stream, s.pump, s.failed);
  }

  lemma InvClosed(s: Host, r: ReqId)
    requires Inv(s) && r in s.calls && s.calls[r].result.ClosedOut?
    ensures QueuedOk(s.calls[r]) && s.calls[r].box.closed && s.failed
  {
    hide Links, Tasks, SentOk, NamesOk, NoOverlap, PumpOk, BoxOk, Frames;
    assert CallOk(s.calls[r], r, s.stream, s.pump, s.failed);
  }

  lemma InvBox(s: Host, r: ReqId)
    requires Inv(s) && r in s.calls
    ensures BoxOk(s.calls[r], r, s.stream, s.pump, s.failed)
  {
    assert CallOk(s.calls[r], r, s.stream, s.pump, s.failed);
  }

  lemma BoxFacts(c: Call, r: ReqId, stream: seq<Frame>, p: Pump, failed: bool)
    requires BoxOk(c, r, stream, p, failed)
    ensures c.since <= |stream| && c.taken <= Addressed(stream, c.since, r)
    ensures c.taken + Frames(c.box.queue) <= Addressed(stream, c.since, r)
    ensures c.box.registered && p.pc.Reading? ==> c.taken + Frames(c.box.queue) == Addressed(stream, c.since, r)
  {
    hide Addressed, Frames;
    var held := c.taken + Frames(c.box.queue);
    assert held <= held + Handing(p, r);
    if p.pc.Reading? { assert held + Handing(p, r) == held; }
  }

  /**
    Done yields exactly the first cause offered, by an event, a Stop, a failed
    Start or the read loop, and is closed with it; a completed task is in neither
    bgStarts nor bgTasks.
   */
  lemma DoneOnce(steps: seq<Step>, h: ReqId)
    requires h in Reached(steps).tasks
    ensures var s := Reached(steps); var t := s.tasks[h];
            && t.done == (if t.offers == [] then [] else [t.offers[0]])
            && t.closes == |t.done|
            && (t.completed ==> !t.listed && forall id :: id in s.names ==> s.names[id] != h)
  {
    ReachedInv(steps);
    var s := Reached(steps);
    assert TaskOk(s.tasks[h], h, s.stream, s.pump);
  }

  // ------------------------------------------------- what runs never take back

  ghost predicate Later(t: Task, t': Task) {
    && t.offers <= t'.offers
    && t.done <= t'.done
    && t.applied <= t'.applied
    && (t.completed ==> t'.completed)
    && (t.rejected ==> t'.rejected) && (t.lost ==> t'.lost)
  }

  lemma LaterItself(t: Task)
    ensures Later(t, t)
  {
  }

  lemma TaskActLater(t: Task, c: Call, a: CallStep)
    ensures Later(t, TaskAct(t, c, a))
  {
    hide Publishes, LastTaken;
  }

  lemma CallStepLater(s: Host, r: ReqId, a: CallStep, h: ReqId)
    requires h in s.tasks && r in s.calls && LinkOk(s, r) && PcOk(s.calls[r], s.failed)
    ensures h in CallNext(s, r, a).tasks && Later(s.tasks[h], CallNext(s, r, a).tasks[h])
  {
    TaskActLater(s.tasks[h], s.calls[r], a);
    LaterItself(s.tasks[h]);
    assert s.calls[r].pc.Enlisting? ==> r != h;
    hide CallAct, TaskAct, NamesAfter, SentBy, Later, PcOk, LinkOk;
  }

  /** What the read loop does to a task is one of these. */
  ghost predicate Touch(t: Task, t': Task) {
    || t' == t
    || t' == CleanTask(t)
    || (exists cause :: t' == CompleteTask(t, cause))
    || (exists bodies :: t' == t.(applied := t.applied + bodies))
    || t' == t.(rejected := true)
    || t' == t.(lost := true)
    || t' == t.(strayed := true)
  }

  lemma TouchLater(t: Task, t': Task)
    requires Touch(t, t')
    ensures Later(t, t')
  {
    hide Later, CompleteTask;
    LaterItself(t);
    if cause :| t' == CompleteTask(t, cause) {
      CompletedLater(t, cause);
    } else if bodies :| t' == t.(applied := t.applied + bodies) {
      AppliedLater(t, bodies);
    } else {
      MarkedLater(t, t');
    }
  }

  lemma CompletedLater(t: Task, cause: Outcome)
    ensures Later(t, CompleteTask(t, cause))
  {
  }

  lemma AppliedLater(t: Task, bodies: seq<Body>)
    ensures Later(t, t.(applied := t.applied + bodies))
  {
  }

  lemma MarkedLater(t: Task, t': Task)
    requires t' == t || t' == CleanTask(t)
             || t' == t.(rejected := true) || t' == t.(lost := true) || t' == t.(strayed := true)
    ensures Later(t, t')
  {
  }

  lemma ReadTouches(s: Host, f: Frame, h: ReqId)
    requires h in s.tasks
    ensures h in ReadFrame(s, f).tasks && Touch(s.tasks[h], ReadFrame(s, f).tasks[h])
  {
    hide RouteOf, ReadPump;
  }

  lemma ApplyTouches(s: Host, ok: bool, h: ReqId)
    requires h in s.tasks
    ensures h in ApplyPending(s, ok).tasks && Touch(s.tasks[h], ApplyPending(s, ok).tasks[h])
  {
    var b := s.pump.frame.body;
    assert s.tasks[h].(applied := s.tasks[h].applied + [b]).applied == s.tasks[h].applied + [b];
  }

  lemma HeadTouches(s: Host, h: ReqId)
    requires h in s.tasks
    ensures h in CleanHead(s).tasks && Touch(s.tasks[h], CleanHead(s).tasks[h])
    ensures h in CompleteHead(s).tasks && Touch(s.tasks[h], CompleteHead(s).tasks[h])
    ensures h in SettleTask(s).tasks && Touch(s.tasks[h], SettleTask(s).tasks[h])
  {
    hide CleanTask, CompleteTask, NameOut, NextTodo;
  }

  lemma OtherTouches(s: Host, a: PumpStep)
    requires a.ReadError? || a.DeliverIt? || a.FailWaiters? || a.Collect?
    ensures PumpNext(s, a).tasks == s.tasks
  {
    hide Deliver, Lists, NextTodo, FailAll;
  }

  lemma PumpStepTouches(s: Host, a: PumpStep, h: ReqId)
    requires h in s.tasks
    ensures h in PumpNext(s, a).tasks && Touch(s.tasks[h], PumpNext(s, a).tasks[h])
  {
    assert Touch(s.tasks[h], s.tasks[h]);
    hide Touch, ReadFrame, GiveUp, DeliverFrame, SettleTask, ApplyPending, CollectTasks, CleanHead, CompleteHead;
    match a
    case Read(f) => ReadTouches(s, f, h);
    case ApplyIt(ok) => ApplyTouches(s, ok, h);
    case Settle => HeadTouches(s, h);
    case CleanNext => HeadTouches(s, h);
    case CompleteNext => HeadTouches(s, h);
    case _ => OtherTouches(s, a);
  }

  lemma StepLater(s: Host, step: Step, h: ReqId)
    requires Inv(s) && h in s.tasks
    ensures h in Next(s, step).tasks && Later(s.tasks[h], Next(s, step).tasks[h])
  {
    hide LinkOk, CallNext, PumpNext, Idle, Later, Touch, BoxOk, Tasks, SentOk, NamesOk, NoOverlap, PumpOk;
    LaterItself(s.tasks[h]);
    match step
    case Calling(r, a) =>
      if r in s.calls {
        assert CallOk(s.calls[r], r, s.stream, s.pump, s.failed);
        CallStepLater(s, r, a, h);
      } else {
        assert CallNext(s, r, a) == s by { UnknownCall(s, r, a); }
      }
    case Pumping(a) =>
      PumpStepTouches(s, a, h);
      TouchLater(s.tasks[h], PumpNext(s, a).tasks[h]);
    case _ =>
  }

  lemma UnknownCall(s: Host, r: ReqId, a: CallStep)
    requires r !in s.calls
    ensures CallNext(s, r, a) == s
  {
  }

  lemma LaterThen(t: Task, t': Task, t'': Task)
    requires Later(t, t') && Later(t', t'')
    ensures Later(t, t'')
  {
  }

  lemma {:induction false} RunLater(s: Host, steps: seq<Step>, h: ReqId)
    requires Inv(s) && h in s.tasks
    ensures h in Exec(s, steps).tasks && Later(s.tasks[h], Exec(s, steps).tasks[h])
    decreases |steps|
  {
    hide Inv, Next, Later;
    LaterItself(s.tasks[h]);
    if steps != [] {
      StepLater(s, steps[0], h);
      NextKeeps(s, steps[0]);
      RunLater(Next(s, steps[0]), steps[1..], h);
      LaterThen(s.tasks[h], Next(s, steps[0]).tasks[h], Exec(s, steps).tasks[h]);
    }
  }

  /** Whatever happens afterwards, the cause Done carries is settled by the first offer. */
  lemma DoneSettled(steps: seq<Step>, more: seq<Step>, h: ReqId)
    requires h in Reached(steps).tasks && Reached(steps).tasks[h].done != []
    ensures var t := Exec(Reached(steps), more).tasks;
            h in t && t[h].done == Reached(steps).tasks[h].done && t[h].closes == 1
  {
    ReachedInv(steps);
    RunLater(Reached(steps), more, h);
    ExecKeeps(Reached(steps), more);
    var s, t := Reached(steps), Exec(Reached(steps), more);
    assert TaskOk(s.tasks[h], h, s.stream, s.pump);
    assert TaskOk(t.tasks[h], h, t.stream, t.pump);
  }

  lemma SettleLeaves(s: Host, f: Frame)
    requires s.pump.pc.Settling? && s.pump.req in s.tasks && TaskOk(s.tasks[s.pump.req], s.pump.req, s.stream, s.pump)
    ensures var t := SettleTask(s); var h := s.pump.req;
            && h in t.tasks && t.tasks[h].done != [] && t.tasks[h].listed == s.tasks[h].listed
            && t.names == s.names
            && RouteOf(t, f) == RouteOf(s, f)
  {
    hide Published;
  }

  lemma SettlingTask(s: Host)
    requires Inv(s) && s.pump.pc.Settling?
    ensures s.pump.req in s.tasks && TaskOk(s.tasks[s.pump.req], s.pump.req, s.stream, s.pump)
  {
    hide TaskOk, Calls, Links, SentOk, NamesOk, NoOverlap;
  }

  /**
    A terminal event settles Done but leaves the task listed, and under its id:
    whatever frame arrives later goes where it would have gone without the event.
   */
  lemma EventLeavesTaskListed(steps: seq<Step>, f: Frame)
    requires Reached(steps).pump.pc.Settling?
    ensures var s := Reached(steps); var t := Next(s, Pumping(Settle)); var h := s.pump.req;
            && h in t.tasks && t.tasks[h].done != [] && t.tasks[h].listed == s.tasks[h].listed
            && t.names == s.names
            && RouteOf(t, f) == RouteOf(s, f)
  {
    hide Inv, Reached, SettleTask, RouteOf, TaskOk, CallNext;
    ReachedInv(steps);
    SettlingTask(Reached(steps));
    SettleLeaves(Reached(steps), f);
  }

  // ------------------------------------------------ a completed task and Done

  /** Someone is between unlisting the task and completing its Done. */
  ghost predicate Owed(s: Host, h: ReqId) {
    || (s.pump.pc.Completes? && s.pump.todo != [] && s.pump.todo[0] == h)
    || (exists q :: q in s.calls && s.calls[q].task == h && s.calls[q].pc.Completing?)
  }

  ghost predicate Accounted(s: Host) {
    forall h :: h in s.tasks && s.tasks[h].completed ==> s.tasks[h].doneCompleted || Owed(s, h)
  }

  lemma OwedActs(c: Call, t: Task, n: nat, closed: bool, a: CallStep)
    ensures var c', t' := CallAct(c, n, closed, a), TaskAct(t, c, a);
            && (t'.completed && !t.completed ==> c'.pc.Completing?)
            && (c.pc.Completing? ==> c'.pc.Completing? || t'.doneCompleted)
            && (t.doneCompleted ==> t'.doneCompleted)
            && c'.task == c.task
  {
  }

  lemma OwedByCall(s: Host, r: ReqId, a: CallStep, h: ReqId)
    requires r in s.calls && h in s.tasks && LinkOk(s, r) && PcOk(s.calls[r], s.failed)
    requires s.tasks[h].completed ==> s.tasks[h].doneCompleted || Owed(s, h)
    ensures var t := CallNext(s, r, a);
            h in t.tasks && (t.tasks[h].completed ==> t.tasks[h].doneCompleted || Owed(t, h))
  {
    var c, t := s.calls[r], CallNext(s, r, a);
    OwedActs(c, s.tasks[h], |s.sent|, s.closed, a);
    assert c.pc.Enlisting? ==> r != h;
    hide CallAct, TaskAct, NamesAfter, SentBy, Owed, PcOk;
    OwedMoves(s, t, r, h, CallAct(c, |s.sent|, s.closed, a));
  }

  lemma OwedMoves(s: Host, t: Host, r: ReqId, h: ReqId, c': Call)
    requires r in s.calls && t.calls == s.calls[r := c'] && t.pump == s.pump && c'.task == s.calls[r].task
    requires h in s.tasks && h in t.tasks
    requires s.tasks[h].completed ==> s.tasks[h].doneCompleted || Owed(s, h)
    requires s.tasks[h].doneCompleted ==> t.tasks[h].doneCompleted
    requires t.tasks[h].completed && !s.tasks[h].completed ==> c'.pc.Completing? && c'.task == h
    requires s.calls[r].pc.Completing? && s.calls[r].task == h ==> c'.pc.Completing? || t.tasks[h].doneCompleted
    ensures t.tasks[h].completed ==> t.tasks[h].doneCompleted || Owed(t, h)
  {
    assert t.calls[r] == c';
    if t.tasks[h].completed && !t.tasks[h].doneCompleted && s.tasks[h].completed {
      if !(s.pump.pc.Completes? && s.pump.todo != [] && s.pump.todo[0] == h) {
        var q :| q in s.calls && s.calls[q].task == h && s.calls[q].pc.Completing?;
        assert q in t.calls && t.calls[q].task == h && t.calls[q].pc.Completing?;
      }
    }
  }

  lemma OwedByPump(s: Host, a: PumpStep)
    requires Accounted(s)
    ensures Accounted(PumpNext(s, a))
  {
    var t := PumpNext(s, a);
    forall h | h in t.tasks && t.tasks[h].completed
      ensures t.tasks[h].doneCompleted || Owed(t, h)
    {
      PumpOwes(s, a, h);
    }
  }

  /** The head of the list is unlisted, then completed; no other step unlists a task. */
  lemma PumpDebts(s: Host, a: PumpStep, h: ReqId)
    requires h in s.tasks
    ensures var t := PumpNext(s, a);
            && h in t.tasks
            && (s.tasks[h].doneCompleted ==> t.tasks[h].doneCompleted)
            && (t.tasks[h].completed && !s.tasks[h].completed ==>
                  t.pump.pc.Completes? && t.pump.todo != [] && t.pump.todo[0] == h)
            && (s.pump.pc.Completes? && s.pump.todo != [] && s.pump.todo[0] == h ==>
                  t.tasks[h].doneCompleted || t.pump == s.pump)
  {
    hide ReadFrame, SettleTask, ApplyPending, CleanHead, CompleteHead, Deliver, NextTodo, Lists, FailAll;
    match a
    case Read(f) => ReadDebts(s, f, h);
    case Settle => SettleDebts(s, h);
    case ApplyIt(ok) => ApplyDebts(s, ok, h);
    case CleanNext => CleanDebts(s, h);
    case CompleteNext => CompleteDebts(s, h);
    case _ =>
  }

  lemma SettleDebts(s: Host, h: ReqId)
    requires h in s.tasks
    ensures var t := SettleTask(s);
            && h in t.tasks && t.tasks[h].completed == s.tasks[h].completed
            && (s.tasks[h].doneCompleted ==> t.tasks[h].doneCompleted)
            && (s.pump.pc.Completes? ==> t.pump == s.pump)
  {
  }

  lemma ApplyDebts(s: Host, ok: bool, h: ReqId)
    requires h in s.tasks
    ensures var t := ApplyPending(s, ok);
            && h in t.tasks && t.tasks[h].completed == s.tasks[h].completed
            && t.tasks[h].doneCompleted == s.tasks[h].doneCompleted
            && (s.pump.pc.Completes? ==> t.pump == s.pump)
  {
    hide ApplyPending;
    if s.pump.pc.Applies? && s.pump.req in s.tasks { AppliedTask(s, ok); } else { NothingApplied(s, ok); }
  }

  lemma NothingApplied(s: Host, ok: bool)
    requires !s.pump.pc.Applies? || s.pump.req !in s.tasks
    ensures ApplyPending(s, ok) == s
  {
  }

  lemma CleanDebts(s: Host, h: ReqId)
    requires h in s.tasks
    ensures var t := CleanHead(s);
            && h in t.tasks && t.tasks[h].doneCompleted == s.tasks[h].doneCompleted
            && (t.tasks[h].completed && !s.tasks[h].completed ==>
                  t.pump.pc.Completes? && t.pump.todo != [] && t.pump.todo[0] == h)
            && (s.pump.pc.Completes? ==> t.pump == s.pump)
  {
    hide NameOut;
  }

  lemma CompleteDebts(s: Host, h: ReqId)
    requires h in s.tasks
    ensures var t := CompleteHead(s);
            && h in t.tasks && t.tasks[h].completed == s.tasks[h].completed
            && (s.tasks[h].doneCompleted ==> t.tasks[h].doneCompleted)
            && (s.pump.pc.Completes? && s.pump.todo != [] && s.pump.todo[0] == h ==>
                  t.tasks[h].doneCompleted || t.pump == s.pump)
  {
    hide NextTodo;
  }

  lemma ReadDebts(s: Host, f: Frame, h: ReqId)
    requires h in s.tasks
    ensures var t := ReadFrame(s, f).tasks;
            && h in t && t[h].completed == s.tasks[h].completed && t[h].doneCompleted == s.tasks[h].doneCompleted
  {
    hide RouteOf, ReadPump;
  }

  lemma SameProgress(s: Host, a: PumpStep)
    ensures var t := PumpNext(s, a);
            && t.tasks.Keys == s.tasks.Keys && t.calls.Keys == s.calls.Keys
            && forall q :: q in s.calls ==> t.calls[q] == s.calls[q].(box := t.calls[q].box)
  {
    hide PumpNext, Touch;
    if a.DeliverIt? {
      DeliveredCalls(s, a.keep);
    } else if a.FailWaiters? {
      FailedCalls(s);
    } else {
      SameCalls(s, a);
    }
    forall h | h in s.tasks
      ensures h in PumpNext(s, a).tasks
    {
      PumpStepTouches(s, a, h);
    }
    NoNewTasks(s, a);
  }

  lemma DeliveredCalls(s: Host, keep: bool)
    ensures var t := PumpNext(s, DeliverIt(keep));
            && t.calls.Keys == s.calls.Keys
            && forall q :: q in s.calls ==> t.calls[q] == s.calls[q].(box := t.calls[q].box)
  {
    hide DeliverFrame;
    DeliveredFrames(s, keep);
  }

  lemma DeliveredFrames(s: Host, keep: bool)
    ensures var t := DeliverFrame(s, keep);
            && t.calls.Keys == s.calls.Keys
            && forall q :: q in s.calls ==> t.calls[q] == s.calls[q].(box := t.calls[q].box)
  {
    hide Deliver;
  }

  lemma FailedCalls(s: Host)
    ensures var t := PumpNext(s, FailWaiters);
            && t.calls.Keys == s.calls.Keys
            && forall q :: q in s.calls ==> t.calls[q] == s.calls[q].(box := t.calls[q].box)
  {
    hide FailOne, Deliver, RouteOf, ReadPump, NameOut, NextTodo, Lists, ReadMark, CompleteTask, CleanTask, Rejects;
  }

  lemma SameCalls(s: Host, a: PumpStep)
    requires !a.DeliverIt? && !a.FailWaiters?
    ensures PumpNext(s, a).calls == s.calls
  {
    hide RouteOf, ReadPump, NameOut, NextTodo, Lists, ReadMark, CompleteTask, CleanTask, Rejects;
  }

  lemma NoNewTasks(s: Host, a: PumpStep)
    ensures PumpNext(s, a).tasks.Keys <= s.tasks.Keys
  {
    hide RouteOf, ReadPump, NameOut, NextTodo, Lists, ReadMark, CompleteTask, CleanTask, Rejects, Deliver;
  }

  lemma PumpOwes(s: Host, a: PumpStep, h: ReqId)
    requires Accounted(s) && h in PumpNext(s, a).tasks && PumpNext(s, a).tasks[h].completed
    ensures PumpNext(s, a).tasks[h].doneCompleted || Owed(PumpNext(s, a), h)
  {
    var t := PumpNext(s, a);
    SameProgress(s, a);
    PumpDebts(s, a, h);
    hide PumpNext;
    if s.tasks[h].completed && !t.tasks[h].doneCompleted && !(s.pump.pc.Completes? && s.pump.todo != [] && s.pump.todo[0] == h) {
      assert Owed(s, h);
      var q :| q in s.calls && s.calls[q].task == h && s.calls[q].pc.Completing?;
      assert t.calls[q].task == h && t.calls[q].pc.Completing?;
    }
  }

  lemma StepAccounted(s: Host, step: Step)
    requires Inv(s) && Accounted(s)
    ensures Accounted(Next(s, step))
  {
    hide CallNext, PumpNext, Idle, Accounted, Calls, Links, Tasks, SentOk, NamesOk, NoOverlap, PumpOk;
    FreshId(s);
    match step
    case Calling(r, a) => CallAccounted(s, r, a);
    case Pumping(a) => OwedByPump(s, a);
    case BeginStart => BeginAccounted(s, NewCall(false, s.next + 1, |s.stream|));
    case BeginStop(h) => BeginAccounted(s, NewCall(true, h, |s.stream|));
    case Shutdown => ShutdownAccounted(s);
  }

  lemma ShutdownAccounted(s: Host)
    requires Accounted(s)
    ensures Accounted(s.(closed := true, failed := true))
  {
    var t := s.(closed := true, failed := true);
    forall h | h in t.tasks && t.tasks[h].completed
      ensures t.tasks[h].doneCompleted || Owed(t, h)
    {
      assert s.tasks[h].doneCompleted || Owed(s, h);
    }
  }

  lemma BeginAccounted(s: Host, c: Call)
    requires Accounted(s) && (s.next + 1) !in s.calls
    ensures Accounted(PutCall(s, s.next + 1, c).(next := s.next + 1))
  {
    var t := PutCall(s, s.next + 1, c).(next := s.next + 1);
    forall h | h in t.tasks && t.tasks[h].completed
      ensures t.tasks[h].doneCompleted || Owed(t, h)
    {
      if !t.tasks[h].doneCompleted && !(s.pump.pc.Completes? && s.pump.todo != [] && s.pump.todo[0] == h) {
        assert Owed(s, h);
        var q :| q in s.calls && s.calls[q].task == h && s.calls[q].pc.Completing?;
        assert t.calls[q] == s.calls[q];
      }
    }
  }

  lemma CallAccounted(s: Host, r: ReqId, a: CallStep)
    requires Inv(s) && Accounted(s)
    ensures Accounted(CallNext(s, r, a))
  {
    if r in s.calls {
      assert LinkOk(s, r) && CallOk(s.calls[r], r, s.stream, s.pump, s.failed);
      hide Inv, LinkOk, PcOk, BoxOk, CallAct, TaskAct, NamesAfter, SentBy, Owed;
      forall h | h in CallNext(s, r, a).tasks
        ensures CallNext(s, r, a).tasks[h].completed ==>
                  CallNext(s, r, a).tasks[h].doneCompleted || Owed(CallNext(s, r, a), h)
      {
        if h in s.tasks { OwedByCall(s, r, a, h); }
      }
    } else {
      UnknownCall(s, r, a);
    }
  }

  lemma {:induction false} RunAccounted(s: Host, steps: seq<Step>)
    requires Inv(s) && Accounted(s)
    ensures Accounted(Exec(s, steps))
    decreases |steps|
  {
    hide Inv, Next, Accounted;
    if steps != [] {
      StepAccounted(s, steps[0]);
      NextKeeps(s, steps[0]);
      RunAccounted(Next(s, steps[0]), steps[1..]);
    }
  }

  /** A task that left the tables has its Done value, or someone is just about to put it there. */
  lemma CompletedGetsDone(steps: seq<Step>, h: ReqId)
    requires h in Reached(steps).tasks && Reached(steps).tasks[h].completed
    ensures Reached(steps).tasks[h].done != [] || Owed(Reached(steps), h)
  {
    InitInv();
    RunAccounted(INIT, steps);
    ExecKeeps(INIT, steps);
    assert TaskOk(Reached(steps).tasks[h], h, Reached(steps).stream, Reached(steps).pump);
  }

  // ----------------------------------------- giving up ends everyone waiting

  /** Since the read loop gave up, waiter `r` and task `h` are ended or next in line. */
  ghost predicate Doomed(s: Host, r: ReqId, h: ReqId) {
    && r in s.calls && h in s.tasks
    && (s.pump.pc.FailingWaiters? || s.calls[r].box.closed)
    && (s.tasks[h].completed
        || s.pump.pc.FailingWaiters? || s.pump.pc.Collecting?
        || (s.pump.pc.Cleans? && h in s.pump.todo)
        || (s.pump.pc.Completes? && s.pump.todo != [] && h in s.pump.todo[1..]))
  }

  lemma DoomedByCall(s: Host, q: ReqId, a: CallStep, r: ReqId, h: ReqId)
    requires Doomed(s, r, h) && q in s.calls && LinkOk(s, q) && PcOk(s.calls[q], s.failed)
    ensures Doomed(CallNext(s, q, a), r, h)
  {
    CallStepLater(s, q, a, h);
    if s.calls[q].box.closed { CallBoxClosed(s.calls[q], |s.sent|, s.closed, a); }
    hide CallAct, TaskAct, TasksAfter, NamesAfter, SentBy, PcOk, LinkOk;
  }

  lemma CallBoxClosed(c: Call, n: nat, hostClosed: bool, a: CallStep)
    requires c.box.closed
    ensures CallAct(c, n, hostClosed, a).box.closed
  {
  }

  lemma PumpBoxClosed(s: Host, a: PumpStep, r: ReqId)
    requires r in s.calls && (s.calls[r].box.registered || s.calls[r].box.closed)
    ensures var t := PumpNext(s, a);
            && r in t.calls
            && (s.calls[r].box.closed || (s.pump.pc.FailingWaiters? && a.FailWaiters?) ==> t.calls[r].box.closed)
            && (t.pump.pc.FailingWaiters? || !s.pump.pc.FailingWaiters? || a.FailWaiters?)
  {
    hide RouteOf, ReadPump, NameOut, NextTodo, Lists, ReadMark, CompleteTask, CleanTask, Rejects;
  }

  /** How far the list of tasks has been worked off. */
  lemma PumpProgress(s: Host, a: PumpStep, h: ReqId)
    requires h in s.tasks && s.tasks[h].completed == !s.tasks[h].listed
    requires s.pump.pc.Cleans? || s.pump.pc.Completes? ==>
               s.pump.todo != [] && s.pump.todo[0] in s.tasks
    requires s.pump.pc.Cleans? ==> h in s.pump.todo
    requires s.pump.pc.Completes? ==> h in s.pump.todo[1..]
    requires s.pump.pc.Cleans? || s.pump.pc.Completes? || s.pump.pc.Collecting?
    ensures var t := PumpNext(s, a); var p := t.pump;
            && h in t.tasks
            && (t.tasks[h].completed || p.pc.Collecting? || (p.pc.Cleans? && h in p.todo)
                || (p.pc.Completes? && p.todo != [] && h in p.todo[1..]))
  {
    hide NameOut, Deliver, FailAll;
  }

  lemma DoomedByPump(s: Host, a: PumpStep, r: ReqId, h: ReqId)
    requires Inv(s) && Doomed(s, r, h)
    ensures Doomed(PumpNext(s, a), r, h)
  {
    assert CallOk(s.calls[r], r, s.stream, s.pump, s.failed) && TaskOk(s.tasks[h], h, s.stream, s.pump);
    hide PumpNext, Touch, Calls, Links, Tasks, SentOk, NamesOk, NoOverlap, PcOk, Published, Addressed;
    PumpBoxClosed(s, a, r);
    PumpStepTouches(s, a, h);
    TouchLater(s.tasks[h], PumpNext(s, a).tasks[h]);
    if !s.tasks[h].completed && !s.pump.pc.FailingWaiters? {
      PumpProgress(s, a, h);
    } else if s.pump.pc.FailingWaiters? {
      assert PumpNext(s, a).pump.pc.FailingWaiters? || PumpNext(s, a).pump.pc.Collecting? by { FailingMoves(s, a); }
    }
  }

  lemma FailingMoves(s: Host, a: PumpStep)
    requires s.pump.pc.FailingWaiters?
    ensures PumpNext(s, a).pump.pc.FailingWaiters? || PumpNext(s, a).pump.pc.Collecting?
  {
    hide FailAll;
  }

  lemma DoomedCall(s: Host, q: ReqId, a: CallStep, r: ReqId, h: ReqId)
    requires Inv(s) && Doomed(s, r, h)
    ensures Doomed(CallNext(s, q, a), r, h)
  {
    if q in s.calls {
      assert LinkOk(s, q) && CallOk(s.calls[q], q, s.stream, s.pump, s.failed);
      hide Inv, CallNext, LinkOk, PcOk, BoxOk, Doomed;
      DoomedByCall(s, q, a, r, h);
    } else {
      UnknownCall(s, q, a);
    }
  }

  lemma DoomedStays(s: Host, step: Step, r: ReqId, h: ReqId)
    requires Inv(s) && Doomed(s, r, h)
    ensures Doomed(Next(s, step), r, h)
  {
    hide Inv, CallNext, PumpNext, Idle, Doomed;
    match step
    case Calling(q, a) => DoomedCall(s, q, a, r, h);
    case Pumping(a) => DoomedByPump(s, a, r, h);
    case _ => DoomedBegin(s, step, r, h);
  }

  lemma DoomedBegin(s: Host, step: Step, r: ReqId, h: ReqId)
    requires Inv(s) && Doomed(s, r, h) && !step.Calling? && !step.Pumping?
    ensures Doomed(Next(s, step), r, h)
  {
    hide Idle, LinkOk, Calls, Tasks, SentOk, NamesOk, NoOverlap, PumpOk;
    FreshId(s);
  }

  lemma {:induction false} DoomedRun(s: Host, steps: seq<Step>, r: ReqId, h: ReqId)
    requires Inv(s) && Doomed(s, r, h)
    ensures Doomed(Exec(s, steps), r, h)
    decreases |steps|
  {
    hide Inv, Next, Doomed;
    if steps != [] {
      DoomedStays(s, steps[0], r, h);
      NextKeeps(s, steps[0]);
      DoomedRun(Next(s, steps[0]), steps[1..], r, h);
    }
  }

  /** The read loop is at work on a failure, from noticing it to the last task on its list. */
  predicate Failing(p: Pump) {
    p.pc.FailingWaiters? || p.pc.Collecting? || p.pc.Cleans? || p.pc.Completes?
  }

  /**
    Once the read loop gives up, be it for a full queue, a frame for nobody or a
    read error, no waiter and no task gets past it: when it is through, every
    waiter there was is closed and every task there was is out of the tables.
   */
  lemma GivingUpEndsEveryone(steps: seq<Step>, more: seq<Step>, r: ReqId, h: ReqId)
    requires var s := Reached(steps); s.pump.pc.FailingWaiters? && r in s.calls && h in s.tasks
    requires !Failing(Exec(Reached(steps), more).pump)
    ensures var t := Exec(Reached(steps), more);
            && r in t.calls && t.calls[r].box.closed
            && h in t.tasks && t.tasks[h].completed && (t.tasks[h].done != [] || Owed(t, h))
  {
    ReachedInv(steps);
    DoomedRun(Reached(steps), more, r, h);
    ExecJoins(INIT, steps, more);
    CompletedGetsDone(steps + more, h);
  }

  lemma {:induction false} ExecJoins(s: Host, steps: seq<Step>, more: seq<Step>)
    ensures Exec(Exec(s, steps), more) == Exec(s, steps + more)
    decreases |steps|
  {
    if steps == [] {
      assert steps + more == more;
    } else {
      assert (steps + more)[1..] == steps[1..] + more;
      ExecJoins(Next(s, steps[0]), steps[1..], more);
    }
  }

  /** A frame that finds its waiter's queue full makes the read loop give up; it is never skipped. */
  lemma OverflowGivesUp(steps: seq<Step>, keep: bool)
    requires Reached(steps).pump.pc.Delivering?
    ensures var s := Reached(steps); var t := Next(s, Pumping(DeliverIt(keep))); var r := s.pump.req;
            && r in s.calls && r in t.calls
            && (!s.calls[r].box.closed ==>
                  if |s.calls[r].box.queue| < QUEUE_CAPACITY
                  then t.pump.pc.Reading? && Frames(t.calls[r].box.queue) == Frames(s.calls[r].box.queue) + [s.pump.frame]
                  else t.pump.pc.FailingWaiters? && t.calls[r].box == s.calls[r].box && t.failed)
  {
    ReachedInv(steps);
    var s := Reached(steps);
    assert s.pump.req in s.calls;
    hide Inv, Reached, CallNext;
    FramesAppend(s.calls[s.pump.req].box.queue, Got(s.pump.frame));
  }

  // ----------------------------------------------------------------- the client's tables

  /** The waiters, tasks and names as the client object holds them. */
  datatype Books = Books(waiters: map<ReqId, Waiter>, tasks: map<ReqId, Task>, names: map<TaskId, ReqId>)

  /** The task without what is recorded of its environment, which the client does not keep. */
  function Bare(t: Task): Task {
    t.(applied := [], rejected := false, lost := false, strayed := false)
  }

  function BooksOf(s: Host): Books {
    Books(map r | r in s.calls :: s.calls[r].box, map h | h in s.tasks :: Bare(s.tasks[h]), s.names)
  }

  function WithWaiter(b: Books, r: ReqId, w: Waiter): Books {
    b.(waiters := b.waiters[r := w])
  }

  function WithTask(b: Books, h: ReqId, t: Task): Books {
    b.(tasks := b.tasks[h := t])
  }

  lemma OneWaiter(s: Host, t: Host, r: ReqId)
    requires r in t.calls && t.calls.Keys == s.calls.Keys + {r} && t.names == s.names && t.tasks == s.tasks
    requires forall q :: q in s.calls && q != r ==> t.calls[q].box == s.calls[q].box
    ensures BooksOf(t) == WithWaiter(BooksOf(s), r, t.calls[r].box)
  {
    assert BooksOf(t).waiters == BooksOf(s).waiters[r := t.calls[r].box];
  }

  lemma SameWaiters(s: Host, t: Host)
    requires t.calls.Keys == s.calls.Keys && forall q :: q in s.calls ==> t.calls[q].box == s.calls[q].box
    ensures BooksOf(t).waiters == BooksOf(s).waiters
  {
  }

  lemma OneTask(s: Host, t: Host, h: ReqId)
    requires h in t.tasks && t.tasks == s.tasks[h := t.tasks[h]]
    ensures BooksOf(t).tasks == BooksOf(s).tasks[h := Bare(t.tasks[h])]
  {
  }

  /** Beginning a call registers a new waiter under the next id; shutting down touches no table. */
  lemma BeginSectionsOnTables(s: Host, a: Step)
    requires (s.next + 1) !in s.calls && !a.Calling? && !a.Pumping?
    ensures BooksOf(Next(s, a))
         == if a.BeginStart? || (a.BeginStop? && Idle(s, a.task))
            then WithWaiter(BooksOf(s), s.next + 1, NewWaiter()) else BooksOf(s)
  {
    if a.BeginStart? || (a.BeginStop? && Idle(s, a.task)) { OneWaiter(s, Next(s, a), s.next + 1); }
    hide BooksOf, WithWaiter, Idle;
  }

  /** What a call step does to the tables, in the terms the client's methods are specified by. */
  function CallBooks(s: Host, r: ReqId, a: CallStep, b: Books): Books
    requires r in s.calls && r in b.waiters && (s.calls[r].task in s.tasks ==> s.calls[r].task in b.tasks)
  {
    var c, h := s.calls[r], s.calls[r].task;
    var known := h in s.tasks;
    if a.Enlist? && c.pc.Enlisting? then WithTask(b, r, NewTask(false))
    else if a.Name? && c.pc.Naming? && known && LastTaken(c).body.StartResponse? then
      var id := LastTaken(c).body.task;
      WithTask(b, h, NameTask(b.tasks[h], id)).(names := NameIn(b.names, b.tasks[h], h, id))
    else if a.CleanUp? && c.pc.Cleaning? && known then
      WithTask(b, h, CleanTask(b.tasks[h])).(names := NameOut(b.names, b.tasks[h], h))
    else if a.Complete? && c.pc.Completing? && known then WithTask(b, h, CompleteTask(b.tasks[h], c.cause))
    else if a.Unregister? && c.pc.Leaving? then WithWaiter(b, r, UnregisterOne(b.waiters[r]))
    else if a.Take? && c.pc.Waiting? && c.box.queue != [] then
      WithWaiter(b, r, b.waiters[r].(queue := c.box.queue[1..]))
    else b
  }

  lemma CallBox(c: Call, n: nat, hostClosed: bool, a: CallStep)
    ensures CallAct(c, n, hostClosed, a).box
         == if a.Unregister? && c.pc.Leaving? then UnregisterOne(c.box)
            else if a.Take? && c.pc.Waiting? && c.box.queue != [] then c.box.(queue := c.box.queue[1..])
            else c.box
  {
    hide UnregisterOne, Frames;
  }

  lemma CallTask(t: Task, c: Call, a: CallStep)
    ensures Bare(TaskAct(t, c, a))
         == if a.Name? && c.pc.Naming? && LastTaken(c).body.StartResponse? then NameTask(Bare(t), LastTaken(c).body.task)
            else if a.CleanUp? && c.pc.Cleaning? then CleanTask(Bare(t))
            else if a.Complete? && c.pc.Completing? then CompleteTask(Bare(t), c.cause)
            else Bare(t)
  {
    hide Bare, Publishes, Rejects, NameTask, CleanTask, CompleteTask;
    BareTask(t, if LastTaken(c).body.StartResponse? then LastTaken(c).body.task else 0, c.cause);
    BareMarks(t, LastTaken(c).body);
  }

  lemma BareMarks(t: Task, b: Body)
    ensures Bare(t.(rejected := true)) == Bare(t)
    ensures Bare(t.(applied := t.applied + [b], strayed := true)) == Bare(t)
  {
  }

  lemma BareTask(t: Task, id: TaskId, cause: Outcome)
    ensures Bare(NameTask(t, id)) == NameTask(Bare(t), id)
    ensures Bare(CleanTask(t)) == CleanTask(Bare(t)) && Bare(CompleteTask(t, cause)) == CompleteTask(Bare(t), cause)
  {
  }

  /** The steps of a call change the client's tables exactly as its methods do. */
  lemma CallSectionsOnTables(s: Host, r: ReqId, a: CallStep)
    requires r in s.calls
    ensures BooksOf(CallNext(s, r, a)) == CallBooks(s, r, a, BooksOf(s))
  {
    hide CallNext, CallBooks, BooksOf;
    CallWaitersOnTables(s, r, a);
    CallTasksOnTables(s, r, a);
    CallNamesOnTables(s, r, a);
  }

  lemma CallWaitersOnTables(s: Host, r: ReqId, a: CallStep)
    requires r in s.calls
    ensures BooksOf(CallNext(s, r, a)).waiters == CallBooks(s, r, a, BooksOf(s)).waiters
  {
    hide CallAct, CallNext, UnregisterOne, NameTask, CleanTask, CompleteTask, NameIn, NameOut, Bare;
    var c := s.calls[r];
    CallBox(c, |s.sent|, s.closed, a);
    CallsAfter(s, r, a);
    CallWaiters(s, CallNext(s, r, a), r);
    assert BooksOf(s).waiters[r := c.box] == BooksOf(s).waiters;
  }

  lemma CallTasksOnTables(s: Host, r: ReqId, a: CallStep)
    requires r in s.calls
    ensures BooksOf(CallNext(s, r, a)).tasks == CallBooks(s, r, a, BooksOf(s)).tasks
  {
    hide CallNext, TaskAct, UnregisterOne, NameTask, CleanTask, CompleteTask, NameIn, NameOut, Published, Bare;
    var c, t := s.calls[r], CallNext(s, r, a);
    CallTables(s, r, a);
    if a.Enlist? && c.pc.Enlisting? {
      BareNew(s, r);
      OneTask(s, t, r);
    } else if c.task in s.tasks {
      CallTask(s.tasks[c.task], c, a);
      OneTask(s, t, c.task);
      assert BooksOf(s).tasks[c.task := BooksOf(s).tasks[c.task]] == BooksOf(s).tasks;
    }
  }

  lemma CallNamesOnTables(s: Host, r: ReqId, a: CallStep)
    requires r in s.calls
    ensures BooksOf(CallNext(s, r, a)).names == CallBooks(s, r, a, BooksOf(s)).names
  {
    hide CallNext, TasksAfter, UnregisterOne, NameTask, CleanTask, CompleteTask, NameIn, NameOut, Bare;
    var c := s.calls[r];
    CallTables(s, r, a);
    if c.task in s.tasks {
      BareNames(s.names, s.tasks[c.task], c.task, if LastTaken(c).body.StartResponse? then LastTaken(c).body.task else 0);
    }
  }

  lemma BareNames(names: map<TaskId, ReqId>, t: Task, h: ReqId, id: TaskId)
    ensures NameIn(names, Bare(t), h, id) == NameIn(names, t, h, id) && NameOut(names, Bare(t), h) == NameOut(names, t, h)
  {
  }

  lemma BareNew(s: Host, r: ReqId)
    ensures Bare(NewTask(Published(s.stream, r) != [])) == NewTask(false)
  {
  }

  lemma CallTables(s: Host, r: ReqId, a: CallStep)
    requires r in s.calls
    ensures CallNext(s, r, a).tasks == TasksAfter(s, s.calls[r], r, a)
    ensures CallNext(s, r, a).names == NamesAfter(s, s.calls[r], a)
  {
    hide CallAct, TasksAfter, NamesAfter, SentBy;
  }

  lemma CallWaiters(s: Host, t: Host, r: ReqId)
    requires r in s.calls && r in t.calls && t.calls == s.calls[r := t.calls[r]]
    ensures BooksOf(t).waiters == BooksOf(s).waiters[r := t.calls[r].box]
  {
  }

  /** What a step of the read loop does to the tables. */
  function PumpBooks(s: Host, a: PumpStep, b: Books): Books
    requires b == BooksOf(s)
  {
    var p := s.pump;
    match a
    case DeliverIt(keep) =>
      if p.pc.Delivering? && p.req in b.waiters then WithWaiter(b, p.req, Deliver(b.waiters[p.req], p.frame, keep).0) else b
    case FailWaiters =>
      if p.pc.FailingWaiters? then b.(waiters := map r | r in b.waiters :: FailOne(b.waiters[r])) else b
    case Settle =>
      if p.pc.Settling? && p.req in b.tasks then WithTask(b, p.req, CompleteTask(b.tasks[p.req], p.cause)) else b
    case CleanNext =>
      if p.pc.Cleans? && p.todo != [] && p.todo[0] in b.tasks then
        var h := p.todo[0];
        WithTask(b, h, CleanTask(b.tasks[h])).(names := NameOut(b.names, b.tasks[h], h))
      else b
    case CompleteNext =>
      if p.pc.Completes? && p.todo != [] && p.todo[0] in b.tasks
      then WithTask(b, p.todo[0], CompleteTask(b.tasks[p.todo[0]], p.cause)) else b
    case _ => b
  }

  /** The steps of the read loop change the client's tables exactly as its methods do. */
  lemma PumpSectionsOnTables(s: Host, a: PumpStep)
    ensures BooksOf(PumpNext(s, a)) == PumpBooks(s, a, BooksOf(s))
  {
    match a
    case DeliverIt(keep) => DeliverOnTables(s, keep);
    case FailWaiters => FailOnTables(s);
    case Settle => SettleOnTables(s);
    case CleanNext => CleanOnTables(s);
    case CompleteNext => CompleteOnTables(s);
    case ApplyIt(ok) => ApplyOnTables(s, ok);
    case Read(f) => ReadOnTables(s, f);
    case _ => hide Lists, NextTodo;
  }

  lemma DeliverOnTables(s: Host, keep: bool)
    ensures BooksOf(DeliverFrame(s, keep)) == PumpBooks(s, DeliverIt(keep), BooksOf(s))
  {
    hide Deliver;
    if s.pump.pc.Delivering? && s.pump.req in s.calls { OneWaiter(s, DeliverFrame(s, keep), s.pump.req); }
  }

  lemma FailOnTables(s: Host)
    ensures BooksOf(PumpNext(s, FailWaiters)) == PumpBooks(s, FailWaiters, BooksOf(s))
  {
    hide FailOne;
  }

  lemma SettleOnTables(s: Host)
    ensures BooksOf(SettleTask(s)) == PumpBooks(s, Settle, BooksOf(s))
  {
    if s.pump.pc.Settling? && s.pump.req in s.tasks {
      OneTask(s, SettleTask(s), s.pump.req);
    }
  }

  lemma CleanOnTables(s: Host)
    ensures BooksOf(CleanHead(s)) == PumpBooks(s, CleanNext, BooksOf(s))
  {
    var p := s.pump;
    if p.pc.Cleans? && p.todo != [] && p.todo[0] in s.tasks { OneTask(s, CleanHead(s), p.todo[0]); }
  }

  lemma CompleteOnTables(s: Host)
    ensures BooksOf(CompleteHead(s)) == PumpBooks(s, CompleteNext, BooksOf(s))
  {
    hide NextTodo, ShutsDown;
    var p := s.pump;
    if p.pc.Completes? && p.todo != [] && p.todo[0] in s.tasks { OneTask(s, CompleteHead(s), p.todo[0]); }
  }

  lemma ApplyOnTables(s: Host, ok: bool)
    ensures BooksOf(ApplyPending(s, ok)) == BooksOf(s)
  {
    ApplyBare(s, ok);
    hide ApplyPending;
    SameBooks(s, ApplyPending(s, ok));
  }

  lemma ApplyBare(s: Host, ok: bool)
    ensures var t := ApplyPending(s, ok);
            && t.calls == s.calls && t.names == s.names && t.tasks.Keys == s.tasks.Keys
            && forall h :: h in s.tasks ==> Bare(t.tasks[h]) == Bare(s.tasks[h])
  {
    hide Bare;
    var h := s.pump.req;
    if s.pump.pc.Applies? && h in s.tasks {
      AppliedTask(s, ok);
      var t := ApplyPending(s, ok).tasks[h];
      hide ApplyPending;
      assert ApplyPending(s, ok).tasks == s.tasks[h := t];
    }
  }

  lemma AppliedTask(s: Host, ok: bool)
    requires s.pump.pc.Applies? && s.pump.req in s.tasks
    ensures var t := ApplyPending(s, ok);
            && t.calls == s.calls && t.names == s.names
            && s.pump.req in t.tasks && t.tasks == s.tasks[s.pump.req := t.tasks[s.pump.req]]
            && Bare(t.tasks[s.pump.req]) == Bare(s.tasks[s.pump.req])
  {
    hide Rejects, Publishes;
  }

  lemma SameBooks(s: Host, t: Host)
    requires t.calls == s.calls && t.names == s.names && t.tasks.Keys == s.tasks.Keys
    requires forall h :: h in s.tasks ==> Bare(t.tasks[h]) == Bare(s.tasks[h])
    ensures BooksOf(t) == BooksOf(s)
  {
    hide Bare;
  }

  lemma ReadOnTables(s: Host, f: Frame)
    ensures BooksOf(ReadFrame(s, f)) == BooksOf(s)
  {
    ReadBare(s, f);
    hide ReadFrame;
    SameBooks(s, ReadFrame(s, f));
  }

  lemma ReadBare(s: Host, f: Frame)
    ensures var t := ReadFrame(s, f);
            && t.calls == s.calls && t.names == s.names && t.tasks.Keys == s.tasks.Keys
            && forall h :: h in s.tasks ==> Bare(t.tasks[h]) == Bare(s.tasks[h])
  {
    hide RouteOf, ReadPump, Publishes;
  }
}
