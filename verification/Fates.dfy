/**
  How a Start or Stop call ends (benchkit/pluginhost/stdio_client.go:197-427, 438-511):
  told from what happens to it, which frame, error or cancellation ends it, with which
  result, and whether it finishes its task; and which frames a Start applies on the way.
 */
module Fates {
  import opened Outcomes
  import opened Wire
  import opened HostTables
  import opened HostMachine
  import opened HostGuarantees
  import opened Offers

  /** A call goes on, or has ended with this result and does or does not finish its task. */
  datatype Fate = Open | Ended(result: Result, finishes: bool)

  const BROKEN := Ended(Broken, true)

  /** What a frame means to a call that takes it. A stop that the plugin refuses to run leaves the task alone. */
  function FrameFate(isStop: bool, body: Body): Fate {
    match body
    case Error(code) => Ended(Refused(code), !isStop || code != RunError)
    case StopResponse => if isStop then Ended(Success, true) else BROKEN
    case StartResponse(id) => if isStop || id == 0 then BROKEN else Ended(Success, false)
    case SetOutput(_, _) => if isStop then BROKEN else Open
    case MetricFlush(_) => if isStop then BROKEN else Open
    case Artifact(_) => if isStop then BROKEN else Open
    case _ => BROKEN
  }

  /** What a step of its own makes of a call that is open. */
  function StepFate(c: Call, hostClosed: bool, a: CallStep): Fate {
    match a
    case Send(ok) => if c.pc.Sending? && (hostClosed || !ok) then BROKEN else Open
    case Cancel => if c.pc.Sending? || c.pc.Waiting? then BROKEN else Open
    case Take =>
      if !c.pc.Waiting? then Open
      else if c.box.queue != [] then
        match c.box.queue[0]
        case Broke => BROKEN
        case Got(f) => FrameFate(c.isStop, f.body)
      else if c.box.closed then Ended(ClosedOut, true)
      else Open
    case ApplyAtStart(ok) => if c.pc.Applying? && !ok && !LastTaken(c).body.MetricFlush? then BROKEN else Open
    case _ => Open
  }

  function FateAfter(s: Host, step: Step, r: ReqId, fate: Fate): Fate {
    match step
    case Calling(q, a) => if q == r && r in s.calls && fate.Open? then StepFate(s.calls[r], s.closed, a) else fate
    case _ => fate
  }

  /** The fate of call `r` in a run from `s`, where it had met `fate`. */
  function FateIn(s: Host, steps: seq<Step>, r: ReqId, fate: Fate): Fate
    decreases |steps|
  {
    if steps == [] then fate else FateIn(Next(s, steps[0]), steps[1..], r, FateAfter(s, steps[0], r, fate))
  }

  /** The call offers its task's Done channel a value in the step, having unlisted the task before. */
  predicate FinishesNow(s: Host, step: Step, r: ReqId) {
    step == Calling(r, Complete) && r in s.calls && s.calls[r].pc.Completing?
  }

  predicate FinishesIn(s: Host, steps: seq<Step>, r: ReqId)
    decreases |steps|
  {
    steps != [] && (FinishesNow(s, steps[0], r) || FinishesIn(Next(s, steps[0]), steps[1..], r))
  }

  /** The frames a Start call goes on to apply, or fails to. */
  function AppliesIn(s: Host, steps: seq<Step>, r: ReqId): seq<Frame>
    decreases |steps|
  {
    if steps == [] then []
    else
      (match steps[0]
       case Calling(q, ApplyAtStart(_)) =>
         if q == r && r in s.calls && s.calls[r].pc.Applying? then [LastTaken(s.calls[r])] else []
       case _ => [])
      + AppliesIn(Next(s, steps[0]), steps[1..], r)
  }

  function Lifecycles(frames: seq<Frame>): seq<Frame> {
    if frames == [] then []
    else
      var n := |frames| - 1;
      Lifecycles(frames[..n]) + (if Lifecycle(frames[n].body) then [frames[n]] else [])
  }

  /** Where a call stands, given its fate. */
  ghost predicate Stands(c: Call, fate: Fate, finished: bool) {
    match fate
    case Open =>
      && !finished && (c.pc.Enlisting? || c.pc.Sending? || c.pc.Waiting? || c.pc.Applying?)
      && (c.pc.Enlisting? || c.pc.Applying? ==> !c.isStop)
    case Ended(result, finishes) =>
      if finishes
      then (c.pc.Grace? ==> c.isStop && result == Success) && (c.pc.Grace? || c.result == result)
           && (c.pc.Grace? || c.pc.Cleaning? || c.pc.Completing? || c.pc.Leaving? || c.pc.Returned?)
           && (finished <==> c.pc.Leaving? || c.pc.Returned?)
      else !finished && (c.pc.Naming? ==> !c.isStop && result == Success) && (c.pc.Naming? || c.result == result)
           && (c.pc.Naming? || c.pc.Leaving? || c.pc.Returned?)
  }

  lemma ActStands(c: Call, n: nat, hostClosed: bool, a: CallStep, fate: Fate, finished: bool)
    requires Stands(c, fate, finished)
    ensures Stands(CallAct(c, n, hostClosed, a), if fate.Open? then StepFate(c, hostClosed, a) else fate,
                   finished || (a.Complete? && c.pc.Completing?))
  {
    hide UnregisterOne;
    if a.Take? && c.pc.Waiting? {
      TakeStands(c, hostClosed, fate, finished);
      hide TakeNext;
    }
  }

  lemma TakeStands(c: Call, hostClosed: bool, fate: Fate, finished: bool)
    requires Stands(c, fate, finished) && c.pc.Waiting?
    ensures Stands(TakeNext(c), StepFate(c, hostClosed, Take), finished)
  {
  }

  /** A Start has applied the lifecycle frames it took, but for the one it is about to. */
  ghost predicate Handled(c: Call, applied: seq<Frame>) {
    if c.isStop then applied == []
    else Lifecycles(c.taken) == applied + (if c.pc.Applying? then [LastTaken(c)] else [])
  }

  function AppliesNow(c: Call, a: CallStep): seq<Frame> {
    if a.ApplyAtStart? && c.pc.Applying? then [LastTaken(c)] else []
  }

  lemma LifecyclesMore(frames: seq<Frame>, f: Frame)
    ensures Lifecycles(frames + [f]) == Lifecycles(frames) + (if Lifecycle(f.body) then [f] else [])
  {
    assert (frames + [f])[..|frames|] == frames;
  }

  lemma ActHandled(c: Call, n: nat, hostClosed: bool, a: CallStep, applied: seq<Frame>)
    requires Handled(c, applied) && (c.pc.Applying? ==> !c.isStop)
    ensures Handled(CallAct(c, n, hostClosed, a), applied + AppliesNow(c, a))
  {
    assert applied + [] == applied;
    hide UnregisterOne, Lifecycles;
    if a.Take? && c.pc.Waiting? {
      TakeHandled(c, applied);
      hide TakeNext;
    }
  }

  lemma TakeHandled(c: Call, applied: seq<Frame>)
    requires Handled(c, applied) && c.pc.Waiting?
    ensures Handled(TakeNext(c), applied)
  {
    hide Lifecycles;
    assert applied + [] == applied;
    if c.box.queue != [] && c.box.queue[0].Got? { LifecyclesMore(c.taken, c.box.queue[0].frame); }
  }

  // ------------------------------------------------------------------------ every run

  /** What a run has so far made of one call. */
  ghost predicate CallIs(c: Call, fate: Fate, finished: bool, applied: seq<Frame>) {
    Stands(c, fate, finished) && Handled(c, applied)
  }

  lemma ActIs(c: Call, n: nat, hostClosed: bool, a: CallStep, fate: Fate, finished: bool, applied: seq<Frame>)
    requires CallIs(c, fate, finished, applied)
    ensures CallIs(CallAct(c, n, hostClosed, a), if fate.Open? then StepFate(c, hostClosed, a) else fate,
                   finished || (a.Complete? && c.pc.Completing?), applied + AppliesNow(c, a))
  {
    hide CallAct, StepFate, Handled;
    ActStands(c, n, hostClosed, a, fate, finished);
    ActHandled(c, n, hostClosed, a, applied);
  }

  lemma BoxIs(c: Call, box: Waiter, fate: Fate, finished: bool, applied: seq<Frame>)
    requires CallIs(c, fate, finished, applied)
    ensures CallIs(c.(box := box), fate, finished, applied)
  {
    hide Lifecycles;
  }

  lemma NewIs(isStop: bool, task: ReqId, since: nat)
    ensures CallIs(NewCall(isStop, task, since), Open, false, [])
  {
  }

  /** What the first step of a run does to call `r`. */
  function AppliedFirst(s: Host, step: Step, r: ReqId): seq<Frame> {
    if step.Calling? && step.req == r && r in s.calls then AppliesNow(s.calls[r], step.call) else []
  }

  lemma StepIs(s: Host, step: Step, r: ReqId, fate: Fate, finished: bool, applied: seq<Frame>)
    requires r in s.calls && r <= s.next && CallIs(s.calls[r], fate, finished, applied)
    ensures var t := Next(s, step);
            && r in t.calls
            && CallIs(t.calls[r], FateAfter(s, step, r, fate), finished || FinishesNow(s, step, r),
                      applied + AppliedFirst(s, step, r))
  {
    hide CallIs, CallAct, StepFate, PumpNext, CallNext, Idle, AppliesNow;
    assert applied + [] == applied;
    match step {
      case Calling(q, a) =>
        if q in s.calls {
          CallsAfter(s, q, a);
          if q == r { ActIs(s.calls[r], |s.sent|, s.closed, a, fate, finished, applied); }
        } else {
          UnknownCall(s, q, a);
        }
      case Pumping(a) =>
        PumpBoxes(s, a, r);
        BoxIs(s.calls[r], PumpNext(s, a).calls[r].box, fate, finished, applied);
      case _ =>
    }
  }

  /** The read loop changes nothing of a call but its waiter. */
  lemma PumpBoxes(s: Host, a: PumpStep, r: ReqId)
    requires r in s.calls
    ensures r in PumpNext(s, a).calls && PumpNext(s, a).calls[r] == s.calls[r].(box := PumpNext(s, a).calls[r].box)
  {
    hide FailOne, ReadFrame, SettleTask, ApplyPending, CleanHead, CompleteHead, CollectTasks, DeliverFrame;
    if a.DeliverIt? { DeliverBoxes(s, a.keep, r); } else { OtherBoxes(s, a); }
  }

  lemma DeliverBoxes(s: Host, keep: bool, r: ReqId)
    requires r in s.calls
    ensures r in DeliverFrame(s, keep).calls && DeliverFrame(s, keep).calls[r] == s.calls[r].(box := DeliverFrame(s, keep).calls[r].box)
  {
    hide Deliver;
  }

  lemma OtherBoxes(s: Host, a: PumpStep)
    requires !a.DeliverIt?
    ensures PumpNext(s, a).calls == (if a.FailWaiters? && s.pump.pc.FailingWaiters? then FailAll(s.calls) else s.calls)
  {
    hide CompleteTask, CleanTask, ReadPump, ReadMark, RouteOf, FailAll, Lists, NextTodo, NameOut, Rejects, Publishes, ShutsDown;
  }

  lemma FreshIs(s: Host, step: Step, r: ReqId)
    requires r !in s.calls && r in Next(s, step).calls
    ensures CallIs(Next(s, step).calls[r], Open, false, []) && !FinishesNow(s, step, r) && AppliedFirst(s, step, r) == []
    ensures forall fate :: FateAfter(s, step, r, fate) == fate
  {
    hide CallIs, CallAct, PumpNext, CallNext, Idle, NewCall;
    match step {
      case Calling(q, a) =>
        if q in s.calls { CallsAfter(s, q, a); } else { UnknownCall(s, q, a); }
      case Pumping(a) => PumpKeys(s, a);
      case BeginStart => NewIs(false, s.next + 1, |s.stream|);
      case BeginStop(h) => NewIs(true, h, |s.stream|);
      case Shutdown =>
    }
  }

  lemma PumpKeys(s: Host, a: PumpStep)
    ensures PumpNext(s, a).calls.Keys == s.calls.Keys
  {
    hide Deliver, FailOne, CompleteTask, CleanTask, RouteOf, ReadMark;
  }

  lemma {:induction false} RunIs(s: Host, steps: seq<Step>, r: ReqId, fate: Fate, finished: bool, applied: seq<Frame>)
    requires Inv(s) && r in Exec(s, steps).calls
    requires if r in s.calls then CallIs(s.calls[r], fate, finished, applied) else fate == Open && !finished && applied == []
    ensures CallIs(Exec(s, steps).calls[r], FateIn(s, steps, r, fate), finished || FinishesIn(s, steps, r),
                   applied + AppliesIn(s, steps, r))
    decreases |steps|
  {
    hide Inv, CallIs, Next, FateAfter, FinishesNow, AppliedFirst;
    if steps == [] {
      assert applied + [] == applied;
    } else {
      var t, step := Next(s, steps[0]), steps[0];
      NextKeeps(s, step);
      var fate' := FateAfter(s, step, r, fate);
      var finished' := finished || FinishesNow(s, step, r);
      var applied' := applied + AppliedFirst(s, step, r);
      AppliesFirst(s, steps, r);
      if r in s.calls {
        CallNumber(s, r);
        StepIs(s, step, r, fate, finished, applied);
      } else if r in t.calls {
        FreshIs(s, step, r);
        assert [] + AppliedFirst(s, step, r) == [];
      } else {
        NotYet(s, step, r, fate);
        assert [] + AppliedFirst(s, step, r) == [];
      }
      RunIs(t, steps[1..], r, fate', finished', applied');
      assert applied' + AppliesIn(t, steps[1..], r) == applied + (AppliedFirst(s, step, r) + AppliesIn(t, steps[1..], r));
    }
  }

  lemma NotYet(s: Host, step: Step, r: ReqId, fate: Fate)
    requires r !in s.calls
    ensures FateAfter(s, step, r, fate) == fate && !FinishesNow(s, step, r) && AppliedFirst(s, step, r) == []
  {
  }

  lemma CallNumber(s: Host, r: ReqId)
    requires Inv(s) && r in s.calls
    ensures r <= s.next
  {
    assert LinkOk(s, r);
  }

  lemma AppliesFirst(s: Host, steps: seq<Step>, r: ReqId)
    requires steps != []
    ensures AppliesIn(s, steps, r) == AppliedFirst(s, steps[0], r) + AppliesIn(Next(s, steps[0]), steps[1..], r)
  {
    hide Next;
  }

  /**
    In every run, a call that has returned ended as its fate says: with that result, and
    having finished its task, or not, exactly as that says. A call without an end is
    still at work.
   */
  lemma CallEndsAsFated(steps: seq<Step>, r: ReqId)
    requires r in Reached(steps).calls
    ensures var c, fate := Reached(steps).calls[r], FateIn(INIT, steps, r, Open);
            && (c.pc.Returned? ==> fate.Ended? && c.result == fate.result && (FinishesIn(INIT, steps, r) <==> fate.finishes))
            && (fate.Open? ==> c.pc.Enlisting? || c.pc.Sending? || c.pc.Waiting? || c.pc.Applying?)
            && (fate.Ended? ==> !c.pc.Enlisting? && !c.pc.Sending? && !c.pc.Waiting? && !c.pc.Applying?)
  {
    InitInv();
    RunIs(INIT, steps, r, Open, false, []);
    hide Exec, FateIn, FinishesIn, AppliesIn, Inv, Handled;
  }

  /**
    In every run, a Start applies the outputs, flushes and artifacts it takes one by one,
    in order, each before it takes the next frame.
   */
  lemma StartAppliesInOrder(steps: seq<Step>, r: ReqId)
    requires r in Reached(steps).calls && !Reached(steps).calls[r].isStop
    ensures var c := Reached(steps).calls[r];
            Lifecycles(c.taken) == AppliesIn(INIT, steps, r) + (if c.pc.Applying? then [LastTaken(c)] else [])
  {
    InitInv();
    RunIs(INIT, steps, r, Open, false, []);
    assert [] + AppliesIn(INIT, steps, r) == AppliesIn(INIT, steps, r);
    hide Exec, FateIn, FinishesIn, AppliesIn, Inv, Stands, Lifecycles;
  }

  // ---------------------------------------------------------- what a task was applied

  /** What a step applies to the environment for task `h`, unless the environment refuses it. */
  function AppliedBy(s: Host, step: Step, h: ReqId): seq<Body> {
    match step
    case Calling(r, ApplyAtStart(ok)) =>
      if r in s.calls && s.calls[r].pc.Applying? && s.calls[r].task == h && h in s.tasks
      then Taking(LastTaken(s.calls[r]).body, ok) else []
    case Pumping(ApplyIt(ok)) =>
      if s.pump.pc.Applies? && s.pump.req == h && h in s.tasks then Taking(LastFrame(s).body, ok) else []
    case _ => []
  }

  /** Outputs can be refused, flushes never; artifacts leave nothing behind here. */
  function Taking(body: Body, ok: bool): seq<Body> {
    match body
    case SetOutput(_, _) => if ok then [body] else []
    case MetricFlush(_) => [body]
    case _ => []
  }

  function AppliedIn(s: Host, steps: seq<Step>, h: ReqId): seq<Body>
    decreases |steps|
  {
    if steps == [] then [] else AppliedBy(s, steps[0], h) + AppliedIn(Next(s, steps[0]), steps[1..], h)
  }

  lemma CallApplies(t: Task, c: Call, a: CallStep)
    ensures TaskAct(t, c, a).applied
            == t.applied + (if a.ApplyAtStart? && c.pc.Applying? then Taking(LastTaken(c).body, a.ok) else [])
  {
    assert t.applied + [] == t.applied;
  }

  lemma CallStepApplies(s: Host, r: ReqId, a: CallStep, h: ReqId)
    requires Links(s)
    ensures var t := CallNext(s, r, a);
            && (h in s.tasks ==> h in t.tasks && t.tasks[h].applied == s.tasks[h].applied + AppliedBy(s, Calling(r, a), h))
            && (h !in s.tasks ==> AppliedBy(s, Calling(r, a), h) == [] && (h in t.tasks ==> t.tasks[h].applied == []))
  {
    if r in s.calls {
      hide CallNext, TasksAfter, AppliedBy;
      CallTables(s, r, a);
      CallTaskApplies(s, r, a, h);
    } else {
      UnknownCall(s, r, a);
      hide CallNext;
      if h in s.tasks { assert s.tasks[h].applied + [] == s.tasks[h].applied; }
    }
  }

  /** A call applies frames to the task it has enlisted, and to no other. */
  lemma CallTaskApplies(s: Host, r: ReqId, a: CallStep, h: ReqId)
    requires Links(s) && r in s.calls
    ensures var tasks := TasksAfter(s, s.calls[r], r, a);
            && (h in s.tasks ==> h in tasks && tasks[h].applied == s.tasks[h].applied + AppliedBy(s, Calling(r, a), h))
            && (h !in s.tasks ==> AppliedBy(s, Calling(r, a), h) == [] && (h in tasks ==> tasks[h].applied == []))
  {
    var c := s.calls[r];
    assert LinkOk(s, r);
    if c.task in s.tasks { CallApplies(s.tasks[c.task], c, a); }
    if h in s.tasks { assert s.tasks[h].applied + [] == s.tasks[h].applied; }
    hide TaskAct, LinkOk, Links;
  }

  /** A step of the read loop that applies nothing. */
  lemma IdleApplies(s: Host, a: PumpStep, h: ReqId)
    requires !a.ApplyIt? && !a.Read?
    ensures var t := PumpNext(s, a);
            t.tasks.Keys == s.tasks.Keys && (h in s.tasks ==> t.tasks[h].applied == s.tasks[h].applied)
  {
    hide Deliver, FailAll, NextTodo, Lists, NameOut, ShutsDown;
  }

  lemma ReadApplies(s: Host, f: Frame, h: ReqId)
    ensures var t := ReadFrame(s, f);
            t.tasks.Keys == s.tasks.Keys && (h in s.tasks ==> t.tasks[h].applied == s.tasks[h].applied)
  {
    hide ReadPump, RouteOf, Publishes;
  }

  /** The frame in hand is applied to its own task. */
  lemma PendingTaken(s: Host, ok: bool)
    requires s.pump.pc.Applies? && s.pump.req in s.tasks
    ensures var t, h := ApplyPending(s, ok), s.pump.req;
            && h in t.tasks && t.tasks == s.tasks[h := t.tasks[h]]
            && t.tasks[h].applied == s.tasks[h].applied + Taking(s.pump.frame.body, ok)
  {
    AppliedTask(s, ok);
    PendingBody(s, ok);
    hide ApplyPending, Taking;
  }

  lemma PendingBody(s: Host, ok: bool)
    requires s.pump.pc.Applies? && s.pump.req in s.tasks && s.pump.req in ApplyPending(s, ok).tasks
    ensures ApplyPending(s, ok).tasks[s.pump.req].applied
            == s.tasks[s.pump.req].applied + Taking(s.pump.frame.body, ok)
  {
    var p, t := s.pump, s.tasks[s.pump.req];
    if Rejects(p.frame, ok) {
      SteppedTo(s, p.req, t.(rejected := true),
                p.(pc := Cleans, todo := [p.req], cause := Failed("apply"), after := Resume), s.names, s.closed);
      NothingTaken(t, p.frame, ok);
    } else {
      var t' := if Publishes(p.frame.body) then t.(applied := t.applied + [p.frame.body]) else t;
      SteppedTo(s, p.req, t', p.(pc := Reading), s.names, s.closed);
      BodyTaken(t, t', p.frame, ok);
    }
    hide TaskStep, Taking, Publishes, Rejects;
  }

  lemma SteppedTo(s: Host, h: ReqId, t: Task, p: Pump, names: map<TaskId, ReqId>, closed: bool)
    ensures h in TaskStep(s, h, t, p, names, closed).tasks && TaskStep(s, h, t, p, names, closed).tasks[h] == t
  {
  }

  lemma NothingTaken(t: Task, f: Frame, ok: bool)
    requires Rejects(f, ok)
    ensures t.applied == t.applied + Taking(f.body, ok)
  {
  }

  lemma BodyTaken(t: Task, t': Task, f: Frame, ok: bool)
    requires !Rejects(f, ok) && t' == if Publishes(f.body) then t.(applied := t.applied + [f.body]) else t
    ensures t'.applied == t.applied + Taking(f.body, ok)
  {
    assert t.applied + [] == t.applied;
  }

  lemma NothingPending(s: Host, ok: bool)
    requires !(s.pump.pc.Applies? && s.pump.req in s.tasks)
    ensures ApplyPending(s, ok) == s
  {
  }

  lemma PendingApplies(s: Host, ok: bool, h: ReqId)
    requires s.pump.pc.Applies? ==> s.stream != [] && LastFrame(s) == s.pump.frame
    ensures var t := ApplyPending(s, ok);
            && t.tasks.Keys == s.tasks.Keys
            && (h in s.tasks ==> t.tasks[h].applied == s.tasks[h].applied + AppliedBy(s, Pumping(ApplyIt(ok)), h))
  {
    hide ApplyPending, Taking, LastFrame;
    if h in s.tasks { assert s.tasks[h].applied + [] == s.tasks[h].applied; }
    if s.pump.pc.Applies? && s.pump.req in s.tasks {
      PendingTaken(s, ok);
    } else {
      NothingPending(s, ok);
    }
  }

  lemma PumpStepApplies(s: Host, a: PumpStep, h: ReqId)
    requires PumpOk(s)
    ensures var t := PumpNext(s, a);
            && (h in s.tasks ==> h in t.tasks && t.tasks[h].applied == s.tasks[h].applied + AppliedBy(s, Pumping(a), h))
            && (h !in s.tasks ==> AppliedBy(s, Pumping(a), h) == [] && h !in t.tasks)
  {
    assert s.pump.pc.Applies? ==> s.stream != [] && LastFrame(s) == s.pump.frame;
    if h in s.tasks { assert s.tasks[h].applied + [] == s.tasks[h].applied; }
    hide PumpOk, ReadFrame, ApplyPending, DeliverFrame, SettleTask, CleanHead, CompleteHead, CollectTasks, FailAll, GiveUp,
         Taking, LastFrame;
    match a {
      case Read(f) => ReadApplies(s, f, h);
      case ApplyIt(ok) => PendingApplies(s, ok, h);
      case _ =>
        hide PumpNext;
        IdleApplies(s, a, h);
    }
  }

  lemma StepApplies(s: Host, step: Step, h: ReqId)
    requires Inv(s)
    ensures var t := Next(s, step);
            && (h in s.tasks ==> h in t.tasks && t.tasks[h].applied == s.tasks[h].applied + AppliedBy(s, step, h))
            && (h !in s.tasks ==> AppliedBy(s, step, h) == [] && (h in t.tasks ==> t.tasks[h].applied == []))
  {
    LinksAndPump(s);
    hide Inv, PumpNext, CallNext, Links, PumpOk, Idle, AppliedBy;
    match step {
      case Calling(r, a) => CallStepApplies(s, r, a, h);
      case Pumping(a) => PumpStepApplies(s, a, h);
      case _ => hide Next; OtherApplies(s, step, h);
    }
  }

  lemma OtherApplies(s: Host, step: Step, h: ReqId)
    requires !step.Calling? && !step.Pumping?
    ensures var t := Next(s, step);
            && AppliedBy(s, step, h) == []
            && (h in s.tasks ==> h in t.tasks && t.tasks[h].applied == s.tasks[h].applied + [])
            && (h !in s.tasks ==> h !in t.tasks)
  {
    if h in s.tasks { assert s.tasks[h].applied + [] == s.tasks[h].applied; }
  }

  lemma LinksAndPump(s: Host)
    requires Inv(s)
    ensures Links(s) && PumpOk(s)
  {
  }

  lemma {:induction false} RunApplies(s: Host, steps: seq<Step>, h: ReqId, before: seq<Body>)
    requires Inv(s) && h in Exec(s, steps).tasks
    requires before == if h in s.tasks then s.tasks[h].applied else []
    ensures Exec(s, steps).tasks[h].applied == before + AppliedIn(s, steps, h)
    decreases |steps|
  {
    hide Inv, Next, AppliedBy;
    if steps == [] {
      assert before + [] == before;
    } else {
      var t := Next(s, steps[0]);
      NextKeeps(s, steps[0]);
      StepApplies(s, steps[0], h);
      assert [] + AppliedBy(s, steps[0], h) == AppliedBy(s, steps[0], h);
      RunApplies(t, steps[1..], h, before + AppliedBy(s, steps[0], h));
      assert before + AppliedBy(s, steps[0], h) + AppliedIn(t, steps[1..], h)
          == before + (AppliedBy(s, steps[0], h) + AppliedIn(t, steps[1..], h));
    }
  }

  /**
    In every run, what was applied for a task is what its Start and the read loop applied,
    in order, refused outputs aside.
   */
  lemma AppliedIsTaken(steps: seq<Step>, h: ReqId)
    requires h in Reached(steps).tasks
    ensures Reached(steps).tasks[h].applied == AppliedIn(INIT, steps, h)
  {
    InitInv();
    RunApplies(INIT, steps, h, []);
    assert [] + AppliedIn(INIT, steps, h) == AppliedIn(INIT, steps, h);
    hide Exec, AppliedIn, Inv;
  }

  // ------------------------------------------------------------- when the client shuts

  /** What made the read loop fail everyone, or one task, last: a frame, its pipe, or the environment. */
  datatype Pass = OverFrame | OverPipe | OverTask

  /** Whether the client is shut, whether the read loop has left, and why it last gave up. */
  datatype Shut = Shut(closed: bool, left: bool, pass: Pass)

  /**
    The client is shut from outside, by a call that is cancelled with its request out or
    going out, or by the read loop once it has failed everyone because of a frame. The
    read loop leaves once it has failed everyone because of its pipe, and only then.
   */
  function ShutAfter(s: Host, step: Step, d: Shut): Shut {
    match step
    case Shutdown => d.(closed := true)
    case Calling(r, Cancel) =>
      if r in s.calls && (s.calls[r].pc.Sending? || s.calls[r].pc.Waiting?) then d.(closed := true) else d
    case Pumping(a) =>
      var before, after := Passing(s.pump.pc), Passing(Next(s, step).pump.pc);
      if before && !after then Shut(d.closed || d.pass.OverFrame?, d.left || d.pass.OverPipe?, d.pass)
      else if after && !before then d.(pass := if a.ReadError? then OverPipe else if a.ApplyIt? then OverTask else OverFrame)
      else d
    case _ => d
  }

  function ShutIn(s: Host, steps: seq<Step>, d: Shut): Shut
    decreases |steps|
  {
    if steps == [] then d else ShutIn(Next(s, steps[0]), steps[1..], ShutAfter(s, steps[0], d))
  }

  function PassOf(after: After): Pass {
    if after.Kill? then OverFrame else if after.Leave? then OverPipe else OverTask
  }

  ghost predicate ShutOk(s: Host, d: Shut) {
    && s.closed == d.closed && (s.pump.pc.Stopped? <==> d.left)
    && (Passing(s.pump.pc) ==> d.pass == PassOf(s.pump.after))
  }

  lemma PumpShut(s: Host, a: PumpStep, d: Shut)
    requires ShutOk(s, d) && PumpOk(s)
    ensures ShutOk(Next(s, Pumping(a)), ShutAfter(s, Pumping(a), d))
  {
    hide Deliver, FailOne, EventTask, HasEventTask, CompleteTask, CleanTask, ReadMark, Lists, Publishes, NameOut, FailAll, Rejects;
  }

  lemma StepShut(s: Host, step: Step, d: Shut)
    requires ShutOk(s, d) && PumpOk(s)
    ensures ShutOk(Next(s, step), ShutAfter(s, step, d))
  {
    if step.Pumping? {
      PumpShut(s, step.pump, d);
      hide ShutOk, PumpOk, Next, ShutAfter;
    } else {
      hide CallAct, TasksAfter, NamesAfter, SentBy, Idle;
    }
  }

  lemma {:induction false} RunShut(s: Host, steps: seq<Step>, d: Shut)
    requires Inv(s) && ShutOk(s, d)
    ensures ShutOk(Exec(s, steps), ShutIn(s, steps, d))
    decreases |steps|
  {
    hide Inv, ShutOk, Next, ShutAfter, PumpOk;
    if steps != [] {
      NextKeeps(s, steps[0]);
      LinksAndPump(s);
      StepShut(s, steps[0], d);
      RunShut(Next(s, steps[0]), steps[1..], ShutAfter(s, steps[0], d));
    }
  }

  const OPEN_CLIENT := Shut(false, false, OverTask)

  /** In every run, the client is shut, and the read loop gone, exactly when one of these has made it so. */
  lemma ShutExactlyWhen(steps: seq<Step>)
    ensures var d := ShutIn(INIT, steps, OPEN_CLIENT);
            Reached(steps).closed == d.closed && (Reached(steps).pump.pc.Stopped? <==> d.left)
  {
    InitInv();
    RunShut(INIT, steps, OPEN_CLIENT);
    hide Exec, ShutIn, Inv;
  }

  /**
    Where the read loop goes with a frame that is no event: to the call that waits for it,
    else, for an output, a flush or an artifact, to the task listed under its request;
    every other frame makes it fail everyone.
   */
  lemma FrameRoutes(s: Host, f: Frame)
    requires s.pump.pc.Reading? && !f.body.Event?
    ensures var p := Next(s, Pumping(Read(f))).pump;
            var waiting := f.req in s.calls && s.calls[f.req].box.registered;
            var wanted := f.req in s.tasks && s.tasks[f.req].listed && (f.body.SetOutput? || f.body.MetricFlush? || f.body.Artifact?);
            && (waiting ==> p.pc.Delivering? && p.req == f.req && p.frame == f)
            && (!waiting && wanted ==> p.pc.Applies? && p.req == f.req && p.frame == f)
            && (!waiting && !wanted ==> p.pc.FailingWaiters? && p.cause.Failed? && Next(s, Pumping(Read(f))).failed)
  {
    hide ReadMark;
  }

  /**
    When the read loop fails the waiters, each one that is registered is closed and hears of
    it if it has room; the others are left alone.
   */
  lemma GivingUpTellsWaiters(s: Host, r: ReqId)
    requires s.pump.pc.FailingWaiters? && r in s.calls
    ensures r in Next(s, Pumping(FailWaiters)).calls
    ensures var w, w' := s.calls[r].box, Next(s, Pumping(FailWaiters)).calls[r].box;
            && (w.registered ==>
                  && !w'.registered && w'.closed
                  && w'.queue == w.queue + (if |w.queue| < QUEUE_CAPACITY then [Broke] else []))
            && (!w.registered ==> w' == w)
  {
    assert s.calls[r].box.queue + [] == s.calls[r].box.queue;
  }
}
