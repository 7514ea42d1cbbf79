/**
  What a background task on the host is offered as the value of its Done channel
  (benchkit/pluginhost/stdio_client.go:385-427, 438-511, 633-650, 766-815): the causes
  of the events read for it, and of whoever finishes it, in the order in which they come.
 */
module Offers {
  import opened Outcomes
  import opened Wire
  import opened HostTables
  import opened HostMachine
  import opened HostGuarantees

  function LastFrame(s: Host): Frame {
    if s.stream == [] then NO_FRAME else s.stream[|s.stream| - 1]
  }

  /** The read loop is on its way through the tasks it fails. */
  predicate Passing(pc: PumpPc) {
    pc.FailingWaiters? || pc.Collecting? || pc.Cleans? || pc.Completes?
  }

  /**
    Why the read loop last gave up: the pipe failed, a queue was full, a frame was for
    nobody, or the environment refused one.
   */
  function GaveUp(steps: seq<Step>): Outcome {
    if steps == [] then Clean
    else
      var n := |steps| - 1;
      var s, t := Reached(steps[..n]), Reached(steps);
      match steps[n]
      case Pumping(ReadError(text)) => if s.pump.pc.Reading? then Failed(text) else GaveUp(steps[..n])
      case Pumping(Read(_)) =>
        if s.pump.pc.Reading? && t.pump.pc.FailingWaiters? then Failed("unexpected plugin frame") else GaveUp(steps[..n])
      case Pumping(DeliverIt(_)) =>
        if s.pump.pc.Delivering? && t.pump.pc.FailingWaiters? then Failed("plugin response queue full") else GaveUp(steps[..n])
      case Pumping(ApplyIt(_)) =>
        if s.pump.pc.Applies? && t.pump.pc.Cleans? then Failed("apply") else GaveUp(steps[..n])
      case _ => GaveUp(steps[..n])
  }

  /**
    What a step offers task `h`, `gaveUp` being why the read loop last gave up: the cause
    of the event just read, that reason, or how the call that finishes the task ended.
   */
  function OfferedBy(s: Host, step: Step, h: ReqId, gaveUp: Outcome): seq<Outcome> {
    match step
    case Pumping(Settle) =>
      if s.pump.pc.Settling? && s.pump.req == h && h in s.tasks && LastFrame(s).body.Event? then [LastFrame(s).body.cause] else []
    case Pumping(CompleteNext) =>
      if s.pump.pc.Completes? && s.pump.todo != [] && s.pump.todo[0] == h && h in s.tasks then [gaveUp] else []
    case Calling(r, Complete) =>
      if r in s.calls && s.calls[r].pc.Completing? && s.calls[r].task == h && h in s.tasks then [s.calls[r].cause] else []
    case _ => []
  }

  /** Everything a run offers task `h`, in order. */
  function OffersIn(steps: seq<Step>, h: ReqId): seq<Outcome> {
    if steps == [] then []
    else
      var front := steps[..|steps| - 1];
      OffersIn(front, h) + OfferedBy(Reached(front), steps[|steps| - 1], h, GaveUp(front))
  }

  /** A stop that succeeded finishes its task with nil, every other call with an error. */
  ghost predicate CauseOk(c: Call) {
    (c.pc.Cleaning? || c.pc.Completing?) ==>
      && (c.cause.Clean? <==> c.isStop && c.result.Success?)
      && (!c.isStop ==> c.cause == CLOSED_ERROR)
  }

  /** What the read loop has in hand is what it read, or why it gave up. */
  ghost predicate PumpCause(s: Host, gaveUp: Outcome) {
    && (s.pump.pc.Settling? ==> LastFrame(s).body.Event? && s.pump.cause == LastFrame(s).body.cause)
    && (Passing(s.pump.pc) ==> s.pump.cause == gaveUp && gaveUp.Failed?)
  }

  ghost predicate Causes(s: Host) {
    forall r :: r in s.calls ==> CauseOk(s.calls[r])
  }

  // ------------------------------------------------------------------------- calls

  lemma CallActCause(c: Call, failed: bool, n: nat, hostClosed: bool, a: CallStep)
    requires CauseOk(c) && PcOk(c, failed)
    ensures CauseOk(CallAct(c, n, hostClosed, a))
  {
    hide UnregisterOne;
    if a.Take? && c.pc.Waiting? {
      TakeCause(c);
      hide TakeNext;
    }
  }

  lemma TakeCause(c: Call)
    requires c.pc.Waiting?
    ensures CauseOk(TakeNext(c))
  {
  }

  lemma CallOffers(t: Task, c: Call, a: CallStep)
    ensures TaskAct(t, c, a).offers == t.offers + (if a.Complete? && c.pc.Completing? then [c.cause] else [])
  {
    assert t.offers + [] == t.offers;
  }

  lemma CallStepCauses(s: Host, r: ReqId, a: CallStep)
    requires Causes(s) && Calls(s) && r in s.calls
    ensures Causes(CallNext(s, r, a))
  {
    assert CallOk(s.calls[r], r, s.stream, s.pump, s.failed);
    CallActCause(s.calls[r], s.failed, |s.sent|, s.closed, a);
    CallsAfter(s, r, a);
    hide CallNext, CallAct, CallOk, CauseOk;
  }

  /** A call touches the offers of the task it has enlisted, and those only. */
  lemma CallTaskOffers(s: Host, r: ReqId, a: CallStep, h: ReqId, gaveUp: Outcome)
    requires r in s.calls
    ensures var tasks := TasksAfter(s, s.calls[r], r, a);
            && (h in s.tasks && !(s.calls[r].pc.Enlisting? && r == h) ==>
                  h in tasks && tasks[h].offers == s.tasks[h].offers + OfferedBy(s, Calling(r, a), h, gaveUp))
            && (h !in s.tasks && h in tasks ==> tasks[h].offers == [])
  {
    var c := s.calls[r];
    if c.task in s.tasks { CallOffers(s.tasks[c.task], c, a); }
    if h in s.tasks { SameOffers(s.tasks[h]); }
    hide TaskAct;
  }

  lemma CallStepOffers(s: Host, r: ReqId, a: CallStep, h: ReqId, gaveUp: Outcome)
    requires Causes(s) && Calls(s)
    ensures var t := CallNext(s, r, a);
            && Causes(t) && t.pump == s.pump && t.stream == s.stream
            && (h in s.tasks && !(r in s.calls && s.calls[r].pc.Enlisting? && r == h) ==>
                  h in t.tasks && t.tasks[h].offers == s.tasks[h].offers + OfferedBy(s, Calling(r, a), h, gaveUp))
            && (h !in s.tasks && h in t.tasks ==> t.tasks[h].offers == [])
  {
    if r in s.calls {
      CallStepCauses(s, r, a);
      CallsAfter(s, r, a);
      CallTables(s, r, a);
      CallTaskOffers(s, r, a, h, gaveUp);
      hide CallNext, TasksAfter, OfferedBy, Causes;
    } else {
      UnknownCall(s, r, a);
      if h in s.tasks { SameOffers(s.tasks[h]); }
      hide CallNext;
    }
  }

  // --------------------------------------------------------------------- the read loop

  /** What a step of the read loop does to one task's offers. */
  ghost predicate PumpOffers(s: Host, a: PumpStep, h: ReqId, gaveUp: Outcome) {
    h in s.tasks ==>
      && h in PumpNext(s, a).tasks
      && PumpNext(s, a).tasks[h].offers == s.tasks[h].offers + OfferedBy(s, Pumping(a), h, gaveUp)
  }

  lemma SameOffers(t: Task)
    ensures t.offers + [] == t.offers
  {
  }

  lemma ReadOffers(s: Host, f: Frame, h: ReqId)
    requires h in s.tasks
    ensures h in ReadFrame(s, f).tasks && ReadFrame(s, f).tasks[h].offers == s.tasks[h].offers
  {
    hide RouteOf, ReadPump, Publishes;
  }

  lemma ApplyOffers(s: Host, ok: bool, h: ReqId)
    requires h in s.tasks
    ensures h in ApplyPending(s, ok).tasks && ApplyPending(s, ok).tasks[h].offers == s.tasks[h].offers
  {
    hide ApplyPending;
    if s.pump.pc.Applies? && s.pump.req in s.tasks { AppliedTask(s, ok); } else { NothingApplied(s, ok); }
  }

  lemma HeadOffers(s: Host, h: ReqId)
    requires h in s.tasks
    ensures var p, t := s.pump, SettleTask(s);
            h in t.tasks && t.tasks[h].offers == s.tasks[h].offers + (if p.pc.Settling? && p.req == h then [p.cause] else [])
    ensures var t := CleanHead(s); h in t.tasks && t.tasks[h].offers == s.tasks[h].offers
    ensures var p, t := s.pump, CompleteHead(s);
            && h in t.tasks
            && t.tasks[h].offers
               == s.tasks[h].offers + (if p.pc.Completes? && p.todo != [] && p.todo[0] == h then [p.cause] else [])
  {
    hide NextTodo, NameOut;
    SameOffers(s.tasks[h]);
  }

  lemma PumpStepOffers(s: Host, a: PumpStep, h: ReqId, gaveUp: Outcome)
    requires PumpCause(s, gaveUp)
    ensures PumpOffers(s, a, h, gaveUp)
  {
    hide ReadFrame, DeliverFrame, SettleTask, ApplyPending, CleanHead, CompleteHead, CollectTasks, FailAll;
    if h in s.tasks {
      SameOffers(s.tasks[h]);
      match a
      case Read(f) => ReadOffers(s, f, h);
      case ApplyIt(ok) => ApplyOffers(s, ok, h);
      case Settle => HeadOffers(s, h);
      case CleanNext => HeadOffers(s, h);
      case CompleteNext => HeadOffers(s, h);
      case _ => OtherTouches(s, a);
    }
  }

  lemma ReadCause(s: Host, f: Frame, gaveUp: Outcome)
    requires PumpCause(s, gaveUp) && s.pump.pc.Reading?
    ensures var t := ReadFrame(s, f);
            PumpCause(t, if t.pump.pc.FailingWaiters? then Failed("unexpected plugin frame") else gaveUp)
  {
    hide ReadMark, EventTask, HasEventTask;
  }

  lemma DeliverCause(s: Host, keep: bool, gaveUp: Outcome)
    requires PumpCause(s, gaveUp)
    ensures var t := DeliverFrame(s, keep);
            PumpCause(t, if s.pump.pc.Delivering? && t.pump.pc.FailingWaiters? then Failed("plugin response queue full") else gaveUp)
  {
    hide Deliver;
  }

  lemma ApplyCause(s: Host, ok: bool, gaveUp: Outcome)
    requires PumpCause(s, gaveUp)
    ensures var t := ApplyPending(s, ok);
            PumpCause(t, if s.pump.pc.Applies? && t.pump.pc.Cleans? then Failed("apply") else gaveUp)
  {
    hide Rejects, Publishes;
  }

  /** The other steps go on with what the read loop has in hand, or put it down. */
  lemma OtherCause(s: Host, a: PumpStep, gaveUp: Outcome)
    requires PumpCause(s, gaveUp) && !a.Read? && !a.ReadError? && !a.DeliverIt? && !a.ApplyIt?
    ensures PumpCause(PumpNext(s, a), gaveUp)
  {
    hide ReadFrame, FailAll, Lists, NameOut, CleanTask, CompleteTask;
  }

  /** The reason kept is the reason given. */
  function GaveUpAfter(s: Host, a: PumpStep, gaveUp: Outcome): Outcome {
    var t := PumpNext(s, a);
    match a
    case ReadError(text) => if s.pump.pc.Reading? then Failed(text) else gaveUp
    case Read(_) => if s.pump.pc.Reading? && t.pump.pc.FailingWaiters? then Failed("unexpected plugin frame") else gaveUp
    case DeliverIt(_) =>
      if s.pump.pc.Delivering? && t.pump.pc.FailingWaiters? then Failed("plugin response queue full") else gaveUp
    case ApplyIt(_) => if s.pump.pc.Applies? && t.pump.pc.Cleans? then Failed("apply") else gaveUp
    case _ => gaveUp
  }

  lemma PumpStepCause(s: Host, a: PumpStep, gaveUp: Outcome)
    requires PumpCause(s, gaveUp)
    ensures PumpCause(PumpNext(s, a), GaveUpAfter(s, a, gaveUp))
  {
    hide ReadFrame, DeliverFrame, ApplyPending, SettleTask, CleanHead, CompleteHead, CollectTasks, FailAll;
    match a
    case Read(f) => if s.pump.pc.Reading? { ReadCause(s, f, gaveUp); }
    case ReadError(text) =>
    case DeliverIt(keep) => DeliverCause(s, keep, gaveUp);
    case ApplyIt(ok) => ApplyCause(s, ok, gaveUp);
    case _ => OtherCause(s, a, gaveUp);
  }

  // --------------------------------------------------------------------------- runs

  ghost predicate Ledger(steps: seq<Step>) {
    var s := Reached(steps);
    && Causes(s) && PumpCause(s, GaveUp(steps))
    && forall h :: h in s.tasks ==> s.tasks[h].offers == OffersIn(steps, h)
  }

  lemma {:induction false} RunLedger(steps: seq<Step>)
    ensures Ledger(steps)
    ensures forall h :: h !in Reached(steps).tasks ==> OffersIn(steps, h) == []
    decreases |steps|
  {
    if steps == [] {
    } else {
      var n := |steps| - 1;
      RunLedger(steps[..n]);
      ReachedInv(steps[..n]);
      LastStep(steps);
      hide Reached, Inv, Ledger;
      StepLedger(steps);
    }
  }

  lemma LastStep(steps: seq<Step>)
    requires steps != []
    ensures Reached(steps) == Next(Reached(steps[..|steps| - 1]), steps[|steps| - 1])
  {
    var n := |steps| - 1;
    ExecJoins(INIT, steps[..n], [steps[n]]);
    assert steps[..n] + [steps[n]] == steps && [steps[n]][1..] == [];
    hide Next;
    OneExec(Reached(steps[..n]), steps[n]);
  }

  lemma OneExec(s: Host, step: Step)
    ensures Exec(s, [step]) == Next(s, step)
  {
    hide Next;
    assert [step][1..] == [];
  }

  /** One step more: the tasks were offered what the step offers them, and the books are right again. */
  ghost predicate Follows(s: Host, a: Step, t: Host, gaveUp: Outcome, gaveUp': Outcome) {
    && Causes(t) && PumpCause(t, gaveUp')
    && (forall h :: h in s.tasks ==> h in t.tasks && t.tasks[h].offers == s.tasks[h].offers + OfferedBy(s, a, h, gaveUp))
    && (forall h :: h in t.tasks && h !in s.tasks ==> t.tasks[h].offers == [])
    && (forall h :: h !in s.tasks ==> OfferedBy(s, a, h, gaveUp) == [])
  }

  lemma CallFollows(s: Host, r: ReqId, a: CallStep, gaveUp: Outcome)
    requires Inv(s) && Causes(s) && PumpCause(s, gaveUp)
    ensures Follows(s, Calling(r, a), CallNext(s, r, a), gaveUp, gaveUp)
  {
    hide Inv, CallNext, Causes, PumpCause, Calls, Links, OfferedBy;
    CallsOf(s);
    var t := CallNext(s, r, a);
    forall h
      ensures h in s.tasks ==> h in t.tasks && t.tasks[h].offers == s.tasks[h].offers + OfferedBy(s, Calling(r, a), h, gaveUp)
      ensures h in t.tasks && h !in s.tasks ==> t.tasks[h].offers == []
      ensures h !in s.tasks ==> OfferedBy(s, Calling(r, a), h, gaveUp) == []
    {
      CallStepOffers(s, r, a, h, gaveUp);
      CallKeepsTasks(s, r, a, h, gaveUp);
    }
    CallStepOffers(s, r, a, 0, gaveUp);
    PumpCauseStays(s, t, gaveUp);
  }

  lemma PumpFollows(s: Host, a: PumpStep, gaveUp: Outcome)
    requires Causes(s) && PumpCause(s, gaveUp)
    ensures Follows(s, Pumping(a), PumpNext(s, a), gaveUp, GaveUpAfter(s, a, gaveUp))
  {
    hide PumpNext, Causes, PumpCause, GaveUpAfter;
    PumpStepCause(s, a, gaveUp);
    PumpCalls(s, a);
    SameProgress(s, a);
    forall h | h in s.tasks
      ensures PumpOffers(s, a, h, gaveUp)
    {
      PumpStepOffers(s, a, h, gaveUp);
    }
  }

  lemma OtherFollows(s: Host, a: Step, gaveUp: Outcome)
    requires !a.Calling? && !a.Pumping? && Causes(s) && PumpCause(s, gaveUp)
    ensures Follows(s, a, Next(s, a), gaveUp, gaveUp)
  {
    hide Causes, PumpCause, Next;
    BeginCauses(s, a);
    BeginTasks(s, a);
    PumpCauseStays(s, Next(s, a), gaveUp);
    forall h | h in s.tasks
      ensures s.tasks[h].offers + [] == s.tasks[h].offers
    {
    }
  }

  lemma StepLedger(steps: seq<Step>)
    requires steps != []
    requires var front := steps[..|steps| - 1];
             && Ledger(front) && Inv(Reached(front)) && Reached(steps) == Next(Reached(front), steps[|steps| - 1])
             && forall h :: h !in Reached(front).tasks ==> OffersIn(front, h) == []
    ensures Ledger(steps) && forall h :: h !in Reached(steps).tasks ==> OffersIn(steps, h) == []
  {
    hide Reached, Inv, OffersIn, GaveUp, Causes, PumpCause, CallNext, PumpNext, Idle, Follows, GaveUpAfter, OfferedBy;
    var front, a := steps[..|steps| - 1], steps[|steps| - 1];
    var s, gaveUp := Reached(front), GaveUp(front);
    OffersMore(steps);
    match a {
      case Calling(r, b) =>
        GaveUpCall(steps);
        CallFollows(s, r, b, gaveUp);
      case Pumping(b) =>
        GaveUpPump(steps);
        PumpFollows(s, b, gaveUp);
      case _ =>
        GaveUpCall(steps);
        OtherFollows(s, a, gaveUp);
    }
    FollowsLedger(steps, s, a, Reached(steps), gaveUp);
  }

  lemma FollowsLedger(steps: seq<Step>, s: Host, a: Step, t: Host, gaveUp: Outcome)
    requires steps != [] && s == Reached(steps[..|steps| - 1]) && t == Reached(steps) && gaveUp == GaveUp(steps[..|steps| - 1])
    requires Follows(s, a, t, gaveUp, GaveUp(steps))
    requires forall h :: OffersIn(steps, h) == OffersIn(steps[..|steps| - 1], h) + OfferedBy(s, a, h, gaveUp)
    requires forall h :: h in s.tasks ==> s.tasks[h].offers == OffersIn(steps[..|steps| - 1], h)
    requires forall h :: h !in s.tasks ==> OffersIn(steps[..|steps| - 1], h) == []
    ensures Ledger(steps) && forall h :: h !in t.tasks ==> OffersIn(steps, h) == []
  {
    hide Reached, OffersIn, GaveUp, Causes, PumpCause, OfferedBy;
  }

  lemma OffersMore(steps: seq<Step>)
    requires steps != []
    ensures var front := steps[..|steps| - 1];
            forall h :: OffersIn(steps, h)
                        == OffersIn(front, h) + OfferedBy(Reached(front), steps[|steps| - 1], h, GaveUp(front))
  {
    hide Reached, GaveUp, OfferedBy;
  }

  lemma CallsOf(s: Host)
    requires Inv(s)
    ensures Calls(s) && Links(s)
  {
  }

  lemma CallKeepsTasks(s: Host, r: ReqId, a: CallStep, h: ReqId, gaveUp: Outcome)
    requires Calls(s) && Links(s)
    ensures h in s.tasks ==> h in CallNext(s, r, a).tasks && !(r in s.calls && s.calls[r].pc.Enlisting? && r == h)
    ensures h !in s.tasks ==> OfferedBy(s, Calling(r, a), h, gaveUp) == []
  {
    if r in s.calls {
      assert LinkOk(s, r);
      CallTables(s, r, a);
    } else {
      UnknownCall(s, r, a);
    }
    hide CallNext, Calls, LinkOk;
  }

  lemma GaveUpCall(steps: seq<Step>)
    requires steps != [] && !steps[|steps| - 1].Pumping?
    ensures GaveUp(steps) == GaveUp(steps[..|steps| - 1])
  {
    hide Reached;
  }

  lemma GaveUpPump(steps: seq<Step>)
    requires steps != [] && steps[|steps| - 1].Pumping?
    requires Reached(steps) == Next(Reached(steps[..|steps| - 1]), steps[|steps| - 1])
    ensures var front := steps[..|steps| - 1];
            GaveUp(steps) == GaveUpAfter(Reached(front), steps[|steps| - 1].pump, GaveUp(front))
  {
    hide Reached, PumpNext;
  }

  lemma PumpCauseStays(s: Host, t: Host, gaveUp: Outcome)
    requires PumpCause(s, gaveUp) && t.pump == s.pump && t.stream == s.stream
    ensures PumpCause(t, gaveUp)
  {
  }

  lemma PumpCalls(s: Host, a: PumpStep)
    requires Causes(s)
    ensures Causes(PumpNext(s, a))
  {
    SameProgress(s, a);
    hide PumpNext;
    forall q | q in PumpNext(s, a).calls
      ensures CauseOk(PumpNext(s, a).calls[q])
    {
      assert CauseOk(s.calls[q]);
    }
  }

  lemma BeginCauses(s: Host, a: Step)
    requires Causes(s) && !a.Calling? && !a.Pumping?
    ensures Causes(Next(s, a))
  {
    hide Idle;
  }

  lemma BeginTasks(s: Host, a: Step)
    requires !a.Calling? && !a.Pumping?
    ensures Next(s, a).tasks == s.tasks && Next(s, a).pump == s.pump && Next(s, a).stream == s.stream
  {
    hide Idle;
  }

  /**
    In every run, what a task was offered is what the run's steps offer it: the causes of
    the events read for it, in stream order, and what those who finish it pass on.
   */
  lemma OffersAre(steps: seq<Step>, h: ReqId)
    requires h in Reached(steps).tasks
    ensures Reached(steps).tasks[h].offers == OffersIn(steps, h)
  {
    RunLedger(steps);
    hide Reached, OffersIn, GaveUp;
  }

  /** A task is offered nil only by an event that says so, or by a stop that succeeded. */
  lemma NilIsEarned(steps: seq<Step>, step: Step, h: ReqId)
    requires Clean in OfferedBy(Reached(steps), step, h, GaveUp(steps))
    ensures var s := Reached(steps);
            || (step == Pumping(Settle) && LastFrame(s).body.Event? && LastFrame(s).body.cause.Clean?)
            || (step.Calling? && s.calls[step.req].isStop && s.calls[step.req].result.Success?)
  {
    RunLedger(steps);
    hide Reached, GaveUp;
  }

  /** Where an event goes: to the task of that id, else to the one its request started, else nowhere. */
  lemma EventRoutes(s: Host, f: Frame)
    requires s.pump.pc.Reading? && f.body.Event?
    ensures var p, id := Next(s, Pumping(Read(f))).pump, f.body.task;
            if id != 0 && id in s.names then p.pc.Settling? && p.req == s.names[id]
            else if f.req in s.tasks && s.tasks[f.req].listed then p.pc.Settling? && p.req == f.req
            else p == s.pump
  {
    hide ReadMark;
  }
}
