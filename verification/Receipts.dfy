/**
  What the plugin server receives from a task's Done channel
  (sdk/go/wkbench/plugin/server.go:365-402): it is what the task sent, in order, and
  then nil values once the channel is closed; and it is what the server goes on to
  observe and announce.
 */
module Receipts {
  import opened Outcomes
  import opened Wire
  import opened ServerTasks
  import opened ServerMachine
  import opened ServerGuarantees

  // --------------------------------------------------------------- in the channel

  /** What task `id` sent on its Done channel in a run from `s`, as far as it was not `closed` then. */
  function Sends(s: Server, steps: seq<Step>, id: TaskId): seq<Outcome>
    decreases |steps|
  {
    if steps == [] then []
    else
      var rest := Sends(Next(s, steps[0]), steps[1..], id);
      match steps[0]
      case Done(i, DoneSend(err)) => if i == id && id in s.lives then [err] + rest else rest
      case Done(i, DoneClose) => if i == id && id in s.lives then [] else rest
      case _ => rest
  }

  /** Whether it closed the channel in that run. */
  predicate Shuts(s: Server, steps: seq<Step>, id: TaskId)
    decreases |steps|
  {
    steps != []
    && ((steps[0] == Done(id, DoneClose) && id in s.lives) || Shuts(Next(s, steps[0]), steps[1..], id))
  }

  /** What was received, with what is still in the channel, is what was sent; then nil values, after the close. */
  ghost predicate Passed(receipts: seq<Outcome>, items: seq<Outcome>, sent: seq<Outcome>, closed: bool) {
    if |receipts| <= |sent| then receipts + items == sent
    else closed && items == [] && sent <= receipts && forall i :: |sent| <= i < |receipts| ==> receipts[i].Clean?
  }

  lemma PassedTake(receipts: seq<Outcome>, c: Chan, sent: seq<Outcome>)
    requires Passed(receipts, c.items, sent, c.closed) && Receivable(c)
    ensures Passed(receipts + [Received(c)], AfterReceive(c).items, sent, c.closed) && AfterReceive(c).closed == c.closed
  {
    if c.items != [] { assert receipts + c.items == receipts + [c.items[0]] + c.items[1..]; }
  }

  lemma PassedSend(receipts: seq<Outcome>, items: seq<Outcome>, sent: seq<Outcome>, err: Outcome)
    requires Passed(receipts, items, sent, false)
    ensures Passed(receipts, items + [err], sent + [err], false)
  {
    assert receipts + (items + [err]) == receipts + items + [err];
  }

  lemma PassedClose(receipts: seq<Outcome>, items: seq<Outcome>, sent: seq<Outcome>, closed: bool)
    requires Passed(receipts, items, sent, closed)
    ensures Passed(receipts, items, sent, true)
  {
  }

  ghost predicate Fits(l: Life, sent: seq<Outcome>) {
    Passed(l.receipts, l.chan.items, sent, l.chan.closed)
  }

  /** A step that is not one of the task's own leaves its channel alone, but for a receive. */
  ghost predicate Receives(l: Life, l': Life) {
    || (l'.chan == l.chan && l'.receipts == l.receipts)
    || (Receivable(l.chan) && l'.chan == AfterReceive(l.chan) && l'.receipts == l.receipts + [Received(l.chan)])
  }

  lemma ReceivesFits(l: Life, l': Life, sent: seq<Outcome>)
    requires Receives(l, l') && Fits(l, sent)
    ensures Fits(l', sent) && l'.chan.closed == l.chan.closed
  {
    hide Passed;
    if Receivable(l.chan) { PassedTake(l.receipts, l.chan, sent); }
  }

  lemma StopReceives(l: Life, h: Handler, n: nat, broken: bool, a: StopStep)
    ensures Receives(l, StopAct(l, h, n, broken, a).life)
  {
  }

  lemma CloseReceives(l: Life, h: Handler, n: nat, broken: bool, a: CloseStep)
    ensures Receives(l, CloseAct(l, h, n, broken, a).life)
  {
    hide ObserveRecord, ClaimRecord, HaltRecord, Marshals;
  }

  lemma MonitorReceives(l: Life, id: TaskId, n: nat, broken: bool, a: MonitorStep)
    ensures Receives(l, MonitorAct(l, id, n, broken, a).0)
  {
    hide ObserveRecord, ClaimRecord, Marshals;
  }

  /** Reading a request touches no channel. */
  lemma ReadReceives(s: Server, r: Request, id: TaskId)
    ensures var t := ReadRequest(s, r);
            t.lives.Keys == s.lives.Keys && (id in s.lives ==> Receives(s.lives[id], t.lives[id]))
  {
    hide MarkStopping;
  }

  /** A new task has an empty channel. */
  lemma StoreReceives(s: Server, id: TaskId)
    requires Ids(s)
    ensures var t := StoreTask(s);
            && (id in s.lives ==> id in t.lives && t.lives[id] == s.lives[id])
            && (id in t.lives && id !in s.lives ==> t.lives[id] == NewLife(s.handler.req))
  {
  }

  lemma NewFits(req: ReqId)
    ensures Fits(NewLife(req), []) && !NewLife(req).chan.closed
  {
  }

  lemma StartedReceives(l: Life, h: Handler, n: nat, broken: bool)
    ensures Receives(l, StartedAct(l, h, n, broken).life)
  {
  }

  lemma StartReceives(s: Server, a: StartStep, id: TaskId)
    requires Ids(s)
    ensures id in s.lives ==> id in StartNext(s, a).lives && Receives(s.lives[id], StartNext(s, a).lives[id])
    ensures id in StartNext(s, a).lives && id !in s.lives ==> Fits(StartNext(s, a).lives[id], []) && !StartNext(s, a).lives[id].chan.closed
  {
    hide Ids, Receives, Fits, StoreTask, ReadRequest, Apply, StartedAct;
    if id in s.lives { NoReceipt(s.lives[id]); }
    NewFits(s.handler.req);
    match a
    case Read(r) => ReadReceives(s, r, id);
    case StartSucceeds => StoreReceives(s, id);
    case WriteStarted =>
      if s.handler.id in s.lives {
        StartedReceives(s.lives[s.handler.id], s.handler, |s.out|, s.broken);
        ApplyTo(s, s.handler.id, StartedAct(s.lives[s.handler.id], s.handler, |s.out|, s.broken), id);
      }
    case _ =>
  }

  lemma OtherReceives(s: Server, step: Step, id: TaskId)
    requires Ids(s) && !step.Done?
    ensures id in s.lives ==> id in Next(s, step).lives && Receives(s.lives[id], Next(s, step).lives[id])
    ensures id in Next(s, step).lives && id !in s.lives ==> Fits(Next(s, step).lives[id], []) && !Next(s, step).lives[id].chan.closed
  {
    hide StartNext, StopAct, CloseAct, MonitorAct, Apply, Ids, Receives, Fits;
    var h, n := s.handler, |s.out|;
    if id in s.lives { NoReceipt(s.lives[id]); }
    match step
    case Start(a) => StartReceives(s, a, id);
    case Stop(a) =>
      if h.id in s.lives {
        ApplyTo(s, h.id, StopAct(s.lives[h.id], h, n, s.broken, a), id);
        StopReceives(s.lives[h.id], h, n, s.broken, a);
      }
    case Close(a) =>
      if h.id in s.lives {
        ApplyTo(s, h.id, CloseAct(s.lives[h.id], h, n, s.broken, a), id);
        CloseReceives(s.lives[h.id], h, n, s.broken, a);
      }
    case Monitoring(i, a) =>
      if i in s.lives {
        var (l', fs) := MonitorAct(s.lives[i], i, n, s.broken, a);
        ApplyTo(s, i, Effect(l', h, fs), id);
        MonitorReceives(s.lives[i], i, n, s.broken, a);
      }
    case _ =>
  }

  lemma NoReceipt(l: Life)
    ensures Receives(l, l)
  {
  }

  lemma ApplyTo(s: Server, i: TaskId, e: Effect, id: TaskId)
    requires i in s.lives
    ensures Apply(s, i, e).lives == s.lives[i := e.life]
  {
  }

  lemma DoneFits(s: Server, i: TaskId, a: DoneStep, id: TaskId, sent: seq<Outcome>)
    requires id in s.lives && Fits(s.lives[id], sent)
    ensures var l, l' := s.lives[id], Next(s, Done(i, a)).lives[id];
            && id in Next(s, Done(i, a)).lives
            && Fits(l', if i == id && a.DoneSend? && !l.chan.closed then sent + [a.err] else sent)
            && l'.chan.closed == (l.chan.closed || (i == id && a.DoneClose?))
  {
    hide Passed;
    var l := s.lives[id];
    if i == id {
      if a.DoneSend? && !l.chan.closed { PassedSend(l.receipts, l.chan.items, sent, a.err); }
      if a.DoneClose? { PassedClose(l.receipts, l.chan.items, sent, l.chan.closed); }
    }
  }

  lemma NoTaskDone(s: Server, i: TaskId, a: DoneStep, id: TaskId)
    requires id !in s.lives
    ensures id !in Next(s, Done(i, a)).lives
  {
  }

  /** The channel of a task after a run, given what had been sent on it before. */
  lemma {:induction false} RunFits(s: Server, steps: seq<Step>, id: TaskId, sent: seq<Outcome>)
    requires Inv(s) && id in Exec(s, steps).lives
    requires if id in s.lives then Fits(s.lives[id], sent) else sent == []
    ensures var l := Exec(s, steps).lives[id];
            var closed := id in s.lives && s.lives[id].chan.closed;
            && Fits(l, if closed then sent else sent + Sends(s, steps, id))
            && l.chan.closed == (closed || Shuts(s, steps, id))
    decreases |steps|
  {
    hide Next, Inv, Fits, Receives, Ids;
    if steps == [] {
      assert sent + [] == sent;
    } else {
      var t := Next(s, steps[0]);
      NextKeeps(s, steps[0]);
      InvIds(s);
      var more := OwnSend(s, steps[0], id);
      assert sent + [] == sent && (id !in s.lives ==> more == []);
      if id in s.lives {
        if steps[0].Done? {
          DoneFits(s, steps[0].task, steps[0].done, id, sent);
        } else {
          OtherReceives(s, steps[0], id);
          ReceivesFits(s.lives[id], t.lives[id], sent);
        }
      } else if steps[0].Done? {
        NoTaskDone(s, steps[0].task, steps[0].done, id);
      } else {
        OtherReceives(s, steps[0], id);
      }
      RunFits(t, steps[1..], id, sent + more);
      SendsFirst(s, steps, id);
      assert sent + more + Sends(t, steps[1..], id) == sent + (more + Sends(t, steps[1..], id));
    }
  }

  lemma InvIds(s: Server)
    requires Inv(s)
    ensures Ids(s)
  {
  }

  /** What the step itself sends. */
  function OwnSend(s: Server, step: Step, id: TaskId): seq<Outcome> {
    match step
    case Done(i, DoneSend(err)) => if i == id && id in s.lives && !s.lives[id].chan.closed then [err] else []
    case _ => []
  }

  lemma SendsFirst(s: Server, steps: seq<Step>, id: TaskId)
    requires steps != []
    ensures var closing := steps[0] == Done(id, DoneClose) && id in s.lives;
            var rest := Sends(Next(s, steps[0]), steps[1..], id);
            (id in s.lives && s.lives[id].chan.closed)
            || Sends(s, steps, id) == if closing then [] else OwnSend(s, steps[0], id) + rest
  {
    hide Next;
  }

  /**
    In every run, what was received from a task's Done channel is what the task sent on
    it before closing it, in order, and then nil values once it is closed.
   */
  lemma ReceiptsAreSends(steps: seq<Step>, id: TaskId)
    requires id in Reached(steps).lives
    ensures var receipts, sent := Reached(steps).lives[id].receipts, Sends(INIT, steps, id);
            if |receipts| <= |sent| then receipts <= sent
            else Shuts(INIT, steps, id) && sent <= receipts && forall i :: |sent| <= i < |receipts| ==> receipts[i].Clean?
  {
    InitInv();
    RunFits(INIT, steps, id, []);
    assert [] + Sends(INIT, steps, id) == Sends(INIT, steps, id);
    hide Sends, Shuts, Exec;
  }

  // ------------------------------------------------------------------- in the server

  function Bag(xs: seq<Outcome>): multiset<Outcome> {
    multiset(xs)
  }

  lemma BagMore(xs: seq<Outcome>, x: Outcome)
    ensures Bag(xs + [x]) == Bag(xs) + multiset{x}
  {
  }

  /** What the stop handler has received and not yet observed. */
  function AtHandler(h: Handler, id: TaskId): multiset<Outcome> {
    if h.pc.Drained? && h.id == id then multiset{h.err} else multiset{}
  }

  /** What the monitor has received and not yet observed. */
  function AtMonitor(l: Life): multiset<Outcome> {
    if l.monitor.Consumed? then multiset{l.carried} else multiset{}
  }

  /** Whatever was received has been observed, or a receiver is about to: nothing lost, nothing made up. */
  ghost predicate Held(l: Life, h: Handler, id: TaskId) {
    (l.consumed <==> l.receipts != []) && Bag(l.receipts) == Bag(l.seen) + AtMonitor(l) + AtHandler(h, id)
  }

  ghost predicate AllHeld(s: Server) {
    forall id :: id in s.lives ==> Held(s.lives[id], s.handler, id)
  }

  /** Neither the receipts nor the observations change, nor what the monitor has in hand. */
  predicate SameReceipts(l: Life, l': Life) {
    && l'.receipts == l.receipts && l'.seen == l.seen && l'.consumed == l.consumed
    && l'.monitor.Consumed? == l.monitor.Consumed? && (l.monitor.Consumed? ==> l'.carried == l.carried)
  }

  /** Nor does what the handler has in hand of the task. */
  predicate SameHand(h: Handler, h': Handler, id: TaskId) {
    && (h'.pc.Drained? && h'.id == id <==> h.pc.Drained? && h.id == id)
    && (h.pc.Drained? && h.id == id ==> h'.err == h.err)
  }

  lemma SameHeld(l: Life, l': Life, h: Handler, h': Handler, id: TaskId)
    requires Held(l, h, id) && SameReceipts(l, l') && SameHand(h, h', id)
    ensures Held(l', h', id)
  {
    hide Bag;
  }

  lemma StopHeld(l: Life, h: Handler, n: nat, broken: bool, a: StopStep, id: TaskId)
    ensures var e := StopAct(l, h, n, broken, a); SameReceipts(l, e.life) && SameHand(h, e.handler, id)
  {
  }

  lemma StartedHeld(l: Life, h: Handler, n: nat, broken: bool, id: TaskId)
    requires l.monitor.Absent? && h.pc.Started?
    ensures var e := StartedAct(l, h, n, broken); SameReceipts(l, e.life) && SameHand(h, e.handler, id)
  {
  }

  /** The stop handler takes an item into its hands, or observes the one it has. */
  lemma CloseHeld(l: Life, h: Handler, n: nat, broken: bool, a: CloseStep)
    requires Held(l, h, h.id) && (h.pc.Drained? ==> l.listed)
    ensures var e := CloseAct(l, h, n, broken, a); Held(e.life, e.handler, h.id)
  {
    hide Bag;
    if a.DrainTake? && h.pc.Draining? && Receivable(l.chan) {
      BagMore(l.receipts, Received(l.chan));
      TakenHeld(l, h, Received(l.chan), h.(pc := Drained, err := Received(l.chan)));
    } else if a.DrainObserve? && h.pc.Drained? {
      BagMore(l.seen, h.err);
    } else {
      CloseSame(l, h, n, broken, a, h.id);
      SameHeld(l, CloseAct(l, h, n, broken, a).life, h, CloseAct(l, h, n, broken, a).handler, h.id);
    }
  }

  lemma TakenHeld(l: Life, h: Handler, x: Outcome, h': Handler)
    requires Held(l, h, h.id) && h.pc.Draining? && h'.pc.Drained? && h'.id == h.id && h'.err == x && x == Received(l.chan)
    ensures Held(Take(l), h', h.id)
  {
    BagMore(l.receipts, x);
    hide Bag;
  }

  lemma CloseSame(l: Life, h: Handler, n: nat, broken: bool, a: CloseStep, id: TaskId)
    requires (a.DrainTake? && h.pc.Draining? ==> !Receivable(l.chan)) && (a.DrainObserve? ==> !h.pc.Drained?)
    ensures var e := CloseAct(l, h, n, broken, a); SameReceipts(l, e.life) && SameHand(h, e.handler, id)
  {
    hide Marshals, Receivable;
  }

  /** Whatever the handler does for its task, it has nothing of another's in hand. */
  lemma CloseElsewhere(l: Life, h: Handler, n: nat, broken: bool, a: CloseStep, id: TaskId)
    requires id != h.id
    ensures SameHand(h, CloseAct(l, h, n, broken, a).handler, id)
  {
    hide Marshals;
  }

  lemma MonitorHeld(l: Life, h: Handler, id: TaskId, n: nat, broken: bool, a: MonitorStep)
    requires Held(l, h, id) && (l.monitor.Consumed? ==> l.listed)
    ensures Held(MonitorAct(l, id, n, broken, a).0, h, id)
  {
    hide Bag, Marshals, AtHandler;
    if a.MonitorTake? && l.monitor.Waiting? && Receivable(l.chan) {
      BagMore(l.receipts, Received(l.chan));
    } else if a.MonitorObserve? && l.monitor.Consumed? {
      BagMore(l.seen, l.carried);
    } else {
      MonitorSame(l, id, n, broken, a);
      SameHeld(l, MonitorAct(l, id, n, broken, a).0, h, h, id);
    }
  }

  lemma MonitorSame(l: Life, id: TaskId, n: nat, broken: bool, a: MonitorStep)
    requires (a.MonitorTake? && l.monitor.Waiting? ==> !Receivable(l.chan)) && (a.MonitorObserve? ==> !l.monitor.Consumed?)
    ensures SameReceipts(l, MonitorAct(l, id, n, broken, a).0)
  {
    hide Marshals, Receivable;
  }

  lemma DoneSame(l: Life, a: DoneStep)
    ensures SameReceipts(l, DoneAct(l, a))
  {
  }

  lemma LifeFacts(s: Server, id: TaskId)
    requires Inv(s) && id in s.lives
    ensures var l, h := s.lives[id], s.handler;
            && (l.monitor.Consumed? ==> l.listed) && (h.pc.Drained? && h.id == id ==> l.listed)
            && (h.pc.Started? && h.id == id ==> l.monitor.Absent?)
  {
    assert TaskOk(s.lives[id], s.handler, id);
  }

  lemma ReadSame(s: Server, r: Request, id: TaskId)
    requires id in s.lives
    ensures var t := ReadRequest(s, r);
            id in t.lives && SameReceipts(s.lives[id], t.lives[id]) && SameHand(s.handler, t.handler, id)
  {
    hide MarkStopping;
  }

  lemma StartHeld(s: Server, a: StartStep, id: TaskId)
    requires Inv(s) && id in s.lives && Held(s.lives[id], s.handler, id)
    ensures id in StartNext(s, a).lives && Held(StartNext(s, a).lives[id], StartNext(s, a).handler, id)
  {
    hide Inv, Held, Apply, ReadRequest, StoreTask, StartedAct, SameHand, SameReceipts;
    var l, h := s.lives[id], s.handler;
    NoChange(l);
    match a
    case Read(r) =>
      ReadSame(s, r, id);
      SameHeld(l, ReadRequest(s, r).lives[id], h, ReadRequest(s, r).handler, id);
    case WriteStarted =>
      if h.pc.Started? && h.id in s.lives {
        var e := StartedAct(s.lives[h.id], h, |s.out|, s.broken);
        LifeFacts(s, h.id);
        StartedHeld(s.lives[h.id], h, |s.out|, s.broken, id);
        HandlerAfter(s, h.id, e);
        ApplyTo(s, h.id, e, id);
        SameHeld(l, if id == h.id then e.life else l, h, e.handler, id);
      }
    case _ =>
      InvIds(s);
      StartSame(s, a, id);
      SameHeld(l, l, h, StartNext(s, a).handler, id);
  }

  lemma NoChange(l: Life)
    ensures SameReceipts(l, l)
  {
  }

  lemma HandlerAfter(s: Server, i: TaskId, e: Effect)
    requires i in s.lives
    ensures Apply(s, i, e).handler == e.handler
  {
  }

  lemma StartSame(s: Server, a: StartStep, id: TaskId)
    requires Ids(s) && id in s.lives && !a.Read? && !a.WriteStarted?
    ensures var t := StartNext(s, a);
            id in t.lives && t.lives[id] == s.lives[id] && SameHand(s.handler, t.handler, id)
  {
    hide Ids, StoreTask, WriteError, Apply, ReadRequest, StartedAct;
    if a.StartSucceeds? && s.handler.pc.InStart? {
      StoreSame(s, id);
    } else {
      ErrorSame(s);
    }
  }

  lemma ErrorSame(s: Server)
    ensures var t := WriteError(s); t.lives == s.lives && !t.handler.pc.Drained?
    ensures s.handler.pc.Reply? ==> !s.handler.pc.Drained?
  {
  }

  lemma StoreSame(s: Server, id: TaskId)
    requires Ids(s) && id in s.lives && s.handler.pc.InStart?
    ensures var t := StoreTask(s);
            id in t.lives && t.lives[id] == s.lives[id] && SameHand(s.handler, t.handler, id)
  {
    assert s.next + 1 !in s.lives;
    hide Ids, NewLife;
  }

  /** A new task has nothing received, and the handler has nothing of it. */
  lemma NewHeld(s: Server, step: Step, id: TaskId)
    requires Inv(s) && id !in s.lives && id in Next(s, step).lives
    ensures Held(Next(s, step).lives[id], Next(s, step).handler, id)
  {
    hide Inv, Held, Next;
    InvIds(s);
    NewTask(s, step, id);
    NothingHeld(s.handler.req, Next(s, step).handler, id);
  }

  lemma NothingHeld(req: ReqId, h: Handler, id: TaskId)
    requires h.pc.Started?
    ensures Held(NewLife(req), h, id)
  {
  }

  lemma NewTask(s: Server, step: Step, id: TaskId)
    requires Ids(s) && id !in s.lives && id in Next(s, step).lives
    ensures Next(s, step).lives[id] == NewLife(s.handler.req) && Next(s, step).handler.pc.Started?
  {
    hide Ids, StopAct, CloseAct, MonitorAct, DoneAct, StartNext, Apply;
    match step
    case Start(a) => StartedNew(s, a, id);
    case Stop(a) =>
      if s.handler.id in s.lives { ApplyTo(s, s.handler.id, StopAct(s.lives[s.handler.id], s.handler, |s.out|, s.broken, a), id); }
    case Close(a) =>
      if s.handler.id in s.lives { ApplyTo(s, s.handler.id, CloseAct(s.lives[s.handler.id], s.handler, |s.out|, s.broken, a), id); }
    case Monitoring(i, a) =>
      if i in s.lives {
        var (l, fs) := MonitorAct(s.lives[i], i, |s.out|, s.broken, a);
        ApplyTo(s, i, Effect(l, s.handler, fs), id);
      }
    case Done(i, a) => if i in s.lives { ApplyTo(s, i, Effect(DoneAct(s.lives[i], a), s.handler, []), id); }
    case _ =>
  }

  lemma StartedNew(s: Server, a: StartStep, id: TaskId)
    requires Ids(s) && id !in s.lives && id in StartNext(s, a).lives
    ensures StartNext(s, a).lives[id] == NewLife(s.handler.req) && StartNext(s, a).handler.pc.Started?
  {
    hide Ids, ReadRequest, StoreTask, Apply;
    match a
    case Read(r) => ReadReceives(s, r, id);
    case StartSucceeds =>
      StoreReceives(s, id);
      StoredHandler(s);
    case WriteStarted =>
      if s.handler.id in s.lives { ApplyTo(s, s.handler.id, StartedAct(s.lives[s.handler.id], s.handler, |s.out|, s.broken), id); }
    case _ =>
  }

  lemma StoredHandler(s: Server)
    ensures StoreTask(s).handler.pc.Started?
  {
  }

  lemma SameHandler(h: Handler, id: TaskId)
    ensures SameHand(h, h, id)
  {
  }

  lemma NextHeldAt(s: Server, step: Step, id: TaskId)
    requires Inv(s) && id in s.lives && Held(s.lives[id], s.handler, id)
    requires s.handler.id in s.lives ==> Held(s.lives[s.handler.id], s.handler, s.handler.id)
    ensures id in Next(s, step).lives && Held(Next(s, step).lives[id], Next(s, step).handler, id)
  {
    hide Inv, Held, Apply, StartNext, StopAct, CloseAct, MonitorAct, DoneAct, SameHand, SameReceipts, Refuse;
    var l, h, n := s.lives[id], s.handler, |s.out|;
    NoChange(l);
    SameHandler(h, id);
    LifeFacts(s, id);
    match step
    case Start(a) => StartHeld(s, a, id);
    case Stop(a) =>
      if h.id in s.lives {
        var e := StopAct(s.lives[h.id], h, n, s.broken, a);
        ApplyTo(s, h.id, e, id);
        HandlerAfter(s, h.id, e);
        StopHeld(s.lives[h.id], h, n, s.broken, a, id);
        SameHeld(l, if id == h.id then e.life else l, h, e.handler, id);
      }
    case Close(a) =>
      if h.id in s.lives {
        var e := CloseAct(s.lives[h.id], h, n, s.broken, a);
        ApplyTo(s, h.id, e, id);
        HandlerAfter(s, h.id, e);
        LifeFacts(s, h.id);
        if id == h.id {
          CloseHeld(l, h, n, s.broken, a);
        } else {
          CloseElsewhere(s.lives[h.id], h, n, s.broken, a, id);
          SameHeld(l, l, h, e.handler, id);
        }
      }
    case Monitoring(i, a) =>
      if i in s.lives {
        var (l', fs) := MonitorAct(s.lives[i], i, n, s.broken, a);
        ApplyTo(s, i, Effect(l', h, fs), id);
        HandlerAfter(s, i, Effect(l', h, fs));
        if i == id { MonitorHeld(l, h, id, n, s.broken, a); }
      }
    case Done(i, a) =>
      if i in s.lives {
        ApplyTo(s, i, Effect(DoneAct(s.lives[i], a), h, []), id);
        HandlerAfter(s, i, Effect(DoneAct(s.lives[i], a), h, []));
        DoneSame(s.lives[i], a);
        if i == id { SameHeld(l, DoneAct(l, a), h, h, id); }
      }
    case Unsupported(req) =>
      RefuseSame(s, req, id);
      SameHeld(l, l, h, Refuse(s, req).handler, id);
    case _ =>
  }

  lemma RefuseSame(s: Server, req: ReqId, id: TaskId)
    ensures Refuse(s, req).lives == s.lives && SameHand(s.handler, Refuse(s, req).handler, id)
  {
  }

  lemma NextHeld(s: Server, step: Step)
    requires Inv(s) && AllHeld(s)
    ensures AllHeld(Next(s, step))
  {
    hide Inv, Held, Next;
    forall id | id in Next(s, step).lives
      ensures Held(Next(s, step).lives[id], Next(s, step).handler, id)
    {
      if id in s.lives { NextHeldAt(s, step, id); } else { NewHeld(s, step, id); }
    }
  }

  lemma {:induction false} ExecHeld(s: Server, steps: seq<Step>)
    requires Inv(s) && AllHeld(s)
    ensures AllHeld(Exec(s, steps))
    decreases |steps|
  {
    hide Inv, AllHeld, Next;
    if steps != [] {
      NextKeeps(s, steps[0]);
      NextHeld(s, steps[0]);
      ExecHeld(Next(s, steps[0]), steps[1..]);
    }
  }

  /**
    Whatever was received from a task's Done channel is observed, once, or in the hands
    of the receiver that is about to; and nothing else is ever observed.
   */
  lemma ReceiptsAreObserved(steps: seq<Step>, id: TaskId)
    requires id in Reached(steps).lives
    ensures Held(Reached(steps).lives[id], Reached(steps).handler, id)
  {
    InitInv();
    ExecHeld(INIT, steps);
    hide Held, Exec;
  }

  lemma ObservedIsReceived(l: Life, h: Handler, id: TaskId, x: Outcome)
    requires Held(l, h, id) && x in l.seen
    ensures x in l.receipts
  {
    assert x in Bag(l.seen) && x in Bag(l.receipts);
  }

  lemma TerminalIsSent(steps: seq<Step>, id: TaskId)
    requires id in Reached(steps).lives && Reached(steps).lives[id].announced != []
    ensures var x, sent := Reached(steps).lives[id].announced[0], Sends(INIT, steps, id);
            x in sent || (x.Clean? && Shuts(INIT, steps, id) && |Reached(steps).lives[id].receipts| > |sent|)
  {
    hide Reached, Sends, Shuts, Held;
    var l := Reached(steps).lives[id];
    TerminalEventOnce(steps, id);
    ReceiptsAreObserved(steps, id);
    ObservedIsReceived(l, Reached(steps).handler, id, l.seen[0]);
    ReceiptsAreSends(steps, id);
    var i :| 0 <= i < |l.receipts| && l.receipts[i] == l.seen[0];
  }

  /** A task that sent one error and had one value received can only be announced with that error. */
  lemma ErrorIsAnnounced(steps: seq<Step>, id: TaskId, text: string)
    requires id in Reached(steps).lives && Reached(steps).lives[id].announced != []
    requires Sends(INIT, steps, id) == [Failed(text)] && |Reached(steps).lives[id].receipts| == 1
    ensures Reached(steps).lives[id].announced == [Failed(text)]
  {
    hide Reached, Sends, Shuts;
    TerminalEventOnce(steps, id);
    TerminalIsSent(steps, id);
  }

  // ------------------------------------------------------------ nothing is passed over

  /** The stop handler finds nothing in a Done channel only if everything sent so far was received and it is open. */
  lemma DrainMissesNothing(steps: seq<Step>)
    requires Reached(steps).handler.pc.Draining? && Reached(steps).handler.id in Reached(steps).lives
    requires Next(Reached(steps), Close(DrainNothing)).handler.pc != Draining
    ensures var id := Reached(steps).handler.id;
            Reached(steps).lives[id].receipts == Sends(INIT, steps, id) && !Shuts(INIT, steps, id)
  {
    var s := Reached(steps);
    assert !Receivable(s.lives[s.handler.id].chan);
    InitInv();
    RunFits(INIT, steps, s.handler.id, []);
    assert [] + Sends(INIT, steps, s.handler.id) == Sends(INIT, steps, s.handler.id);
    hide Sends, Shuts, Exec;
    assert s.lives[s.handler.id].receipts + [] == s.lives[s.handler.id].receipts;
  }

  /** A monitor leaves only after an observation, or because the stop handler asks it to. */
  predicate LeaveOk(l: Life) {
    && (l.monitor.Exited? ==> l.record.monitorStopped || l.seen != [])
    && (l.monitor.Claiming? ==> l.seen != [])
  }

  lemma StopLeave(l: Life, h: Handler, n: nat, broken: bool, a: StopStep)
    requires LeaveOk(l)
    ensures LeaveOk(StopAct(l, h, n, broken, a).life)
  {
  }

  lemma CloseLeave(l: Life, h: Handler, n: nat, broken: bool, a: CloseStep)
    requires LeaveOk(l)
    ensures LeaveOk(CloseAct(l, h, n, broken, a).life)
  {
    hide Marshals;
  }

  lemma MonitorLeaves(l: Life, role: Pc, err: Outcome, id: TaskId, n: nat, broken: bool, a: MonitorStep)
    requires LeaveOk(l) && PhaseOk(l, role) && EventOk(l, role, err)
    ensures LeaveOk(MonitorAct(l, id, n, broken, a).0)
  {
    hide Marshals;
  }

  lemma StartLeaves(s: Server, a: StartStep, id: TaskId)
    requires Ids(s) && id in StartNext(s, a).lives && (id in s.lives ==> LeaveOk(s.lives[id]))
    ensures LeaveOk(StartNext(s, a).lives[id])
  {
    hide Ids, StoreTask, ReadRequest, Apply;
    match a
    case Read(r) => ReadLeaves(s, r, id);
    case StartSucceeds => StoreReceives(s, id);
    case WriteStarted =>
      if s.handler.id in s.lives {
        ApplyTo(s, s.handler.id, StartedAct(s.lives[s.handler.id], s.handler, |s.out|, s.broken), id);
      }
    case _ =>
  }

  lemma ReadLeaves(s: Server, r: Request, id: TaskId)
    requires id in ReadRequest(s, r).lives && (id in s.lives ==> LeaveOk(s.lives[id]))
    ensures LeaveOk(ReadRequest(s, r).lives[id])
  {
  }

  lemma StepLeaves(s: Server, step: Step, id: TaskId)
    requires Ids(s) && Tasks(s) && id in Next(s, step).lives && (id in s.lives ==> LeaveOk(s.lives[id]))
    ensures LeaveOk(Next(s, step).lives[id])
  {
    hide StartNext, StopAct, CloseAct, MonitorAct, Apply, Ids, LeaveOk, EventOk, PhaseOk;
    var h, n := s.handler, |s.out|;
    match step
    case Start(a) => StartLeaves(s, a, id);
    case Stop(a) =>
      if h.id in s.lives {
        ApplyTo(s, h.id, StopAct(s.lives[h.id], h, n, s.broken, a), id);
        if id == h.id { StopLeave(s.lives[h.id], h, n, s.broken, a); }
      }
    case Close(a) =>
      if h.id in s.lives {
        ApplyTo(s, h.id, CloseAct(s.lives[h.id], h, n, s.broken, a), id);
        if id == h.id { CloseLeave(s.lives[h.id], h, n, s.broken, a); }
      }
    case Monitoring(i, a) =>
      if i in s.lives {
        ApplyTo(s, i, Effect(MonitorAct(s.lives[i], i, n, s.broken, a).0, h, MonitorAct(s.lives[i], i, n, s.broken, a).1), id);
        if id == i { MonitorLeaves(s.lives[i], Role(h, i), h.err, i, n, s.broken, a); }
      }
    case Done(i, a) =>
      if i in s.lives {
        ApplyTo(s, i, Effect(DoneAct(s.lives[i], a), h, []), id);
        if id == i { DoneLeaves(s.lives[i], a); }
      }
    case _ =>
  }

  lemma DoneLeaves(l: Life, a: DoneStep)
    requires LeaveOk(l)
    ensures LeaveOk(DoneAct(l, a))
  {
  }

  lemma {:induction false} ExecLeaves(s: Server, steps: seq<Step>, id: TaskId)
    requires Inv(s) && id in Exec(s, steps).lives && (id in s.lives ==> LeaveOk(s.lives[id]))
    ensures LeaveOk(Exec(s, steps).lives[id])
    decreases |steps|
  {
    hide Inv, LeaveOk, Next, Ids, Tasks;
    if steps != [] {
      NextKeeps(s, steps[0]);
      InvTasks(s);
      var t := Next(s, steps[0]);
      if id in t.lives { StepLeaves(s, steps[0], id); }
      ExecLeaves(t, steps[1..], id);
    }
  }

  lemma InvTasks(s: Server)
    requires Inv(s)
    ensures Ids(s) && Tasks(s)
  {
  }

  /**
    In every run, a monitor that has left has observed its task's end, or was asked to
    leave by the stop handler; and a task that is removed was announced if anything was
    received from it.
   */
  lemma NothingIsForgotten(steps: seq<Step>, id: TaskId)
    requires id in Reached(steps).lives
    ensures var l := Reached(steps).lives[id];
            && (l.monitor.Exited? ==> l.record.monitorStopped || l.seen != [])
            && (!l.listed && l.receipts != [] ==> l.announced != [])
  {
    InitInv();
    ExecLeaves(INIT, steps, id);
    ExecKeeps(INIT, steps);
    ReceiptsAreObserved(steps, id);
    InvTasks(Reached(steps));
    hide Inv, Exec, Ids;
    RemovedIsAnnounced(Reached(steps).lives[id], Reached(steps).handler, id);
  }

  lemma RemovedIsAnnounced(l: Life, h: Handler, id: TaskId)
    requires Held(l, h, id) && TaskOk(l, h, id)
    ensures !l.listed && l.receipts != [] ==> l.announced != []
  {
  }
}
