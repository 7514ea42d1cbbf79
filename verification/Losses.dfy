/**
  What becomes of the calls in flight when the read loop finds nobody for a frame
  (benchkit/pluginhost/stdio_client.go:139-146, 633-650): their waiters are failed,
  and the transport is shut down before another frame is read. So no stop call can
  still succeed after a publication of its task was lost.
 */
module Losses {
  import opened Wire
  import opened HostTables
  import opened Session
  import S = ServerMachine
  import H = HostMachine
  import HG = HostGuarantees

  // ------------------------------------------------------------------ on the host

  /** The read loop is failing everyone, and will shut the client down. */
  predicate Passing(p: H.Pump) {
    p.after.Kill? && (p.pc.FailingWaiters? || p.pc.Collecting? || p.pc.Cleans? || p.pc.Completes?)
  }

  ghost predicate Shut(s: H.Host, nobody: set<nat>) {
    && (nobody != {} ==> s.closed || Passing(s.pump))
    && (forall j :: j in nobody ==> j < |s.stream| && (|s.stream| > j + 1 ==> s.closed))
  }

  /** A waiter that was there when frame `j` found nobody gets nothing after it. */
  ghost predicate Cut(c: H.Call, r: ReqId, stream: seq<Frame>, p: H.Pump, j: nat) {
    j < |stream| && c.since <= j ==>
      && (c.box.registered ==> p.pc.FailingWaiters? && |stream| == j + 1)
      && H.Handing(p, r) == []
      && |H.Frames(c.box.queued)| <= |Addressed(stream[..j], c.since, r)|
  }

  /** A call that began once another frame had been read sends nothing. */
  ghost predicate Late(c: H.Call, j: nat) {
    c.since > j + 1 ==> c.sent.Unsent?
  }

  ghost predicate Cuts(s: H.Host, nobody: set<nat>) {
    forall j, r :: j in nobody && r in s.calls ==>
      Cut(s.calls[r], r, s.stream, s.pump, j) && Late(s.calls[r], j)
  }

  /** An answer for a request whose waiter was cut finds nobody either. */
  ghost predicate Orphaned(s: H.Host, nobody: set<nat>) {
    forall i, j :: j in nobody && j < i < |s.stream| && Orphan(s, i, j) ==> i in nobody
  }

  ghost predicate Orphan(s: H.Host, i: nat, j: nat)
    requires i < |s.stream|
  {
    var f := s.stream[i];
    (f.body.Error? || f.body.StopResponse?) && f.req in s.calls && s.calls[f.req].since <= j
  }

  ghost predicate LostAt(s: H.Host, nobody: set<nat>, h: ReqId, j: nat) {
    j in nobody && j < |s.stream| && s.stream[j].req == h && Publishes(s.stream[j].body)
  }

  /** A task that lost a publication lost it at such a frame. */
  ghost predicate Losing(s: H.Host, nobody: set<nat>) {
    forall h :: h in s.tasks && s.tasks[h].lost ==> exists j :: LostAt(s, nobody, h, j)
  }

  ghost predicate HostSide(s: H.Host, nobody: set<nat>) {
    Shut(s, nobody) && Cuts(s, nobody) && Orphaned(s, nobody) && Losing(s, nobody)
  }

  // ---- steps of the host

  /** What a step has to respect that reads no frame. */
  ghost predicate Still(s: H.Host, t: H.Host) {
    && t.stream == s.stream && (s.closed ==> t.closed)
    && (Passing(s.pump) ==> t.closed || Passing(t.pump))
    && (forall r :: r in s.calls ==> r in t.calls && CallStill(s, s.calls[r], t.calls[r], t.pump, r))
    && (forall r :: r in t.calls && r !in s.calls ==> t.calls[r].since == |s.stream| && t.calls[r].sent.Unsent?)
    && (forall h :: h in t.tasks && t.tasks[h].lost ==> h in s.tasks && s.tasks[h].lost)
  }

  ghost predicate CallStill(s: H.Host, c: H.Call, c': H.Call, p: H.Pump, r: ReqId) {
    && c'.since == c.since && (c'.box.registered ==> c.box.registered)
    && (c.box.registered && s.pump.pc.FailingWaiters? ==> !c'.box.registered || p.pc.FailingWaiters?)
    && (H.Handing(s.pump, r) == [] ==> H.Handing(p, r) == [] && H.Frames(c'.box.queued) == H.Frames(c.box.queued))
    && (s.closed && c.sent.Unsent? ==> c'.sent.Unsent?)
  }

  lemma StillCuts(s: H.Host, t: H.Host, nobody: set<nat>)
    requires Still(s, t) && Shut(s, nobody) && Cuts(s, nobody) && H.Calls(s)
    ensures Cuts(t, nobody)
  {
    hide H.Frames, H.Handing, Addressed;
    forall j, r | j in nobody && r in t.calls
      ensures Cut(t.calls[r], r, t.stream, t.pump, j) && Late(t.calls[r], j)
    {
      if r in s.calls {
        Since(s, r);
        assert Cut(s.calls[r], r, s.stream, s.pump, j) && Late(s.calls[r], j);
        assert CallStill(s, s.calls[r], t.calls[r], t.pump, r);
      }
    }
  }

  lemma Since(s: H.Host, r: ReqId)
    requires H.Calls(s) && r in s.calls
    ensures s.calls[r].since <= |s.stream|
  {
    OneCall(s, r);
  }

  lemma StillKeeps(s: H.Host, t: H.Host, nobody: set<nat>)
    requires Still(s, t) && HostSide(s, nobody) && H.Calls(s)
    ensures HostSide(t, nobody)
  {
    StillCuts(s, t, nobody);
    hide Cuts, Cut, H.Calls, CallStill;
    assert Shut(t, nobody);
    StillOrphaned(s, t, nobody);
    StillLosing(s, t, nobody);
  }

  lemma StillOrphaned(s: H.Host, t: H.Host, nobody: set<nat>)
    requires Still(s, t) && Orphaned(s, nobody) && Shut(s, nobody)
    ensures Orphaned(t, nobody)
  {
    forall i, j | j in nobody && j < i < |t.stream| && Orphan(t, i, j)
      ensures i in nobody
    {
      assert t.stream[i].req in s.calls;
      assert Orphan(s, i, j);
    }
  }

  lemma StillLosing(s: H.Host, t: H.Host, nobody: set<nat>)
    requires Still(s, t) && Losing(s, nobody)
    ensures Losing(t, nobody)
  {
    forall h | h in t.tasks && t.tasks[h].lost
      ensures exists j :: LostAt(t, nobody, h, j)
    {
      var j :| LostAt(s, nobody, h, j);
      assert LostAt(t, nobody, h, j);
    }
  }

  lemma CallIsStill(s: H.Host, r: ReqId, a: H.CallStep)
    requires r in s.calls
    ensures Still(s, H.CallNext(s, r, a))
  {
    CallActStill(s, s.calls[r], r, a);
    CallTasks(s, r, a);
    H.CallsAfter(s, r, a);
    hide H.CallAct, H.TasksAfter, H.NamesAfter, H.SentBy, H.Frames, H.Handing;
  }

  lemma CallActStill(s: H.Host, c: H.Call, r: ReqId, a: H.CallStep)
    ensures CallStill(s, c, H.CallAct(c, |s.sent|, s.closed, a), s.pump, r)
  {
    hide H.TakeNext, H.Frames, H.Handing;
    if a.Take? && c.pc.Waiting? {
      H.TakeShape(c);
      TakeSent(c);
    }
  }

  lemma TakeSent(c: H.Call)
    requires c.pc.Waiting?
    ensures H.TakeNext(c).sent == c.sent
  {
  }

  lemma CallTasks(s: H.Host, r: ReqId, a: H.CallStep)
    requires r in s.calls
    ensures var t := H.CallNext(s, r, a);
            forall h :: h in t.tasks && t.tasks[h].lost ==> h in s.tasks && s.tasks[h].lost
  {
    var c := s.calls[r];
    if c.task in s.tasks { H.TaskActFields(c, s.tasks[c.task], a); }
    hide H.TaskAct, H.CallAct, H.NamesAfter, H.SentBy, Published;
  }

  lemma PumpIsStill(s: H.Host, a: H.PumpStep)
    requires !(a.Read? && s.pump.pc.Reading?)
    ensures Still(s, H.PumpNext(s, a))
  {
    hide H.PumpNext, Passing, CallStill;
    PumpStream(s, a);
    PumpPasses(s, a);
    HG.SameProgress(s, a);
    forall r | r in s.calls
      ensures CallStill(s, s.calls[r], H.PumpNext(s, a).calls[r], H.PumpNext(s, a).pump, r)
    {
      PumpCallStill(s, a, r);
    }
    forall h | h in s.tasks
      ensures H.PumpNext(s, a).tasks[h].lost ==> s.tasks[h].lost
    {
      PumpLoses(s, a, h);
    }
  }

  lemma PumpPasses(s: H.Host, a: H.PumpStep)
    requires !(a.Read? && s.pump.pc.Reading?)
    ensures var t := H.PumpNext(s, a); (s.closed ==> t.closed) && (Passing(s.pump) ==> t.closed || Passing(t.pump))
  {
    hide H.ReadFrame, Deliver, H.FailAll, H.Lists, H.Rejects, NameOut, CleanTask, CompleteTask, Publishes;
  }

  lemma PumpLoses(s: H.Host, a: H.PumpStep, h: ReqId)
    requires h in s.tasks && !(a.Read? && s.pump.pc.Reading?)
    ensures h in H.PumpNext(s, a).tasks && (H.PumpNext(s, a).tasks[h].lost ==> s.tasks[h].lost)
  {
    hide H.ReadFrame, H.DeliverFrame, H.SettleTask, H.ApplyPending, H.CleanHead, H.CompleteHead, H.CollectTasks, H.FailAll;
    match a
    case ApplyIt(ok) => ApplyLoses(s, ok, h);
    case Settle => HeadLoses(s, h);
    case CleanNext => HeadLoses(s, h);
    case CompleteNext => HeadLoses(s, h);
    case Read(_) =>
    case _ => HG.OtherTouches(s, a);
  }

  lemma ApplyLoses(s: H.Host, ok: bool, h: ReqId)
    requires h in s.tasks
    ensures h in H.ApplyPending(s, ok).tasks && H.ApplyPending(s, ok).tasks[h].lost == s.tasks[h].lost
  {
    hide H.Rejects;
  }

  lemma HeadLoses(s: H.Host, h: ReqId)
    requires h in s.tasks
    ensures h in H.SettleTask(s).tasks && H.SettleTask(s).tasks[h].lost == s.tasks[h].lost
    ensures h in H.CleanHead(s).tasks && H.CleanHead(s).tasks[h].lost == s.tasks[h].lost
    ensures h in H.CompleteHead(s).tasks && H.CompleteHead(s).tasks[h].lost == s.tasks[h].lost
  {
    hide H.NextTodo, NameOut;
  }

  lemma PumpCallStill(s: H.Host, a: H.PumpStep, r: ReqId)
    requires r in s.calls && !(a.Read? && s.pump.pc.Reading?)
    ensures r in H.PumpNext(s, a).calls
    ensures CallStill(s, s.calls[r], H.PumpNext(s, a).calls[r], H.PumpNext(s, a).pump, r)
  {
    if a.DeliverIt? {
      DeliverStill(s, a.keep, r);
    } else if a.FailWaiters? {
      FailStill(s, r);
    } else {
      HG.SameCalls(s, a);
      PumpMoves(s, a);
      hide H.PumpNext, H.Frames;
    }
  }

  lemma DeliverStill(s: H.Host, keep: bool, r: ReqId)
    requires r in s.calls
    ensures var t := H.DeliverFrame(s, keep); r in t.calls && CallStill(s, s.calls[r], t.calls[r], t.pump, r)
  {
    hide H.Frames;
  }

  lemma FailStill(s: H.Host, r: ReqId)
    requires r in s.calls
    ensures var t := H.PumpNext(s, H.FailWaiters); r in t.calls && CallStill(s, s.calls[r], t.calls[r], t.pump, r)
  {
    H.FramesAppend(s.calls[r].box.queued, Broke);
    assert H.Frames(s.calls[r].box.queued) + [] == H.Frames(s.calls[r].box.queued);
    hide H.Frames;
  }

  /** The read loop hands a frame over only after it has read one, and stays at failing the waiters until they are failed. */
  lemma PumpMoves(s: H.Host, a: H.PumpStep)
    requires !a.DeliverIt? && !a.FailWaiters? && !(a.Read? && s.pump.pc.Reading?)
    ensures var p := H.PumpNext(s, a).pump;
            (p.pc.Delivering? ==> p == s.pump) && (s.pump.pc.FailingWaiters? ==> p.pc.FailingWaiters?)
  {
    hide H.ReadFrame, H.FailAll, H.Lists, H.Rejects, NameOut, CleanTask, CompleteTask, Publishes;
  }

  lemma OtherIsStill(s: H.Host, a: H.Step)
    requires (s.next + 1) !in s.calls && !a.Calling? && !a.Pumping?
    ensures Still(s, H.Next(s, a))
  {
    hide H.Idle, H.Frames;
  }

  // ---- the host reads a frame

  lemma ReadShut(s: H.Host, f: Frame, nobody: set<nat>)
    requires Shut(s, nobody) && s.pump.pc.Reading?
    ensures Shut(H.ReadFrame(s, f), Unclaimed(s, f, nobody))
  {
    hide H.ReadMark, H.RouteOf;
  }

  lemma ReadCall(s: H.Host, f: Frame, nobody: set<nat>, r: ReqId, j: nat)
    requires H.Calls(s) && Shut(s, nobody) && Cuts(s, nobody) && s.pump.pc.Reading? && r in s.calls
    requires j in Unclaimed(s, f, nobody)
    ensures Cut(s.calls[r], r, s.stream + [f], H.ReadPump(s, f), j) && Late(s.calls[r], j)
  {
    var c := s.calls[r];
    OneCall(s, r);
    Held(c, r, s) by { assert H.CallOk(c, r, s.stream, s.pump, s.failed); }
    assert H.QueuedOk(c) by { assert H.CallOk(c, r, s.stream, s.pump, s.failed); }
    hide H.BoxOk, H.PcOk, H.CallOk, H.Calls, H.Frames, Addressed, H.HasEventTask, H.EventTask;
    if j in nobody {
      assert Cut(c, r, s.stream, s.pump, j) && Late(c, j);
      assert (s.stream + [f])[..j] == s.stream[..j];
    } else {
      assert j == |s.stream| && (s.stream + [f])[..j] == s.stream;
    }
  }

  lemma ReadCuts(s: H.Host, f: Frame, nobody: set<nat>)
    requires H.Calls(s) && Shut(s, nobody) && Cuts(s, nobody) && s.pump.pc.Reading?
    ensures Cuts(H.ReadFrame(s, f), Unclaimed(s, f, nobody))
  {
    hide H.Calls, Shut, Cuts, Cut, Late, H.ReadPump, H.ReadMark, H.RouteOf, Unclaimed;
    forall j, r | j in Unclaimed(s, f, nobody) && r in s.calls
      ensures Cut(s.calls[r], r, s.stream + [f], H.ReadPump(s, f), j) && Late(s.calls[r], j)
    {
      ReadCall(s, f, nobody, r, j);
    }
    FrameRead(s, f);
    CutsEverywhere(H.ReadFrame(s, f), Unclaimed(s, f, nobody));
  }

  lemma FrameRead(s: H.Host, f: Frame)
    ensures var t := H.ReadFrame(s, f);
            t.calls == s.calls && t.stream == s.stream + [f] && t.pump == H.ReadPump(s, f) && t.closed == s.closed
  {
    hide H.ReadPump, H.ReadMark, H.RouteOf;
  }

  lemma CutsEverywhere(s: H.Host, nobody: set<nat>)
    requires forall j, r :: j in nobody && r in s.calls ==>
               Cut(s.calls[r], r, s.stream, s.pump, j) && Late(s.calls[r], j)
    ensures Cuts(s, nobody)
  {
    hide Cut, Late;
  }

  lemma ReadOrphaned(s: H.Host, f: Frame, nobody: set<nat>)
    requires Shut(s, nobody) && Cuts(s, nobody) && Orphaned(s, nobody) && s.pump.pc.Reading?
    ensures Orphaned(H.ReadFrame(s, f), Unclaimed(s, f, nobody))
  {
    FrameRead(s, f);
    var t := H.ReadFrame(s, f);
    hide H.ReadFrame, H.ReadPump, H.HasEventTask;
    forall i, j | j in Unclaimed(s, f, nobody) && j < i < |t.stream| && Orphan(t, i, j)
      ensures i in Unclaimed(s, f, nobody)
    {
      if i < |s.stream| {
        assert Orphan(s, i, j);
      } else {
        assert Cut(s.calls[f.req], f.req, s.stream, s.pump, j);
      }
    }
  }

  lemma ReadLosing(s: H.Host, f: Frame, nobody: set<nat>)
    requires Losing(s, nobody) && s.pump.pc.Reading?
    ensures Losing(H.ReadFrame(s, f), Unclaimed(s, f, nobody))
  {
    var t, nobody' := H.ReadFrame(s, f), Unclaimed(s, f, nobody);
    hide H.ReadPump, H.RouteOf;
    forall h | h in t.tasks && t.tasks[h].lost
      ensures exists j :: LostAt(t, nobody', h, j)
    {
      if s.tasks[h].lost {
        var j :| LostAt(s, nobody, h, j);
        assert LostAt(t, nobody', h, j);
      } else {
        assert LostAt(t, nobody', h, |s.stream|);
      }
    }
  }

  lemma ReadKeeps(s: H.Host, f: Frame, nobody: set<nat>)
    requires H.Inv(s) && HostSide(s, nobody)
    ensures HostSide(H.Next(s, H.Pumping(H.Read(f))), Unclaimed(s, f, nobody))
  {
    AllCalls(s);
    if s.pump.pc.Reading? {
      hide Shut, Cuts, Orphaned, Losing, H.Inv, H.Calls, H.Links, H.ReadFrame, Unclaimed;
      ReadShut(s, f, nobody);
      ReadCuts(s, f, nobody);
      ReadOrphaned(s, f, nobody);
      ReadLosing(s, f, nobody);
    }
  }

  lemma HostSideKeeps(s: H.Host, a: H.Step, nobody: set<nat>)
    requires H.Inv(s) && HostSide(s, nobody) && !(a.Pumping? && a.pump.Read?)
    ensures HostSide(H.Next(s, a), nobody)
  {
    hide H.Inv, H.CallNext, H.PumpNext, H.Idle, HostSide, Still, H.Calls, H.Links;
    AllCalls(s);
    H.FreshId(s);
    match a
    case Calling(r, b) =>
      if r in s.calls {
        CallIsStill(s, r, b);
        StillKeeps(s, H.CallNext(s, r, b), nobody);
      } else {
        HG.UnknownCall(s, r, b);
      }
    case Pumping(b) =>
      PumpIsStill(s, b);
      StillKeeps(s, H.PumpNext(s, b), nobody);
    case _ =>
      OtherIsStill(s, a);
      StillKeeps(s, H.Next(s, a), nobody);
  }

  // ------------------------------------------------------------- on the server

  /** The handler is at stop request `p`, which has no reply yet, or it died there. */
  predicate AtStop(h: S.Handler, p: ReqId) {
    h.req == p && (S.Busy(h.pc) || h.pc.Reply? || h.pc.Dead?)
  }

  /**
    The publication at position `j` was written on account of stop request `p`, which
    was read before it and is answered after it, and before any request read later.
   */
  ghost predicate During(s: S.Server, readAt: map<ReqId, nat>, j: nat, p: ReqId) {
    && p in s.stops && p in readAt && readAt[p] <= j
    && (if p in s.replyAt then j < s.replyAt[p] else AtStop(s.handler, p))
    && (forall q :: q in s.stops && q in readAt && readAt[q] > j ==> p in s.replyAt && s.replyAt[p] < readAt[q])
  }

  ghost predicate Accounted(s: S.Server, readAt: map<ReqId, nat>) {
    && (forall q :: q in s.stops ==> q in readAt && readAt[q] <= |s.out|)
    && (forall q :: q in s.replyAt && q in readAt ==> readAt[q] <= s.replyAt[q])
    && (forall j :: 0 <= j < |s.out| && Publishes(s.out[j].body) ==> exists p :: During(s, readAt, j, p))
  }

  /** What a step has to respect that reads no request. */
  ghost predicate Answers(s: S.Server, t: S.Server) {
    && t.stops == s.stops && s.out <= t.out && |t.out| <= |s.out| + 1
    && (|| t.replyAt == s.replyAt
        || (&& |t.out| == |s.out| + 1 && !Publishes(t.out[|s.out|].body)
            && s.handler.req in s.stops && t.replyAt == s.replyAt[s.handler.req := |s.out|]))
    && (forall p :: p in s.stops && p !in s.replyAt && AtStop(s.handler, p) ==> p in t.replyAt || AtStop(t.handler, p))
    && (|t.out| > |s.out| && Publishes(t.out[|s.out|].body) ==>
          s.handler.req in s.stops && s.handler.req !in t.replyAt && AtStop(t.handler, s.handler.req))
  }

  lemma DuringStays(s: S.Server, t: S.Server, readAt: map<ReqId, nat>, j: nat, p: ReqId)
    requires Answers(s, t) && During(s, readAt, j, p) && j < |s.out|
    requires p in s.replyAt && s.handler.req == p ==> t.replyAt == s.replyAt
    ensures During(t, readAt, j, p)
  {
  }

  lemma AnswersKeep(s: S.Server, t: S.Server, readAt: map<ReqId, nat>)
    requires Answers(s, t) && Accounted(s, readAt) && S.HandlerOk(s) && S.RepliesOk(s)
    requires t.replyAt != s.replyAt ==> s.handler.req !in s.replyAt
    ensures Accounted(t, readAt)
  {
    hide S.HandlerOk, S.RepliesOk;
    forall j | 0 <= j < |t.out| && Publishes(t.out[j].body)
      ensures exists p :: During(t, readAt, j, p)
    {
      if j < |s.out| {
        var p :| During(s, readAt, j, p);
        DuringStays(s, t, readAt, j, p);
      } else {
        assert During(t, readAt, j, s.handler.req);
      }
    }
  }

  lemma AppliedAnswers(s: S.Server, id: TaskId, e: S.Effect)
    requires S.HandlerOk(s) && |e.frames| <= 1
    requires e.handler.req == s.handler.req
    requires e.frames != [] && e.frames[0].req in s.stops ==>
               e.frames[0].req == s.handler.req && !Publishes(e.frames[0].body)
    requires AtStop(s.handler, s.handler.req) && s.handler.req !in s.replyAt ==>
               AtStop(e.handler, s.handler.req) || (e.frames != [] && e.frames[0].req == s.handler.req)
    requires e.frames != [] && Publishes(e.frames[0].body) ==> S.Busy(s.handler.pc) && S.Busy(e.handler.pc)
    ensures Answers(s, S.Apply(s, id, e))
  {
  }

  lemma StopActAnswers(l: S.Life, h: S.Handler, n: nat, broken: bool, a: S.StopStep)
    ensures var e := S.StopAct(l, h, n, broken, a);
            && e.handler.req == h.req && |e.frames| <= 1
            && (AtStop(h, h.req) ==> AtStop(e.handler, h.req) || (e.frames != [] && e.frames[0].req == h.req))
            && (e.frames != [] ==>
                  && S.Busy(h.pc)
                  && ((e.frames[0].req == l.owner && S.Busy(e.handler.pc))
                      || (e.frames[0].req == h.req && e.frames[0].body.StopResponse?)))
  {
  }

  lemma CloseActAnswers(l: S.Life, h: S.Handler, n: nat, broken: bool, a: S.CloseStep)
    ensures var e := S.CloseAct(l, h, n, broken, a);
            && e.handler.req == h.req && |e.frames| <= 1
            && (AtStop(h, h.req) ==> AtStop(e.handler, h.req))
            && (e.frames != [] ==> e.frames[0].req == l.owner && !Publishes(e.frames[0].body))
  {
  }

  lemma MonitorActAnswers(l: S.Life, id: TaskId, n: nat, broken: bool, a: S.MonitorStep)
    ensures var fs := S.MonitorAct(l, id, n, broken, a).1;
            |fs| <= 1 && (fs != [] ==> fs[0].req == l.owner && !Publishes(fs[0].body))
  {
  }

  lemma OwnerStarted(s: S.Server, id: TaskId)
    requires S.Ids(s) && id in s.lives
    ensures s.lives[id].owner !in s.stops
  {
  }

  lemma StartAnswers(s: S.Server, a: S.StartStep)
    requires S.Ids(s) && S.HandlerOk(s) && !a.Read?
    ensures Answers(s, S.StartNext(s, a))
  {
    match a
    case WriteStarted =>
      if s.handler.pc.Started? && s.handler.id in s.lives {
        OwnerStarted(s, s.handler.id);
        AppliedAnswers(s, s.handler.id, S.StartedAct(s.lives[s.handler.id], s.handler, |s.out|, s.broken));
      }
    case _ => hide S.Ids;
  }

  lemma NothingAnswered(s: S.Server)
    ensures Answers(s, s)
  {
  }

  lemma PluginAnswers(s: S.Server, req: ReqId, payload: string)
    requires S.Ids(s)
    ensures Answers(s, S.Next(s, S.PluginArtifact(req, payload))) && Answers(s, S.Next(s, S.Break))
    ensures Answers(s, S.Refuse(s, req))
  {
  }

  lemma ServerAnswers(s: S.Server, a: S.Step)
    requires S.Ids(s) && S.HandlerOk(s) && !(a.Start? && a.start.Read?)
    ensures Answers(s, S.Next(s, a))
  {
    hide S.Ids, S.HandlerOk, S.StopAct, S.CloseAct, S.MonitorAct, S.DoneAct, S.Apply, S.StartNext, Answers, S.Refuse;
    var h := s.handler;
    NothingAnswered(s);
    match a
    case Start(b) => StartAnswers(s, b);
    case Stop(b) =>
      if h.id in s.lives {
        StopActAnswers(s.lives[h.id], h, |s.out|, s.broken, b);
        OwnerStarted(s, h.id);
        AppliedAnswers(s, h.id, S.StopAct(s.lives[h.id], h, |s.out|, s.broken, b));
      }
    case Close(b) =>
      if h.id in s.lives {
        CloseActAnswers(s.lives[h.id], h, |s.out|, s.broken, b);
        OwnerStarted(s, h.id);
        AppliedAnswers(s, h.id, S.CloseAct(s.lives[h.id], h, |s.out|, s.broken, b));
      }
    case Monitoring(id, b) =>
      if id in s.lives {
        MonitorActAnswers(s.lives[id], id, |s.out|, s.broken, b);
        OwnerStarted(s, id);
        var (l, fs) := S.MonitorAct(s.lives[id], id, |s.out|, s.broken, b);
        AppliedAnswers(s, id, S.Effect(l, h, fs));
      }
    case Done(id, b) =>
      if id in s.lives { AppliedAnswers(s, id, S.Effect(S.DoneAct(s.lives[id], b), h, [])); }
    case PluginArtifact(req, payload) => PluginAnswers(s, req, payload);
    case Unsupported(req) => PluginAnswers(s, req, "");
    case Break => PluginAnswers(s, 0, "");
  }

  /** Only a handler whose request has no reply yet writes one. */
  lemma RepliesOnce(s: S.Server, a: S.Step)
    requires S.Ids(s) && S.HandlerOk(s) && !(a.Start? && a.start.Read?)
    requires S.Next(s, a).replyAt != s.replyAt && Answers(s, S.Next(s, a))
    ensures s.handler.req !in s.replyAt
  {
    if s.handler.req in s.replyAt {
      ReplyOver(s, a);
    }
  }

  /** Until it reads again, a server that has replied does not reply. */
  lemma ReplyOver(s: S.Server, a: S.Step)
    requires S.Ids(s) && S.HandlerOk(s) && !(a.Start? && a.start.Read?) && s.handler.req in s.replyAt
    ensures S.Next(s, a).replyAt == s.replyAt
  {
    hide S.StopAct, S.CloseAct, S.MonitorAct, S.DoneAct;
    var h := s.handler;
    match a
    case Stop(b) =>
      if h.id in s.lives {
        StopActAnswers(s.lives[h.id], h, |s.out|, s.broken, b);
        OwnerStarted(s, h.id);
      }
    case Close(b) =>
      if h.id in s.lives {
        CloseActAnswers(s.lives[h.id], h, |s.out|, s.broken, b);
        OwnerStarted(s, h.id);
      }
    case Monitoring(id, b) =>
      if id in s.lives {
        MonitorActAnswers(s.lives[id], id, |s.out|, s.broken, b);
        OwnerStarted(s, id);
      }
    case _ =>
  }

  lemma AccountedKeeps(s: S.Server, a: S.Step, readAt: map<ReqId, nat>)
    requires S.Inv(s) && Accounted(s, readAt) && !(a.Start? && a.start.Read?)
    ensures Accounted(S.Next(s, a), readAt)
  {
    hide S.Ids, S.HandlerOk, S.RepliesOk, S.Kinds, S.Tasks, S.Places, S.Frames, S.Next, Accounted, Answers;
    ServerAnswers(s, a);
    if S.Next(s, a).replyAt != s.replyAt { RepliesOnce(s, a); }
    AnswersKeep(s, S.Next(s, a), readAt);
  }

  /** An idle server that reads a request has answered every stop request before. */
  lemma ReadAccounted(s: S.Server, r: Request, readAt: map<ReqId, nat>)
    requires S.RepliesOk(s) && Accounted(s, readAt) && s.handler.pc.Idle? && r.req !in s.starts && r.req !in s.stops
    ensures Accounted(S.ReadRequest(s, r), readAt[r.req := |s.out|])
  {
    var t, readAt' := S.ReadRequest(s, r), readAt[r.req := |s.out|];
    ReadBooks(s, r);
    ReadReplies(s, r);
    hide S.ReadRequest;
    forall j | 0 <= j < |t.out| && Publishes(t.out[j].body)
      ensures exists p :: During(t, readAt', j, p)
    {
      var p :| During(s, readAt, j, p);
      assert During(t, readAt', j, p);
    }
  }

  lemma ReadReplies(s: S.Server, r: Request)
    ensures S.ReadRequest(s, r).replyAt == s.replyAt
  {
  }

  // ------------------------------------------------------------------ both together

  /** A stop request was made by a call whose waiter was there when the server read it. */
  ghost predicate Asked(w: World) {
    forall q :: q in w.server.stops ==>
      q in w.readAt && q in w.host.calls && w.host.calls[q].since <= w.readAt[q]
  }

  ghost predicate Recorded(w: World) {
    HostSide(w.host, w.nobody) && Accounted(w.server, w.readAt) && Asked(w)
  }

  lemma InitRecorded()
    ensures Recorded(INIT)
  {
  }

  lemma SentBefore(w: World)
    requires Inv(w) && w.read < |w.host.sent|
    ensures var r := w.host.sent[w.read]; r.req in w.host.calls && w.host.calls[r.req].since <= |w.server.out|
    ensures var r := w.host.sent[w.read]; r.req !in w.server.starts && r.req !in w.server.stops
  {
    hide S.Inv, H.Inv, H.Calls, H.Links, Requests;
    AllCalls(w.host);
    JointParts(w);
    NextRequest(w);
    Since(w.host, w.host.sent[w.read].req);
  }

  lemma ReadAsked(w: World)
    requires Inv(w) && Asked(w) && w.read < |w.host.sent| && w.server.handler.pc.Idle?
    ensures Asked(Next(w, ServerReads))
  {
    hide Inv, S.ReadRequest;
    SentBefore(w);
    ReadBooks(w.server, w.host.sent[w.read]);
  }

  lemma ServerReadsRecorded(w: World)
    requires Inv(w) && Recorded(w) && w.read < |w.host.sent| && w.server.handler.pc.Idle?
    ensures Recorded(Next(w, ServerReads))
  {
    hide HostSide, H.Inv, Asked, Accounted, S.ReadRequest, S.Ids, S.HandlerOk, S.Kinds, S.Tasks, S.Places, S.Frames;
    hide AnswersLater, PublishedLater, NoneStrayed;
    ReadAsked(w);
    NextRequest(w) by { JointParts(w); }
    ReadAccounted(w.server, w.host.sent[w.read], w.readAt);
  }

  lemma AskedGrows(w: World, t: H.Host)
    requires Asked(w) && HostGrows(w.host, t)
    ensures forall q :: q in w.server.stops ==>
              q in w.readAt && q in t.calls && t.calls[q].since <= w.readAt[q]
  {
  }

  lemma HostRecorded(w: World, a: H.Step)
    requires Inv(w) && Recorded(w) && !(a.Pumping? && a.pump.Read?)
    ensures Recorded(w.(host := H.Next(w.host, a)))
  {
    hide S.Inv, H.Inv, Joint, HostSide, Accounted, H.Next, HostGrows;
    HostSideKeeps(w.host, a, w.nobody);
    HostStepGrows(w.host, a);
    AskedGrows(w, H.Next(w.host, a));
  }

  lemma HostReadRecorded(w: World, f: Frame)
    requires Inv(w) && Recorded(w)
    ensures Recorded(w.(host := H.Next(w.host, H.Pumping(H.Read(f))), nobody := Unclaimed(w.host, f, w.nobody)))
  {
    hide S.Inv, H.Inv, Joint, HostSide, Accounted, H.Next, HostGrows, Unclaimed;
    ReadKeeps(w.host, f, w.nobody);
    HostStepGrows(w.host, H.Pumping(H.Read(f)));
    AskedGrows(w, H.Next(w.host, H.Pumping(H.Read(f))));
  }

  lemma ServerRecorded(w: World, a: S.Step)
    requires Inv(w) && Recorded(w) && !(a.Start? && a.start.Read?)
    ensures Recorded(w.(server := S.Next(w.server, a)))
  {
    hide S.Inv, H.Inv, Joint, HostSide, Accounted, S.Next;
    AccountedKeeps(w.server, a, w.readAt);
    SameStops(w, a);
  }

  lemma SameStops(w: World, a: S.Step)
    requires S.Inv(w.server) && !(a.Start? && a.start.Read?)
    ensures S.Next(w.server, a).stops == w.server.stops
  {
    hide S.Next;
    ServerStepGrows(w.server, a);
  }

  lemma NextRecorded(w: World, step: Step)
    requires Inv(w) && Recorded(w)
    ensures Recorded(Next(w, step))
  {
    hide Inv, S.Next, H.Next, HostSide, Accounted;
    match step
    case ServerReads => if w.read < |w.host.sent| && w.server.handler.pc.Idle? { ServerReadsRecorded(w); }
    case HostReads =>
      if |w.host.stream| < |w.server.out| { HostReadRecorded(w, w.server.out[|w.host.stream|]); }
    case ServerStep(a) => if !ReadsPipe(step) { ServerRecorded(w, a); }
    case HostStep(a) => if !ReadsPipe(step) { HostRecorded(w, a); }
    case _ =>
  }

  lemma {:induction false} ExecRecorded(w: World, steps: seq<Step>)
    requires Inv(w) && Recorded(w)
    ensures Recorded(Exec(w, steps))
    decreases |steps|
  {
    hide Inv, Recorded, Next;
    if steps != [] {
      NextRecorded(w, steps[0]);
      NextKeeps(w, steps[0]);
      ExecRecorded(Next(w, steps[0]), steps[1..]);
    }
  }

  // ---------------------------------------------------------------- no stop survives

  /** A call that took a frame was registered after every earlier frame that found nobody. */
  lemma TookAfter(w: World, q: ReqId, k: nat, j: nat)
    requires Inv(w) && Recorded(w) && q in w.host.calls && w.host.calls[q].taken != [] && j in w.nobody
    requires j <= k && forall i :: 0 <= i < |w.host.stream| && w.host.stream[i].req == q ==> i == k
    ensures j < w.host.calls[q].since
  {
    hide Inv, Accounted, Asked, Orphaned, Losing, H.Frames, Addressed;
    var s, c := w.host, w.host.calls[q];
    TakenQueued(w, q);
    assert Cut(c, q, s.stream, s.pump, j);
    if c.since <= j {
      var i := AddressedAt(s.stream[..j], c.since, q, 0);
    }
  }

  lemma TakenQueued(w: World, q: ReqId)
    requires Inv(w) && q in w.host.calls && w.host.calls[q].taken != []
    ensures |H.Frames(w.host.calls[q].box.queued)| > 0
  {
    hide S.Inv, H.Inv, H.Frames;
    AllCalls(w.host);
    assert H.CallOk(w.host.calls[q], q, w.host.stream, w.host.pump, w.host.failed);
  }

  /** The stop request on whose account a publication was written, and its reply. */
  lemma AnsweredBetween(s: S.Server, readAt: map<ReqId, nat>, j: nat, q: ReqId) returns (p: ReqId)
    requires Accounted(s, readAt) && j < |s.out| && Publishes(s.out[j].body)
    requires q in s.stops && q in readAt && j < readAt[q] && q in s.replyAt
    ensures p in s.stops && p in readAt && readAt[p] <= j && p in s.replyAt && j < s.replyAt[p] < s.replyAt[q]
  {
    p :| During(s, readAt, j, p);
  }

  /** That reply found nobody either. */
  lemma ReplyFoundNobody(w: World, q: ReqId, j: nat) returns (i: nat)
    requires Inv(w) && Recorded(w) && q in w.server.stops && q in w.server.replyAt && q in w.readAt && j < w.readAt[q]
    requires w.server.replyAt[q] < |w.host.stream|
    requires j in w.nobody && j < |w.host.stream| && Publishes(w.host.stream[j].body)
    ensures j < i < w.server.replyAt[q] && i in w.nobody
  {
    hide Inv, Accounted, Shut, Cuts, Losing, Publishes;
    PipePrefix(w);
    var p := AnsweredBetween(w.server, w.readAt, j, q);
    i := w.server.replyAt[p];
    ReplyAt(w, p);
    assert Orphan(w.host, i, j);
  }

  lemma PipePrefix(w: World)
    requires Inv(w)
    ensures |w.host.stream| <= |w.server.out|
    ensures forall i :: 0 <= i < |w.host.stream| ==> w.host.stream[i] == w.server.out[i]
  {
    hide S.Inv, H.Inv;
  }

  lemma ReplyAt(w: World, p: ReqId)
    requires Inv(w) && p in w.server.replyAt
    ensures var s := w.server; var k := s.replyAt[p];
            k < |s.out| && s.out[k].req == p && (s.out[k].body.StopResponse? || s.out[k].body.Error?)
  {
    hide H.Inv, Joint;
  }

  /**
    Of a task whose stop call was answered by a StopResponse no publication was lost:
    the stop call would have had to begin after the reply to the stop request that was
    lost with it had found nobody, when the transport was shut down already.
   */
  lemma AnsweredLosesNothing(w: World, q: ReqId, k: nat)
    requires Inv(w) && Recorded(w) && q in w.server.stops && q in w.host.calls && w.host.calls[q].taken != []
    requires k < |w.host.stream| && forall i :: 0 <= i < |w.server.out| && w.server.out[i].req == q ==> i == k
    requires q in w.server.replyAt && w.server.replyAt[q] == k && w.host.calls[q].sent.Sent?
    requires var h := w.host.calls[q].task;
             && h in w.host.tasks
             && forall j :: 0 <= j < |w.server.out| && w.server.out[j].req == h && Publishes(w.server.out[j].body) ==> j < k
    ensures !w.host.tasks[w.host.calls[q].task].lost
  {
    hide Inv, Accounted, Shut, Orphaned, Publishes, Cut;
    var h := w.host.calls[q].task;
    PipePrefix(w);
    if w.host.tasks[h].lost {
      var j: nat :| LostAt(w.host, w.nobody, h, j);
      TookAfter(w, q, k, j);
      var i := ReplyFoundNobody(w, q, j);
      TookAfter(w, q, k, i);
    }
  }
}
