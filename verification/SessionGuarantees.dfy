/** What host and server guarantee together, over every interleaving. */
module SessionGuarantees {
  import opened Wire
  import opened HostTables
  import opened Losses
  import opened Session
  import S = ServerMachine
  import SG = ServerGuarantees
  import HG = HostGuarantees
  import H = HostMachine

  /** The two ends after any run. */
  function After(steps: seq<Step>): World {
    Exec(INIT, steps)
  }

  lemma AfterInv(steps: seq<Step>)
    ensures Inv(After(steps))
  {
    InitInv();
    ExecKeeps(INIT, steps);
  }

  lemma LifeFacts(w: World, id: TaskId)
    requires Inv(w) && id in w.server.lives
    ensures S.TaskOk(w.server.lives[id], w.server.handler, id)
    ensures S.PlaceOk(w.server.lives[id], id, w.server.out, w.server.stops, w.server.broken)
  {
  }

  lemma FrameFacts(w: World, k: nat)
    requires Inv(w) && k < |w.server.out|
    ensures S.FrameKind(w.server, w.server.out[k], k) && S.FrameLife(w.server, w.server.out[k], k)
  {
  }

  /**
    A task the host still has under its id is the one the server issued that id
    for, and it is in the server's table unless its StopResponse is written.
   */
  lemma RegisteredOrStopped(steps: seq<Step>, id: TaskId)
    requires id in After(steps).host.names
    ensures var w := After(steps);
            && id in w.server.lives
            && var l := w.server.lives[id];
               && l.owner == w.host.names[id]
               && (l.listed || (l.stopAt.Place? && l.stopAt.k < |w.server.out| && w.server.out[l.stopAt.k].body.StopResponse?))
  {
    AfterInv(steps);
    var w := After(steps);
    var h := w.host.names[id];
    assert w.host.tasks[h].id == id;
    Named(w, h);
    assert S.TaskOk(w.server.lives[id], w.server.handler, id);
    assert S.PlaceOk(w.server.lives[id], id, w.server.out, w.server.stops, w.server.broken);
  }

  // ------------------------------------------------------------- requests in the pipe

  /** The step in which an artifact call that waits for its reply takes a request instead. */
  predicate Swallows(w: World, step: Step) {
    step.PluginSwallows? && w.waiting > 0 && w.read < |w.host.sent|
  }

  /** The positions of the requests taken that way in a run. */
  function Swallowed(w: World, steps: seq<Step>): set<nat>
    decreases |steps|
  {
    if steps == [] then {}
    else (if Swallows(w, steps[0]) then {w.read} else {}) + Swallowed(Next(w, steps[0]), steps[1..])
  }

  lemma StepLoses(w: World, step: Step)
    ensures Next(w, step).lost == w.lost + (if Swallows(w, step) then {w.read} else {})
  {
    hide S.Next, H.Next;
  }

  lemma {:induction false} RunLoses(w: World, steps: seq<Step>)
    ensures Exec(w, steps).lost == w.lost + Swallowed(w, steps)
    decreases |steps|
  {
    hide Next, Swallows;
    if steps != [] {
      StepLoses(w, steps[0]);
      RunLoses(Next(w, steps[0]), steps[1..]);
    }
  }

  /** What is left has lost just the positions taken out. */
  lemma {:induction false} WithoutLength(requests: seq<Request>, lost: set<nat>)
    requires forall i :: i in lost ==> i < |requests|
    ensures |Without(requests, lost)| + |lost| == |requests|
  {
    var n := |requests| - 1;
    if requests == [] {
      assert lost == {};
    } else {
      var rest := lost - {n};
      WithoutLength(requests[..n], rest);
      if n in lost {
        WithoutFar(requests[..n], rest, n);
        assert lost == rest + {n};
      } else {
        assert lost == rest;
      }
    }
  }

  lemma {:induction false} WithoutNone(requests: seq<Request>)
    ensures Without(requests, {}) == requests
  {
    if requests != [] {
      var n := |requests| - 1;
      WithoutNone(requests[..n]);
      assert requests == requests[..n] + [requests[n]];
    }
  }

  /**
    In every run the server got the requests that were read from the pipe, in order,
    without exactly those an artifact call took; and an idle server takes the next
    request, whatever it is.
   */
  lemma RequestsAreRead(steps: seq<Step>)
    ensures var w := After(steps); var taken := Swallowed(INIT, steps);
            && w.read <= |w.host.sent| && (forall i :: i in taken ==> i < w.read)
            && w.server.got == Without(w.host.sent[..w.read], taken)
            && w.read == |w.server.got| + |taken|
            && (taken == {} ==> w.server.got == w.host.sent[..w.read])
            && (w.read < |w.host.sent| && w.server.handler.pc.Idle? ==>
                  Next(w, ServerReads).server.got == w.server.got + [w.host.sent[w.read]])
  {
    hide Inv, Next, Without, Swallowed, Exec;
    AfterInv(steps);
    RunLoses(INIT, steps);
    var w := After(steps);
    ReadsNext(w);
    assert w.lost == Swallowed(INIT, steps);
    WithoutLength(w.host.sent[..w.read], w.lost);
    WithoutNone(w.host.sent[..w.read]);
  }

  lemma ReadsNext(w: World)
    requires Inv(w)
    ensures Piped(w)
    ensures w.read < |w.host.sent| && w.server.handler.pc.Idle? ==>
              Next(w, ServerReads).server.got == w.server.got + [w.host.sent[w.read]]
  {
    hide Inv, S.ReadRequest, Piped;
    JointParts(w);
    if w.read < |w.host.sent| && w.server.handler.pc.Idle? {
      NextRequest(w);
      ReadBooks(w.server, w.host.sent[w.read]);
      assert Next(w, ServerReads).server == S.ReadRequest(w.server, w.host.sent[w.read]);
    }
  }

  /** Some step of the run swallows a request. */
  ghost predicate Loses(w: World, steps: seq<Step>) {
    exists i :: 0 <= i < |steps| && Swallows(Exec(w, steps[..i]), steps[i])
  }

  lemma LaterLoss(w: World, steps: seq<Step>, i: nat)
    requires i + 1 < |steps|
    ensures Exec(w, steps[..i + 1]) == Exec(Next(w, steps[0]), steps[1..][..i])
  {
    assert steps[..i + 1][1..] == steps[1..][..i];
  }

  lemma {:induction false} LossIsSwallowed(w: World, steps: seq<Step>)
    ensures Loses(w, steps) <==> Swallowed(w, steps) != {}
    decreases |steps|
  {
    hide Next, Swallows;
    if steps != [] {
      var v, rest := Next(w, steps[0]), steps[1..];
      LossIsSwallowed(v, rest);
      assert steps[..0] == [] && Exec(w, steps[..0]) == w;
      if i :| 0 <= i < |steps| && Swallows(Exec(w, steps[..i]), steps[i]) {
        if i > 0 {
          LaterLoss(w, steps, i - 1);
          assert Swallows(Exec(v, rest[..i - 1]), rest[i - 1]);
        }
      }
      if Swallows(w, steps[0]) {
        assert Swallows(Exec(w, steps[..0]), steps[0]);
      } else if k :| 0 <= k < |rest| && Swallows(Exec(v, rest[..k]), rest[k]) {
        LaterLoss(w, steps, k);
        assert Swallows(Exec(w, steps[..k + 1]), steps[k + 1]);
      }
    }
  }

  /**
    A run loses a request if and only if in some step an artifact call that waits for
    its reply finds a request to take.
   */
  lemma OnlyArtifactCallsLose(steps: seq<Step>)
    ensures var w := After(steps);
            w.read <= |w.host.sent| && (w.server.got != w.host.sent[..w.read] <==> Loses(INIT, steps))
  {
    hide Swallowed, Without, Loses, Next, Exec;
    RequestsAreRead(steps);
    LossIsSwallowed(INIT, steps);
    if Swallowed(INIT, steps) != {} { Inhabited(Swallowed(INIT, steps)); }
  }

  lemma Inhabited(taken: set<nat>)
    requires taken != {}
    ensures |taken| > 0
  {
    var i :| i in taken;
  }

  /** Two starts, with an artifact call that waits between them. */
  const LOSING_RUN := [
    HostStep(H.BeginStart), HostStep(H.Calling(1, H.Enlist)), HostStep(H.Calling(1, H.Send(true))),
    ServerReads, PluginAwaits,
    HostStep(H.BeginStart), HostStep(H.Calling(2, H.Enlist)), HostStep(H.Calling(2, H.Send(true))),
    PluginSwallows]

  /** Runs that lose a request exist: here the second start never reaches the server. */
  lemma RequestIsLost()
    ensures var w := After(LOSING_RUN);
            && w.host.sent == [StartRequest(1), StartRequest(2)] && w.read == 2
            && w.server.got == [StartRequest(1)]
  {
    hide Next, Exec;
    var v := StartSent(INIT, 1);
    var u := Next(Next(v, ServerReads), PluginAwaits);
    var w := StartSent(u, 2);
    LosingSteps(LOSING_RUN);
    StartIsSent(INIT, 1);
    FirstStartRead(v);
    StartIsSent(u, 2);
    SecondStartLost(w);
  }

  lemma LosingSteps(steps: seq<Step>)
    requires steps == LOSING_RUN
    ensures After(steps) == Next(StartSent(Next(Next(StartSent(INIT, 1), ServerReads), PluginAwaits), 2), PluginSwallows)
  {
    hide Next, Exec;
    var v := StartSent(INIT, 1);
    ThreeSteps(INIT, steps);
    ThreeSteps(v, steps[3..]);
    assert steps[3..][3..] == steps[6..] && steps[6..][3..] == [];
    var u := Next(Next(v, ServerReads), PluginAwaits);
    ThreeSteps(Next(u, steps[5]), steps[6..]);
    NoStep(Next(StartSent(u, 2), PluginSwallows));
  }

  /** A start call from its beginning to its request. */
  function StartSent(w: World, r: ReqId): World {
    Next(Next(Next(w, HostStep(H.BeginStart)), HostStep(H.Calling(r, H.Enlist))), HostStep(H.Calling(r, H.Send(true))))
  }

  lemma StartIsSent(w: World, r: ReqId)
    requires r == w.host.next + 1 && !w.host.closed
    ensures var v := StartSent(w, r);
            && v == w.(host := v.host) && !v.host.closed
            && v.host.next == r && v.host.sent == w.host.sent + [StartRequest(r)]
  {
    hide Published;
  }

  lemma FirstStartRead(w: World)
    requires w.server == S.INIT && w.host.sent == [StartRequest(1)] && w.read == 0 && w.waiting == 0
    ensures var v := Next(Next(w, ServerReads), PluginAwaits);
            && v.host == w.host && v.read == 1 && v.waiting == 1 && v.server.got == [StartRequest(1)]
  {
  }

  lemma SecondStartLost(w: World)
    requires w.waiting == 1 && w.read == 1 && |w.host.sent| == 2
    ensures Next(w, PluginSwallows).host == w.host && Next(w, PluginSwallows).server == w.server
    ensures Next(w, PluginSwallows).read == 2
  {
  }

  lemma NoStep(w: World)
    ensures Exec(w, []) == w
  {
  }

  lemma OneStep(w: World, steps: seq<Step>)
    requires steps != []
    ensures Exec(w, steps) == Exec(Next(w, steps[0]), steps[1..])
  {
    hide Next;
  }

  lemma ThreeSteps(w: World, steps: seq<Step>)
    requires |steps| >= 3
    ensures Exec(w, steps) == Exec(Next(Next(Next(w, steps[0]), steps[1]), steps[2]), steps[3..])
  {
    hide Next, Exec;
    OneStep(w, steps);
    OneStep(Next(w, steps[0]), steps[1..]);
    OneStep(Next(Next(w, steps[0]), steps[1]), steps[1..][1..]);
    assert steps[1..][1..][1..] == steps[3..];
  }

  lemma {:induction false} NobodyWaits(w: World, steps: seq<Step>)
    requires w.waiting == 0 && PluginAwaits !in steps
    ensures Swallowed(w, steps) == {}
    decreases |steps|
  {
    hide S.Next, H.Next;
    if steps != [] { NobodyWaits(Next(w, steps[0]), steps[1..]); }
  }

  /** As long as no artifact call waits for a reply, the server gets every request, in order. */
  lemma NothingLostUnlessAwaited(steps: seq<Step>)
    requires PluginAwaits !in steps
    ensures var w := After(steps); w.read <= |w.host.sent| && w.server.got == w.host.sent[..w.read]
  {
    hide Next, Exec, Without, Swallowed;
    NobodyWaits(INIT, steps);
    RequestsAreRead(steps);
  }

  // ------------------------------------------------------------- stop and retry

  /** The one frame that answers a stop call. */
  lemma StopAnswer(w: World, q: ReqId, j: nat, k: nat)
    requires Inv(w) && q in w.host.calls && w.host.calls[q].isStop
    requires j < |w.server.out| && w.server.out[j].req == q && k < |w.server.out| && w.server.out[k].req == q
    ensures j == k && q in w.server.stops
    ensures w.host.calls[q].task in w.host.tasks
            && w.server.stops[q] == w.host.tasks[w.host.calls[q].task].id
  {
    assert S.FrameKind(w.server, w.server.out[j], j) && S.FrameKind(w.server, w.server.out[k], k);
  }

  /** The answer a stop call took, and where it is in the stream. */
  lemma AnswerTaken(w: World, q: ReqId) returns (k: nat)
    requires Inv(w) && q in w.host.calls && w.host.calls[q].isStop && w.host.calls[q].taken != []
    ensures k < |w.host.stream| <= |w.server.out| && w.server.out[k] == H.LastTaken(w.host.calls[q])
    ensures w.server.out[k].req == q && w.host.calls[q].since <= k
    ensures w.host.stream[k] == w.server.out[k]
  {
    hide S.Inv;
    k := TakenAt(w.host, q);
  }

  /** Two stop calls answered for one id concern one task. */
  lemma SameTask(w: World, q: ReqId, q': ReqId)
    requires Inv(w) && q in w.server.stops && q' in w.server.stops && w.server.stops[q] == w.server.stops[q']
    requires w.server.stops[q] in w.server.lives
    ensures q in w.host.calls && q' in w.host.calls && H.SameStop(w.host.calls[q], w.host.calls[q'])
  {
    hide Inv;
    StoppedHasStarted(w, q);
    StoppedHasStarted(w, q');
  }

  /** The stop request whose StopResponse made the server forget the task. */
  lemma Forgotten(w: World, q: ReqId, k: nat) returns (q': ReqId, k': nat)
    requires Inv(w) && !w.host.failed && q in w.server.stops
    requires k < |w.server.out| && w.server.out[k] == Frame(q, Error(ConfigError))
    ensures k' < k && w.server.out[k'] == Frame(q', StopResponse)
    ensures q' in w.server.stops && w.server.stops[q'] == w.server.stops[q] && w.server.stops[q] in w.server.lives
  {
    FrameFacts(w, k);
    assert q !in w.server.strangers;
    var id := w.server.stops[q];
    hide Inv, S.FrameKind;
    LifeFacts(w, id);
    k' := w.server.lives[id].stopAt.k;
    q' := w.server.out[k'].req;
  }

  /** A returned stop call that was answered by a StopResponse has succeeded. */
  lemma AnsweredWell(w: World, q: ReqId, k: nat)
    requires Inv(w) && !w.host.failed && q in w.host.calls && w.host.calls[q].isStop && w.host.calls[q].pc.Returned?
    requires k < |w.server.out| && w.server.out[k] == Frame(q, StopResponse)
    ensures w.host.calls[q].result.Success?
  {
    OneCall(w.host, q);
    if w.host.calls[q].taken != [] {
      var j := AnswerTaken(w, q);
      StopAnswer(w, q, j, k);
    }
  }

  /** A returned call's answer lies before everything a later call on the task can see. */
  lemma AnswerBefore(w: World, q: ReqId, q': ReqId, k: nat)
    requires Inv(w) && q in w.host.calls && q' in w.host.calls && q < q'
    requires H.SameStop(w.host.calls[q], w.host.calls[q']) && w.host.calls[q].taken != []
    requires k < |w.server.out| && w.server.out[k].req == q
    ensures k < w.host.calls[q'].since
  {
    hide Inv, H.SameStop, H.Before;
    NotOverlapping(w, q, q');
    var j := TakenBefore(w.host.calls[q], q, w.host.calls[q'], w.host.stream);
    PipeAt(w, j);
    StopAnswer(w, q, j, k);
  }

  lemma TakenBefore(c: H.Call, q: ReqId, c': H.Call, stream: seq<Frame>) returns (j: nat)
    requires H.Before(c, q, c', stream) && c.taken != []
    ensures j < |stream| && j < c'.since && stream[j].req == q
  {
    var i := |c.taken| - 1;
    assert c.taken[i] == Addressed(stream[..c'.since], c.since, q)[i];
    j := AddressedAt(stream[..c'.since], c.since, q, i);
  }

  lemma NotOverlapping(w: World, q: ReqId, q': ReqId)
    requires Inv(w) && q in w.host.calls && q' in w.host.calls && q < q'
    requires H.SameStop(w.host.calls[q], w.host.calls[q'])
    ensures H.Before(w.host.calls[q], q, w.host.calls[q'], w.host.stream) && w.host.calls[q].isStop
  {
  }

  lemma PipeAt(w: World, j: nat)
    requires Inv(w) && j < |w.host.stream|
    ensures j < |w.server.out| && w.server.out[j] == w.host.stream[j]
  {
  }

  /**
    A Stop that meets CONFIG_ERROR on a working transport comes after a Stop of
    the same task that succeeded; a Stop retried after any number of RUN_ERROR
    replies never does.
   */
  lemma RetryNeverRefused(steps: seq<Step>, q: ReqId)
    requires var w := After(steps);
             && q in w.host.calls && w.host.calls[q].isStop && H.Ended(w.host.calls[q])
             && w.host.calls[q].result == H.Refused(ConfigError)
    ensures var w := After(steps);
            || w.host.failed
            || (exists q' ::
                  && q' in w.host.calls && q' < q && H.SameStop(w.host.calls[q'], w.host.calls[q])
                  && w.host.calls[q'].pc.Returned? && w.host.calls[q'].result.Success?)
  {
    AfterInv(steps);
    var w := After(steps);
    if !w.host.failed {
      OneCall(w.host, q);
      var k := AnswerTaken(w, q);
      StopAnswer(w, q, k, k);
      var q', k' := Forgotten(w, q, k);
      SameTask(w, q, q');
      EarlierStop(w, q, q', k, k');
      AnsweredWell(w, q', k');
    }
  }

  lemma SinceBefore(w: World, k: nat)
    requires Inv(w) && k < |w.server.out|
    ensures w.server.out[k].req in w.host.calls && w.host.calls[w.server.out[k].req].since <= k
  {
  }

  /** The call whose StopResponse came first is the earlier call, and it has returned. */
  lemma EarlierStop(w: World, q: ReqId, q': ReqId, k: nat, k': nat)
    requires Inv(w) && q in w.host.calls && q' in w.host.calls && H.SameStop(w.host.calls[q'], w.host.calls[q])
    requires k' < k < |w.server.out| && w.host.calls[q].taken != []
    requires w.server.out[k] == Frame(q, Error(ConfigError)) && w.server.out[k'] == Frame(q', StopResponse)
    ensures q' < q && w.host.calls[q'].pc.Returned?
  {
    assert q != q' by { if q == q' { StopAnswer(w, q, k', k); } }
    if q < q' {
      AnswerBefore(w, q, q', k);
      SinceBefore(w, k');
      assert false;
    }
    assert H.Before(w.host.calls[q'], q', w.host.calls[q], w.host.stream);
  }

  // ------------------------------------------------------ what a successful Stop means

  /**
    Once a stop call has its StopResponse, and so before it returns nil, every
    output and metric flush the server ever writes for the task is applied, in
    the order written, unless the environment rejected one of the task's frames.
    The metrics are among them exactly once, however many stop attempts there
    were, or not at all for a task without metrics.
   */
  lemma StopAppliesEverything(steps: seq<Step>, q: ReqId)
    requires var w := After(steps);
             && q in w.host.calls && w.host.calls[q].isStop && H.LastTaken(w.host.calls[q]).body.StopResponse?
    ensures var w := After(steps); var h := w.host.calls[q].task;
            && h in w.host.tasks && w.host.tasks[h].id in w.server.lives
            && var t, l := w.host.tasks[h], w.server.lives[w.host.tasks[h].id];
               && l.owner == h
               && (t.rejected
                   || (t.applied == Published(w.server.out, h)
                       && SG.FlushCount(t.applied) == (if l.metricless then 0 else 1)))
  {
    AfterInv(steps);
    var w := After(steps);
    hide Inv, After;
    var k := AnswerTaken(w, q);
    StopAnswer(w, q, k, k);
    StopPlace(w, q, k);
    StoppedHasStarted(w, q);
    StopEndsPublishing(w, w.server.stops[q], k);
    SG.CountFlushes(w.server, w.server.stops[q], |w.server.out|) by { ServerInv(w); }
    assert w.server.out[..|w.server.out|] == w.server.out;
    AfterRecorded(steps);
    NothingLost(w, q, k);
    AllApplied(w, w.host.calls[q].task, k);
  }

  lemma AfterRecorded(steps: seq<Step>)
    ensures Recorded(After(steps))
  {
    hide Inv, Recorded, Next;
    InitInv();
    InitRecorded();
    ExecRecorded(INIT, steps);
  }

  /** A task whose stop call has its StopResponse has lost no publication. */
  lemma NothingLost(w: World, q: ReqId, k: nat)
    requires Inv(w) && Recorded(w) && q in w.host.calls && w.host.calls[q].isStop && w.host.calls[q].task in w.host.tasks
    requires k < |w.host.stream| && k < |w.server.out| && w.server.out[k].req == q && w.host.calls[q].taken != []
    requires var h := w.host.calls[q].task;
             forall j :: 0 <= j < |w.server.out| && w.server.out[j].req == h && Publishes(w.server.out[j].body) ==> (j < k)
    ensures !w.host.tasks[w.host.calls[q].task].lost
  {
    hide Inv, Recorded, Publishes;
    forall i | 0 <= i < |w.server.out| && w.server.out[i].req == q
      ensures i == k
    {
      StopAnswer(w, q, i, k);
    }
    StopAnswer(w, q, k, k);
    StopBooked(w, q, k);
    AnsweredLosesNothing(w, q, k);
  }

  lemma StopBooked(w: World, q: ReqId, k: nat)
    requires Inv(w) && q in w.server.stops && k < |w.server.out| && w.server.out[k].req == q
    ensures q in w.server.replyAt && w.server.replyAt[q] == k
    ensures q in w.host.calls && w.host.calls[q].sent.Sent?
  {
    FrameFacts(w, k);
    hide S.Inv, H.Inv;
  }

  lemma ServerInv(w: World)
    requires Inv(w)
    ensures S.Inv(w.server)
  {
  }

  /** Once the host has read past the task's last publication, all of them are applied. */
  lemma AllApplied(w: World, h: ReqId, k: nat)
    requires Inv(w) && h in w.host.tasks && k < |w.host.stream| && w.host.stream[k].body.StopResponse?
    requires forall j :: 0 <= j < |w.server.out| && w.server.out[j].req == h && Publishes(w.server.out[j].body) ==> (j < k)
    requires !w.host.tasks[h].lost
    ensures w.host.tasks[h].rejected || w.host.tasks[h].applied == Published(w.server.out, h)
  {
    hide Inv, Publishes;
    HostTask(w, h);
    assert w.host.stream == w.server.out[..|w.host.stream|];
    NothingPending(w, h, k);
    PublishedStable(w.server.out, |w.host.stream|, h);
  }

  lemma HostTask(w: World, h: ReqId)
    requires Inv(w) && h in w.host.tasks
    ensures H.TaskOk(w.host.tasks[h], h, w.host.stream, w.host.pump) && !w.host.tasks[h].strayed && Piped(w)
  {
  }

  /** A StopResponse in the stream is the place the task's record remembers. */
  lemma StopPlace(w: World, q: ReqId, k: nat)
    requires Inv(w) && k < |w.server.out| && w.server.out[k] == Frame(q, StopResponse)
    ensures q in w.server.stops && w.server.stops[q] in w.server.lives
    ensures w.server.lives[w.server.stops[q]].stopAt == S.Place(k)
  {
    assert S.FrameLife(w.server, w.server.out[k], k);
  }

  /** Nothing is published after the StopResponse; the flush, if any, came before it. */
  lemma StopEndsPublishing(w: World, id: TaskId, k: nat)
    requires Inv(w) && id in w.server.lives && w.server.lives[id].stopAt == S.Place(k)
    ensures var l := w.server.lives[id];
            && (l.flushAt.Place? <==> !l.metricless)
            && (l.flushAt.Place? ==> l.flushAt.k < |w.server.out|)
    ensures var o := w.server.lives[id].owner;
            forall j :: 0 <= j < |w.server.out| && w.server.out[j].req == o && Publishes(w.server.out[j].body) ==> (j < k)
  {
    var l := w.server.lives[id];
    hide Inv, S.FrameKind, Publishes;
    LifeFacts(w, id);
    forall j | 0 <= j < |w.server.out| && w.server.out[j].req == l.owner && Publishes(w.server.out[j].body)
      ensures j < k
    {
      PublishedWithin(w, id, j);
    }
  }

  lemma PublishedWithin(w: World, id: TaskId, j: nat)
    requires Inv(w) && id in w.server.lives && j < |w.server.out|
    requires w.server.out[j].req == w.server.lives[id].owner && Publishes(w.server.out[j].body)
    ensures S.Within(w.server.lives[id], j)
  {
    FrameFacts(w, j);
  }

  /** When the StopResponse has been read, no publication is still on its way to the environment. */
  lemma NothingPending(w: World, h: ReqId, k: nat)
    requires Inv(w) && k < |w.host.stream|
    requires w.host.stream[k].body.StopResponse?
    requires forall j :: 0 <= j < |w.host.stream| && w.host.stream[j].req == h && Publishes(w.host.stream[j].body) ==> j < k
    ensures H.Pending(w.host.pump, h) == []
  {
    assert H.PumpOk(w.host);
  }

  // ------------------------------------------------------------------ events

  /**
    An event the host reads for a task it knows belongs to that very task,
    whichever of the two tables finds it, and carries what the server's task
    was first seen to end with.
   */
  lemma EventReachesItsTask(steps: seq<Step>)
    requires var w := After(steps); var n := |w.host.stream|;
             n < |w.server.out| && w.server.out[n].body.Event? && H.HasEventTask(w.host, w.server.out[n])
    ensures var w := After(steps); var f := w.server.out[|w.host.stream|];
            && H.EventTask(w.host, f) == f.req
            && f.body.task in w.server.lives
            && var l := w.server.lives[f.body.task];
               l.owner == f.req && l.seen != [] && f.body.cause == l.seen[0]
  {
    hide Inv, After;
    AfterInv(steps);
    EventFound(After(steps));
  }

  lemma EventFound(w: World)
    requires Inv(w) && |w.host.stream| < |w.server.out|
    requires var f := w.server.out[|w.host.stream|]; f.body.Event? && H.HasEventTask(w.host, f)
    ensures var f := w.server.out[|w.host.stream|];
            && H.EventTask(w.host, f) == f.req
            && f.body.task in w.server.lives
            && var l := w.server.lives[f.body.task];
               l.owner == f.req && l.seen != [] && f.body.cause == l.seen[0]
  {
    hide Inv;
    var k := |w.host.stream|;
    var id := w.server.out[k].body.task;
    EventWritten(w, k);
    if id in w.host.names {
      NameFacts(w, id);
      Named(w, w.host.names[id]);
    }
  }

  lemma EventWritten(w: World, k: nat)
    requires Inv(w) && k < |w.server.out| && w.server.out[k].body.Event?
    ensures var b := w.server.out[k].body;
            && b.task in w.server.lives
            && var l := w.server.lives[b.task];
               l.owner == w.server.out[k].req && l.seen != [] && b.cause == l.seen[0]
  {
    hide Inv;
    FrameFacts(w, k);
    LifeFacts(w, w.server.out[k].body.task);
  }

  lemma NameFacts(w: World, id: TaskId)
    requires Inv(w) && id in w.host.names
    ensures id != 0 && w.host.names[id] in w.host.tasks && w.host.tasks[w.host.names[id]].id == id
  {
  }

  // -------------------------------------------------------------- from event to Done

  /** The event the read loop has in hand is the last frame, and it is settled for its own request. */
  ghost predicate Settles(w: World) {
    var s := w.host;
    s.pump.pc.Settling? ==>
      && s.stream != []
      && var f := s.stream[|s.stream| - 1];
         f.body.Event? && s.pump.cause == f.body.cause && s.pump.req == f.req
  }

  lemma ReadSettles(w: World, f: Frame)
    requires Inv(w) && |w.host.stream| < |w.server.out| && f == w.server.out[|w.host.stream|] && Settles(w)
    ensures Settles(w.(host := H.Next(w.host, H.Pumping(H.Read(f)))))
  {
    hide Inv;
    if f.body.Event? && H.HasEventTask(w.host, f) { EventFound(w); }
    hide H.HasEventTask, H.EventTask, H.ReadMark;
  }

  /** The read loop takes an event in hand only by reading it. */
  lemma OtherSettles(s: H.Host, a: H.PumpStep)
    requires !(a.Read? && s.pump.pc.Reading?) && H.PumpNext(s, a).pump.pc.Settling?
    ensures H.PumpNext(s, a).pump == s.pump && H.PumpNext(s, a).stream == s.stream
  {
    hide H.ReadFrame, H.FailAll, H.Lists, H.Rejects, NameOut, CleanTask, CompleteTask, Publishes, Deliver;
  }

  lemma HostSettles(w: World, a: H.Step)
    requires Inv(w) && Settles(w) && !(a.Pumping? && a.pump.Read?)
    ensures Settles(w.(host := H.Next(w.host, a)))
  {
    hide Inv, H.CallNext, H.PumpNext, H.Idle;
    match a
    case Calling(r, b) =>
      if r in w.host.calls { H.CallsAfter(w.host, r, b); } else { HG.UnknownCall(w.host, r, b); }
    case Pumping(b) => if H.PumpNext(w.host, b).pump.pc.Settling? { OtherSettles(w.host, b); }
    case _ =>
  }

  lemma NextSettles(w: World, step: Step)
    requires Inv(w) && Settles(w)
    ensures Settles(Next(w, step))
  {
    hide Inv, S.Next, H.Next;
    match step
    case HostReads => if |w.host.stream| < |w.server.out| { ReadSettles(w, w.server.out[|w.host.stream|]); }
    case HostStep(a) => if !ReadsPipe(step) { HostSettles(w, a); }
    case _ =>
  }

  lemma {:induction false} ExecSettles(w: World, steps: seq<Step>)
    requires Inv(w) && Settles(w)
    ensures Settles(Exec(w, steps))
    decreases |steps|
  {
    hide Inv, Settles, Next;
    if steps != [] {
      NextSettles(w, steps[0]);
      NextKeeps(w, steps[0]);
      ExecSettles(Next(w, steps[0]), steps[1..]);
    }
  }

  /**
    When the host settles an event, the task is offered what the server's task was first
    seen to end with; if nothing was offered before, that is what Done carries.
   */
  lemma EventIsOffered(steps: seq<Step>)
    requires After(steps).host.pump.pc.Settling?
    ensures var w := After(steps); var h := w.host.pump.req;
            && h in w.host.tasks && w.host.stream != []
            && var f := w.host.stream[|w.host.stream| - 1];
               && f.body.Event? && f.req == h && f.body.task in w.server.lives
               && var t, l := Next(w, HostStep(H.Pumping(H.Settle))).host.tasks, w.server.lives[f.body.task];
                  && l.owner == h && l.seen != [] && h in t
                  && t[h].offers == w.host.tasks[h].offers + [l.seen[0]]
                  && (w.host.tasks[h].offers == [] ==> t[h].done == [l.seen[0]])
  {
    hide Inv, Settles, Next;
    InitInv();
    AfterInv(steps);
    ExecSettles(INIT, steps) by { InitSettles(); }
    var w := After(steps);
    SettlingFacts(w);
    EventWritten(w, |w.host.stream| - 1) by { PipePrefix(w); }
    PipePrefix(w);
    hide After;
    SettledNow(w);
  }

  lemma InitSettles()
    ensures Settles(INIT)
  {
  }

  lemma SettlingFacts(w: World)
    requires Inv(w) && Settles(w) && w.host.pump.pc.Settling?
    ensures w.host.pump.req in w.host.tasks && FirstOfferIsDone(w.host.tasks[w.host.pump.req])
    ensures w.host.stream != [] && SettledBy(w.host.stream[|w.host.stream| - 1], w.host.pump)
  {
    PumpTask(w.host) by { hide H.Inv; }
    hide Inv;
  }

  ghost predicate FirstOfferIsDone(t: Task) {
    (t.doneCompleted <==> t.offers != []) && (t.offers == [] ==> t.done == [])
  }

  predicate SettledBy(f: Frame, p: H.Pump) {
    f.body.Event? && f.req == p.req && f.body.cause == p.cause
  }

  lemma PumpTask(s: H.Host)
    requires H.Inv(s) && s.pump.pc.Settling?
    ensures s.pump.req in s.tasks && FirstOfferIsDone(s.tasks[s.pump.req])
  {
    assert H.PumpOk(s) && H.Tasks(s);
    hide H.Inv, H.Calls, H.Links, H.SentOk, H.NamesOk, H.NoOverlap;
    assert H.TaskOk(s.tasks[s.pump.req], s.pump.req, s.stream, s.pump);
  }

  lemma SettledNow(w: World)
    requires w.host.pump.pc.Settling? && w.host.pump.req in w.host.tasks
    ensures var t, h := Next(w, HostStep(H.Pumping(H.Settle))).host.tasks, w.host.pump.req;
            h in t && t[h] == CompleteTask(w.host.tasks[h], w.host.pump.cause)
  {
    hide CompleteTask;
  }
}
