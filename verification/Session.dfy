/**
  The host client and the plugin server together, joined by two FIFO byte pipes:
  the server reads the requests the host sent, in order, and the host reads the
  frames the server wrote, in order. Everything else interleaves freely.

  A plugin's artifact calls read their replies from the server's own pipe; while
  one of them waits it may take a request instead, which is then lost.
 */
module Session {
  import opened Wire
  import opened HostTables
  import S = ServerMachine
  import H = HostMachine
  import HG = HostGuarantees

  /**
    `read` counts the requests taken out of the pipe, `lost` has the positions of those
    an artifact call took, and `waiting` counts the artifact calls that wait for a reply.
    `nobody` records the positions of the frames for which the host found nobody, and
    `readAt` how many frames the server had written when it read a request.
   */
  datatype World = World(
    server: S.Server,
    host: H.Host,
    read: nat,
    lost: set<nat>,
    waiting: nat,
    nobody: set<nat>,
    readAt: map<ReqId, nat>)

  datatype Step =
    | ServerReads
    | PluginAwaits
    | PluginReplied
    | PluginSwallows
    | HostReads
    | ServerStep(server: S.Step)
    | HostStep(host: H.Step)

  const INIT := World(S.INIT, H.INIT, 0, {}, 0, {}, map[])

  predicate ReadsPipe(step: Step) {
    || (step.ServerStep? && step.server.Start? && step.server.start.Read?)
    || (step.HostStep? && step.host.Pumping? && step.host.pump.Read?)
  }

  function Unclaimed(s: H.Host, f: Frame, nobody: set<nat>): set<nat> {
    if s.pump.pc.Reading? && H.RouteOf(s, f).Nowhere? then nobody + {|s.stream|} else nobody
  }

  function Next(w: World, step: Step): World {
    if ReadsPipe(step) then w
    else
      match step
      case ServerReads =>
        if w.read < |w.host.sent| && w.server.handler.pc.Idle?
        then
          var r := w.host.sent[w.read];
          w.(server := S.Next(w.server, S.Start(S.Read(r))), read := w.read + 1, readAt := w.readAt[r.req := |w.server.out|])
        else w
      case PluginAwaits => if w.server.starts != {} then w.(waiting := w.waiting + 1) else w
      case PluginReplied => if w.waiting > 0 then w.(waiting := w.waiting - 1) else w
      case PluginSwallows =>
        if w.waiting > 0 && w.read < |w.host.sent|
        then w.(read := w.read + 1, lost := w.lost + {w.read}, waiting := w.waiting - 1)
        else w
      case HostReads =>
        if |w.host.stream| < |w.server.out|
        then
          var f := w.server.out[|w.host.stream|];
          w.(host := H.Next(w.host, H.Pumping(H.Read(f))), nobody := Unclaimed(w.host, f, w.nobody))
        else w
      case ServerStep(a) => w.(server := S.Next(w.server, a))
      case HostStep(a) => w.(host := H.Next(w.host, a))
  }

  function Exec(w: World, steps: seq<Step>): World
    decreases |steps|
  {
    if steps == [] then w else Exec(Next(w, steps[0]), steps[1..])
  }

  // ---------------------------------------------------------- the joint invariant

  /** The requests that are left when those at the positions `lost` are taken out. */
  function Without(requests: seq<Request>, lost: set<nat>): seq<Request> {
    if requests == [] then []
    else
      var n := |requests| - 1;
      Without(requests[..n], lost) + (if n in lost then [] else [requests[n]])
  }

  /** The pipes duplicate and reorder nothing, and lose nothing but what artifact calls take. */
  ghost predicate Piped(w: World) {
    && w.host.stream <= w.server.out
    && w.read <= |w.host.sent| && (forall i :: i in w.lost ==> i < w.read)
    && w.server.got == Without(w.host.sent[..w.read], w.lost)
  }

  lemma WithoutMore(sent: seq<Request>, n: nat, lost: set<nat>)
    requires n < |sent|
    ensures Without(sent[..n + 1], lost) == Without(sent[..n], lost) + (if n in lost then [] else [sent[n]])
  {
    assert sent[..n + 1][..n] == sent[..n];
  }

  /** Positions past the end do not matter. */
  lemma {:induction false} WithoutFar(requests: seq<Request>, lost: set<nat>, n: nat)
    requires |requests| <= n
    ensures Without(requests, lost + {n}) == Without(requests, lost)
  {
    if requests != [] { WithoutFar(requests[..|requests| - 1], lost, n); }
  }

  ghost predicate Reached(c: H.Call, read: nat) {
    c.sent.Sent? && c.sent.k < read
  }

  /** What the server was asked is what the host's calls asked. */
  ghost predicate Requests(w: World) {
    && (forall r :: r in w.server.starts ==>
          r in w.host.calls && !w.host.calls[r].isStop && Reached(w.host.calls[r], w.read))
    && (forall q :: q in w.server.stops ==>
          && q in w.host.calls && w.host.calls[q].isStop && Reached(w.host.calls[q], w.read)
          && w.host.calls[q].task in w.host.tasks
          && w.server.stops[q] == w.host.tasks[w.host.calls[q].task].id)
  }

  /** No call is answered before it registered its waiter. */
  ghost predicate AnswersLater(w: World) {
    forall k :: 0 <= k < |w.server.out| ==>
      w.server.out[k].req in w.host.calls && w.host.calls[w.server.out[k].req].since <= k
  }

  /** Outputs and metrics are published only for tasks whose Start has returned. */
  ghost predicate PublishedLater(w: World) {
    forall k :: 0 <= k < |w.server.out| && Publishes(w.server.out[k].body) ==>
      && w.server.out[k].req in w.host.calls
      && !w.host.calls[w.server.out[k].req].isStop
      && w.host.calls[w.server.out[k].req].pc.Returned?
  }

  ghost predicate NoneStrayed(w: World) {
    forall h :: h in w.host.tasks ==> !w.host.tasks[h].strayed
  }

  ghost predicate Joint(w: World) {
    && Piped(w) && Requests(w) && AnswersLater(w) && PublishedLater(w) && NoneStrayed(w)
    && (w.server.strangers == {} || w.host.failed)
  }

  ghost predicate Inv(w: World) {
    S.Inv(w.server) && H.Inv(w.host) && Joint(w)
  }

  lemma InitInv()
    ensures Inv(INIT)
  {
    S.InitInv();
    H.InitInv();
  }

  // ------------------------------------------------------------- task identities

  /** The last frame a call took is in the stream, addressed to it. */
  lemma TakenAt(s: H.Host, r: ReqId) returns (k: nat)
    requires H.Calls(s) && r in s.calls && s.calls[r].taken != []
    ensures k < |s.stream| && s.stream[k] == H.LastTaken(s.calls[r]) && s.stream[k].req == r
    ensures s.calls[r].since <= k
  {
    hide H.Calls, H.CallOk, Addressed, Frames;
    var c := s.calls[r];
    CallIsOk(s, r);
    Held(c, r, s);
    TakenFirst(c.taken, Frames(c), Addressed(s.stream, c.since, r));
    k := AddressedAt(s.stream, c.since, r, |c.taken| - 1);
  }

  lemma CallIsOk(s: H.Host, r: ReqId)
    requires H.Calls(s) && r in s.calls
    ensures H.CallOk(s.calls[r], r, s.stream, s.pump, s.failed)
    ensures s.calls[r].since <= |s.stream|
  {
  }

  lemma TakenFirst(taken: seq<Frame>, queued: seq<Frame>, all: seq<Frame>)
    requires taken != [] && taken + queued <= all
    ensures |taken| <= |all| && all[|taken| - 1] == taken[|taken| - 1]
  {
    assert (taken + queued)[|taken| - 1] == taken[|taken| - 1];
  }

  function Frames(c: H.Call): seq<Frame> {
    H.Frames(c.box.queue)
  }

  lemma Held(c: H.Call, r: ReqId, s: H.Host)
    requires H.CallOk(c, r, s.stream, s.pump, s.failed)
    ensures c.taken + Frames(c) <= Addressed(s.stream, c.since, r)
  {
    var held := c.taken + Frames(c);
    assert held <= held + H.Handing(s.pump, r);
  }

  /** An id the host knows a task by is the server's task for that very start request. */
  lemma Named(w: World, h: ReqId)
    requires Inv(w) && h in w.host.tasks && w.host.tasks[h].id != 0
    ensures var id := w.host.tasks[h].id;
            id in w.server.lives && w.server.lives[id].owner == h
  {
    var s, c, id := w.host, w.host.calls[h], w.host.tasks[h].id;
    assert H.LinkOk(s, h) && H.LastTaken(c).body == StartResponse(id) && c.taken != [];
    hide S.Inv, H.Inv, H.LinkOk, Joint;
    NamedFrame(w, h, id);
  }

  lemma NamedFrame(w: World, h: ReqId, id: TaskId)
    requires Inv(w) && h in w.host.calls && w.host.calls[h].taken != []
    requires H.LastTaken(w.host.calls[h]).body == StartResponse(id)
    ensures id in w.server.lives && w.server.lives[id].owner == h
  {
    hide S.Ids, S.HandlerOk, S.RepliesOk, S.Kinds, S.Tasks, S.Places;
    hide H.Links, H.Tasks, H.SentOk, H.NamesOk, H.NoOverlap, H.PumpOk, H.Calls, Requests, AnswersLater, PublishedLater;
    var k := TakenAt(w.host, h);
    assert w.server.out[k] == w.host.stream[k];
    assert S.FrameLife(w.server, w.server.out[k], k);
  }

  // ------------------------------------------------------------ a step of the host

  /** What no host step takes back. */
  ghost predicate HostGrows(s: H.Host, t: H.Host) {
    && s.stream <= t.stream && s.sent <= t.sent && (s.failed ==> t.failed)
    && (forall q :: q in s.calls ==> q in t.calls && CallGrows(s.calls[q], t.calls[q]))
    && (forall h :: h in s.tasks ==> h in t.tasks)
  }

  ghost predicate CallGrows(c: H.Call, c': H.Call) {
    && c'.isStop == c.isStop && c'.task == c.task && c'.since == c.since
    && (c.sent.Sent? ==> c'.sent == c.sent)
    && (c.pc.Returned? ==> c'.pc.Returned?)
  }

  lemma CallActGrows(c: H.Call, failed: bool, n: nat, hostClosed: bool, a: H.CallStep)
    requires H.PcOk(c, failed)
    ensures CallGrows(c, H.CallAct(c, n, hostClosed, a))
  {
  }

  lemma CallNextGrows(s: H.Host, r: ReqId, a: H.CallStep)
    requires r in s.calls && H.PcOk(s.calls[r], s.failed)
    ensures HostGrows(s, H.CallNext(s, r, a))
  {
    CallActGrows(s.calls[r], s.failed, |s.sent|, s.closed, a);
    hide H.CallAct, H.TaskAct, H.NamesAfter, H.SentBy;
  }

  lemma PumpNextGrows(s: H.Host, a: H.PumpStep)
    ensures HostGrows(s, H.PumpNext(s, a))
  {
    HG.SameProgress(s, a);
    PumpStream(s, a);
    hide H.PumpNext;
  }

  lemma PumpStream(s: H.Host, a: H.PumpStep)
    ensures var t := H.PumpNext(s, a);
            && t.sent == s.sent && (s.failed ==> t.failed)
            && t.stream == s.stream + (if a.Read? && s.pump.pc.Reading? then [a.frame] else [])
  {
    hide H.RouteOf, H.ReadPump, H.ReadMark, Deliver, H.FailAll, H.Lists, H.NextTodo, H.Rejects, NameOut, CleanTask, CompleteTask;
  }

  lemma BeginGrows(s: H.Host, a: H.Step)
    requires (s.next + 1) !in s.calls && !a.Calling? && !a.Pumping?
    ensures HostGrows(s, H.Next(s, a)) && H.Next(s, a).stream == s.stream
  {
    hide H.Idle;
  }

  lemma CallGrowsHost(s: H.Host, r: ReqId, a: H.CallStep)
    requires H.Inv(s)
    ensures HostGrows(s, H.CallNext(s, r, a)) && H.CallNext(s, r, a).stream == s.stream
  {
    CallStream(s, r, a);
    if r in s.calls {
      OneCall(s, r);
      hide H.PcOk, H.BoxOk, H.CallNext, HostGrows;
      CallNextGrows(s, r, a);
    } else {
      HG.UnknownCall(s, r, a);
    }
  }

  lemma HostStepGrows(s: H.Host, a: H.Step)
    requires H.Inv(s)
    ensures HostGrows(s, H.Next(s, a))
    ensures !(a.Pumping? && a.pump.Read?) ==> H.Next(s, a).stream == s.stream
  {
    H.FreshId(s);
    hide H.Inv, H.CallNext, H.PumpNext, H.Idle, HostGrows;
    match a
    case Calling(r, b) => CallGrowsHost(s, r, b);
    case Pumping(b) => PumpNextGrows(s, b); PumpStream(s, b);
    case _ => BeginGrows(s, a);
  }

  lemma CallStream(s: H.Host, r: ReqId, a: H.CallStep)
    ensures H.CallNext(s, r, a).stream == s.stream
  {
    hide H.CallAct, H.TasksAfter, H.NamesAfter, H.SentBy, H.Fails;
  }

  lemma OneCall(s: H.Host, r: ReqId)
    requires H.Calls(s) && r in s.calls
    ensures H.PcOk(s.calls[r], s.failed) && H.BoxOk(s.calls[r], r, s.stream, s.pump, s.failed)
  {
    assert H.CallOk(s.calls[r], r, s.stream, s.pump, s.failed);
  }

  /** The requests the server knows stay the requests the host made. */
  lemma HostKeepsRequests(w: World, t: H.Host)
    requires Requests(w) && HostGrows(w.host, t) && H.Links(w.host) && H.Links(t)
    ensures Requests(w.(host := t))
  {
    forall q | q in w.server.stops
      ensures var c := t.calls[q]; c.isStop && c.task in t.tasks && w.server.stops[q] == t.tasks[c.task].id
    {
      SameId(w.host, t, q);
    }
  }

  lemma SameId(s: H.Host, t: H.Host, q: ReqId)
    requires HostGrows(s, t) && H.Links(s) && H.Links(t) && q in s.calls && s.calls[q].isStop && s.calls[q].sent.Sent?
    ensures t.calls[q].isStop && s.calls[q].task in s.tasks && t.calls[q].task in t.tasks
    ensures t.tasks[t.calls[q].task].id == s.tasks[s.calls[q].task].id
  {
    assert H.LinkOk(s, q) && H.LinkOk(t, q);
    var k := s.calls[q].sent.k;
    assert t.sent[k] == s.sent[k];
  }

  /** A host step that reads no frame, or that reads the next one in the pipe. */
  ghost predicate InPipe(w: World, a: H.Step) {
    a.Pumping? && a.pump.Read? ==>
      |w.host.stream| < |w.server.out| && a.pump.frame == w.server.out[|w.host.stream|]
  }

  lemma HostPiped(w: World, a: H.Step)
    requires Piped(w) && InPipe(w, a) && H.Inv(w.host)
    ensures Piped(w.(host := H.Next(w.host, a)))
  {
    HostStepGrows(w.host, a);
    if a.Pumping? { PumpStream(w.host, a.pump); }
    hide H.Inv, HostGrows;
    PipedGrows(w, a);
  }

  lemma PipedGrows(w: World, a: H.Step)
    requires Piped(w) && InPipe(w, a) && HostGrows(w.host, H.Next(w.host, a))
    requires !(a.Pumping? && a.pump.Read?) ==> H.Next(w.host, a).stream == w.host.stream
    requires a.Pumping? && a.pump.Read? ==>
               H.Next(w.host, a).stream == w.host.stream + (if w.host.pump.pc.Reading? then [a.pump.frame] else [])
    ensures Piped(w.(host := H.Next(w.host, a)))
  {
    hide H.Next, Without;
    assert H.Next(w.host, a).sent[..w.read] == w.host.sent[..w.read];
  }

  // ------------------------------------------------------- no publication strays

  lemma NotReadByStart(w: World, h: ReqId, k: nat)
    requires Piped(w) && PublishedLater(w) && k < |w.host.stream| && w.host.stream[k].req == h
    requires Publishes(w.host.stream[k].body)
    ensures h in w.host.calls && w.host.calls[h].pc.Returned?
  {
    assert w.server.out[k] == w.host.stream[k];
  }

  lemma CallStrays(w: World, r: ReqId, a: H.CallStep)
    requires H.Inv(w.host) && Piped(w) && PublishedLater(w) && NoneStrayed(w) && r in w.host.calls
    ensures NoneStrayed(w.(host := H.CallNext(w.host, r, a)))
  {
    hide H.Inv, H.CallNext, PublishedLater, Piped, Published, Publishes, H.LastTaken, NoneStrayed;
    if a.Enlist? && w.host.calls[r].pc.Enlisting? { NothingBeforeEnlisting(w, r); }
    if a.ApplyAtStart? && w.host.calls[r].pc.Applying? { StartTakesNoPublication(w, r); }
    CallStrayed(w, r, a);
  }

  lemma NothingBeforeEnlisting(w: World, r: ReqId)
    requires Piped(w) && PublishedLater(w) && r in w.host.calls && !w.host.calls[r].pc.Returned?
    ensures Published(w.host.stream, r) == []
  {
    hide Piped, PublishedLater, Published;
    forall k | 0 <= k < |w.host.stream| && w.host.stream[k].req == r
      ensures !Publishes(w.host.stream[k].body)
    {
      if Publishes(w.host.stream[k].body) { NotReadByStart(w, r, k); }
    }
    PublishedNone(w.host.stream, r);
  }

  lemma StartTakesNoPublication(w: World, r: ReqId)
    requires H.Inv(w.host) && Piped(w) && PublishedLater(w) && r in w.host.calls && w.host.calls[r].pc.Applying?
    ensures !Publishes(H.LastTaken(w.host.calls[r]).body)
  {
    hide H.Inv, Piped, PublishedLater, Publishes, H.LastTaken;
    if Publishes(H.LastTaken(w.host.calls[r]).body) {
      var k := LastTakenAt(w.host, r);
      NotReadByStart(w, r, k);
    }
  }

  lemma LastTakenAt(s: H.Host, r: ReqId) returns (k: nat)
    requires H.Inv(s) && r in s.calls && Publishes(H.LastTaken(s.calls[r]).body)
    ensures k < |s.stream| && s.stream[k] == H.LastTaken(s.calls[r]) && s.stream[k].req == r
  {
    hide H.Inv, H.Calls, H.Links;
    AllCalls(s);
    PublicationTaken(s.calls[r]);
    k := TakenAt(s, r);
  }

  lemma PublicationTaken(c: H.Call)
    requires Publishes(H.LastTaken(c).body)
    ensures c.taken != []
  {
  }

  lemma CallStrayed(w: World, r: ReqId, a: H.CallStep)
    requires NoneStrayed(w) && r in w.host.calls
    requires a.Enlist? && w.host.calls[r].pc.Enlisting? ==> Published(w.host.stream, r) == []
    requires a.ApplyAtStart? && w.host.calls[r].pc.Applying? ==> !Publishes(H.LastTaken(w.host.calls[r]).body)
    ensures NoneStrayed(w.(host := H.CallNext(w.host, r, a)))
  {
    hide H.CallAct, H.SentBy, H.NamesAfter, Published, Publishes;
  }

  lemma PumpStrays(w: World, a: H.PumpStep)
    requires NoneStrayed(w) && H.Calls(w.host)
    requires a.Read? && w.host.pump.pc.Reading? && Publishes(a.frame.body) ==>
               a.frame.req in w.host.calls && w.host.calls[a.frame.req].pc.Returned?
    ensures NoneStrayed(w.(host := H.PumpNext(w.host, a)))
  {
    var s, t := w.host, H.PumpNext(w.host, a);
    HG.SameProgress(s, a);
    forall h | h in t.tasks
      ensures !t.tasks[h].strayed
    {
      if a.Read? && s.pump.pc.Reading? {
        ReadStrays(s, a.frame, h);
      } else {
        OtherStrays(s, a, h);
      }
    }
  }

  lemma ReadStrays(s: H.Host, f: Frame, h: ReqId)
    requires h in s.tasks && !s.tasks[h].strayed && H.Calls(s)
    requires Publishes(f.body) ==> f.req in s.calls && s.calls[f.req].pc.Returned?
    ensures h in H.ReadFrame(s, f).tasks && !H.ReadFrame(s, f).tasks[h].strayed
  {
    if f.req in s.calls { OneCall(s, f.req); }
    hide H.ReadPump, H.Calls, H.PcOk, Publishes;
  }

  lemma OtherStrays(s: H.Host, a: H.PumpStep, h: ReqId)
    requires h in s.tasks && !s.tasks[h].strayed && !(a.Read? && s.pump.pc.Reading?)
    ensures h in H.PumpNext(s, a).tasks && !H.PumpNext(s, a).tasks[h].strayed
  {
    hide H.RouteOf, H.ReadPump, H.ReadMark, H.ReadFrame, Deliver, H.FailAll, H.Lists, H.NextTodo, H.Rejects, NameOut;
  }

  lemma HostStrays(w: World, a: H.Step)
    requires H.Inv(w.host) && Piped(w) && PublishedLater(w) && NoneStrayed(w) && InPipe(w, a)
    ensures NoneStrayed(w.(host := H.Next(w.host, a)))
  {
    hide H.Inv, H.CallNext, H.PumpNext, H.Idle, PublishedLater, Piped;
    match a
    case Calling(r, b) =>
      if r in w.host.calls { CallStrays(w, r, b); } else { HG.UnknownCall(w.host, r, b); }
    case Pumping(b) =>
      if b.Read? && Publishes(b.frame.body) { NextPublication(w); }
      assert H.Calls(w.host) by { AllCalls(w.host); }
      PumpStrays(w, b);
    case _ =>
  }

  lemma AllCalls(s: H.Host)
    requires H.Inv(s)
    ensures H.Calls(s) && H.Links(s)
  {
  }

  lemma NextPublication(w: World)
    requires PublishedLater(w) && |w.host.stream| < |w.server.out|
    requires Publishes(w.server.out[|w.host.stream|].body)
    ensures var r := w.server.out[|w.host.stream|].req; r in w.host.calls && w.host.calls[r].pc.Returned?
  {
  }

  lemma HostKeepsFrames(w: World, t: H.Host)
    requires AnswersLater(w) && PublishedLater(w) && HostGrows(w.host, t)
    ensures AnswersLater(w.(host := t)) && PublishedLater(w.(host := t))
  {
  }

  lemma HostKeeps(w: World, a: H.Step)
    requires Inv(w) && InPipe(w, a)
    ensures Inv(w.(host := H.Next(w.host, a)))
  {
    hide S.Inv, H.Inv, H.Next, HostGrows, Piped, Requests, AnswersLater, PublishedLater, NoneStrayed, InPipe;
    var t := H.Next(w.host, a);
    H.NextKeeps(w.host, a);
    HostStepGrows(w.host, a);
    AllCalls(w.host);
    AllCalls(t);
    HostKeepsRequests(w, t);
    HostPiped(w, a);
    HostStrays(w, a);
    HostKeepsFrames(w, t);
    assert w.host.failed ==> t.failed by { StaysFailed(w.host, t); }
  }

  lemma StaysFailed(s: H.Host, t: H.Host)
    requires HostGrows(s, t)
    ensures s.failed ==> t.failed
  {
  }

  // ---------------------------------------------------------- a step of the server

  /** A server step that reads nothing adds at most one frame, and publishes only for a task being stopped. */
  ghost predicate ServerGrows(s: S.Server, t: S.Server) {
    && t.got == s.got && t.starts == s.starts && t.stops == s.stops && t.strangers == s.strangers
    && s.out <= t.out && |t.out| <= |s.out| + 1
    && (|t.out| == |s.out| + 1 && Publishes(t.out[|s.out|].body) ==>
          exists q :: q in s.stops && s.stops[q] in s.lives && s.lives[s.stops[q]].owner == t.out[|s.out|].req)
  }

  lemma ApplyGrows(s: S.Server, id: TaskId, e: S.Effect)
    requires |e.frames| <= 1
    requires e.frames != [] && Publishes(e.frames[0].body) ==>
               s.handler.req in s.stops && s.stops[s.handler.req] in s.lives
               && s.lives[s.stops[s.handler.req]].owner == e.frames[0].req
    ensures ServerGrows(s, S.Apply(s, id, e))
  {
  }

  lemma ServerStepGrows(s: S.Server, a: S.Step)
    requires S.Ids(s) && S.HandlerOk(s) && !(a.Start? && a.start.Read?)
    ensures ServerGrows(s, S.Next(s, a))
  {
    hide S.Ids, S.StopAct, S.CloseAct, S.MonitorAct, S.Apply, ServerGrows, S.StartNext, S.HandlerOk;
    match a
    case Start(b) => StartGrows(s, b);
    case Stop(b) =>
      if s.handler.id in s.lives {
        StopFrames(s.lives[s.handler.id], s.handler, |s.out|, s.broken, b);
        BusyHandler(s);
        ApplyGrows(s, s.handler.id, S.StopAct(s.lives[s.handler.id], s.handler, |s.out|, s.broken, b));
      } else {
        Unchanged(s);
      }
    case Close(b) =>
      if s.handler.id in s.lives {
        CloseFrames(s.lives[s.handler.id], s.handler, |s.out|, s.broken, b);
        ApplyGrows(s, s.handler.id, S.CloseAct(s.lives[s.handler.id], s.handler, |s.out|, s.broken, b));
      } else {
        Unchanged(s);
      }
    case Monitoring(id, b) =>
      if id in s.lives {
        MonitorFrames(s.lives[id], id, |s.out|, s.broken, b);
        var (l, fs) := S.MonitorAct(s.lives[id], id, |s.out|, s.broken, b);
        ApplyGrows(s, id, S.Effect(l, s.handler, fs));
      } else {
        Unchanged(s);
      }
    case Done(id, b) =>
      if id in s.lives {
        ApplyGrows(s, id, S.Effect(S.DoneAct(s.lives[id], b), s.handler, []));
      } else {
        Unchanged(s);
      }
    case PluginArtifact(req, payload) => PluginGrows(s, req, payload);
    case Unsupported(req) => PluginGrows(s, req, "");
    case Break => PluginGrows(s, 0, "");
  }

  lemma Unchanged(s: S.Server)
    ensures ServerGrows(s, s)
  {
  }

  lemma PluginGrows(s: S.Server, req: ReqId, payload: string)
    ensures ServerGrows(s, S.Next(s, S.PluginArtifact(req, payload)))
    ensures ServerGrows(s, S.Next(s, S.Break)) && ServerGrows(s, S.Refuse(s, req))
  {
  }

  lemma StartGrows(s: S.Server, a: S.StartStep)
    requires !a.Read?
    ensures ServerGrows(s, S.StartNext(s, a))
  {
  }

  lemma BusyHandler(s: S.Server)
    requires S.HandlerOk(s)
    ensures S.Busy(s.handler.pc) ==>
              s.handler.req in s.stops && s.stops[s.handler.req] == s.handler.id && s.handler.id in s.lives
  {
  }

  lemma StopFrames(l: S.Life, h: S.Handler, n: nat, broken: bool, a: S.StopStep)
    ensures var fs := S.StopAct(l, h, n, broken, a).frames;
            |fs| <= 1 && (fs != [] && Publishes(fs[0].body) ==> S.Busy(h.pc) && fs[0].req == l.owner)
  {
  }

  lemma CloseFrames(l: S.Life, h: S.Handler, n: nat, broken: bool, a: S.CloseStep)
    ensures var fs := S.CloseAct(l, h, n, broken, a).frames; |fs| <= 1 && (fs != [] ==> !Publishes(fs[0].body))
  {
  }

  lemma MonitorFrames(l: S.Life, id: TaskId, n: nat, broken: bool, a: S.MonitorStep)
    ensures var fs := S.MonitorAct(l, id, n, broken, a).1; |fs| <= 1 && (fs != [] ==> !Publishes(fs[0].body))
  {
  }

  /** A stop request the server has read is for a task whose Start returned. */
  lemma StoppedHasStarted(w: World, q: ReqId)
    requires Inv(w) && q in w.server.stops && w.server.stops[q] in w.server.lives
    ensures q in w.host.calls && w.host.calls[q].isStop
    ensures var h := w.host.calls[q].task;
            && w.server.lives[w.server.stops[q]].owner == h && h in w.host.calls
            && !w.host.calls[h].isStop && w.host.calls[h].pc.Returned?
  {
    assert H.LinkOk(w.host, q);
    assert w.server.stops[q] != 0;
    Named(w, w.host.calls[q].task);
  }

  lemma NewFrameAnswers(w: World, t: S.Server)
    requires Piped(w) && Requests(w) && H.Calls(w.host) && ServerGrows(w.server, t) && S.Kinds(t)
    requires |t.out| > |w.server.out|
    ensures var r := t.out[|w.server.out|].req; r in w.host.calls && w.host.calls[r].since <= |w.server.out|
  {
    var n := |w.server.out|;
    assert S.FrameKind(t, t.out[n], n);
    OneCall(w.host, t.out[n].req);
  }

  lemma NewFramePublishes(w: World, t: S.Server)
    requires Inv(w) && ServerGrows(w.server, t) && |t.out| > |w.server.out| && Publishes(t.out[|w.server.out|].body)
    ensures var r := t.out[|w.server.out|].req;
            r in w.host.calls && !w.host.calls[r].isStop && w.host.calls[r].pc.Returned?
  {
    hide Inv;
    var q :| q in w.server.stops && w.server.stops[q] in w.server.lives
             && w.server.lives[w.server.stops[q]].owner == t.out[|w.server.out|].req;
    StoppedHasStarted(w, q);
  }

  lemma FramesGrow(w: World, t: S.Server)
    requires AnswersLater(w) && PublishedLater(w) && w.server.out <= t.out && |t.out| <= |w.server.out| + 1
    requires |t.out| > |w.server.out| ==>
               var f := t.out[|w.server.out|];
               && f.req in w.host.calls && w.host.calls[f.req].since <= |w.server.out|
               && (Publishes(f.body) ==> !w.host.calls[f.req].isStop && w.host.calls[f.req].pc.Returned?)
    ensures AnswersLater(w.(server := t)) && PublishedLater(w.(server := t))
  {
    hide Publishes;
  }

  lemma ServerKeepsFrames(w: World, t: S.Server)
    requires Inv(w) && ServerGrows(w.server, t) && S.Kinds(t)
    ensures AnswersLater(w.(server := t)) && PublishedLater(w.(server := t))
  {
    hide S.Inv, H.Inv, S.Kinds, Requests, Publishes, H.Calls, H.Links, Piped, NoneStrayed, AnswersLater, PublishedLater;
    AllCalls(w.host);
    if |t.out| > |w.server.out| {
      NewFrameAnswers(w, t);
      if Publishes(t.out[|w.server.out|].body) { NewFramePublishes(w, t); }
    }
    FramesGrow(w, t);
  }

  lemma ServerKeeps(w: World, a: S.Step)
    requires Inv(w) && !(a.Start? && a.start.Read?)
    ensures Inv(w.(server := S.Next(w.server, a)))
  {
    hide H.Inv, S.Next, AnswersLater, PublishedLater, S.Kinds, S.Frames, S.Places, S.Tasks, S.Ids, S.HandlerOk, S.RepliesOk;
    S.NextKeeps(w.server, a);
    ServerStepGrows(w.server, a);
    ServerKeepsFrames(w, S.Next(w.server, a));
  }

  // ------------------------------------------------------ the server reads a request

  /** The next request in the pipe is new to the server, and was sent by a call. */
  lemma NextRequest(w: World)
    requires Piped(w) && Requests(w) && H.SentOk(w.host) && H.Links(w.host) && w.read < |w.host.sent|
    ensures var r := w.host.sent[w.read];
            && r.req in w.host.calls && w.host.calls[r.req].sent == H.Sent(w.read)
            && r.req !in w.server.starts && r.req !in w.server.stops
            && (w.host.calls[r.req].isStop <==> r.StopRequest?)
            && (r.StopRequest? ==>
                  && w.host.calls[r.req].task in w.host.tasks
                  && r.task == w.host.tasks[w.host.calls[r.req].task].id)
  {
    var r := w.host.sent[w.read];
    assert H.LinkOk(w.host, r.req);
  }

  /** A stop request for an unknown task is only sent once the transport has failed. */
  lemma NoStranger(w: World)
    requires Inv(w) && w.read < |w.host.sent| && w.host.sent[w.read].StopRequest?
    ensures w.host.sent[w.read].task in w.server.lives || w.host.failed
  {
    NextRequest(w);
    var h := w.host.calls[w.host.sent[w.read].req].task;
    assert H.LinkOk(w.host, w.host.sent[w.read].req) && H.LinkOk(w.host, h);
    hide S.Inv, Requests, AnswersLater, PublishedLater, NoneStrayed;
    if w.host.tasks[h].id != 0 { Named(w, h); }
  }

  /** What reading a request does to the server's books. */
  lemma ReadBooks(s: S.Server, r: Request)
    requires r.req !in s.starts && r.req !in s.stops
    ensures var t := S.ReadRequest(s, r);
            && t.out == s.out
            && (t == s
                || (&& t.got == s.got + [r]
                    && t.starts == s.starts + (if r.StartRequest? then {r.req} else {})
                    && t.stops == (if r.StopRequest? then s.stops[r.req := r.task] else s.stops)
                    && (t.strangers == s.strangers || (r.StopRequest? && r.task !in s.lives))))
    ensures s.handler.pc.Idle? ==> S.ReadRequest(s, r).got == s.got + [r]
  {
    match r {
      case StartRequest(_) =>
      case StopRequest(_, id) => if id in s.lives {}
    }
  }

  lemma ServerReadsKeeps(w: World)
    requires Inv(w) && w.read < |w.host.sent| && w.server.handler.pc.Idle?
    ensures Inv(Next(w, ServerReads))
  {
    hide S.Inv, H.Inv, S.ReadRequest, Joint, H.LinkOk;
    var r := w.host.sent[w.read];
    NextRequest(w) by { JointParts(w); }
    if r.StopRequest? { NoStranger(w); }
    ReadBooks(w.server, r);
    S.NextKeeps(w.server, S.Start(S.Read(r)));
    ReadJoint(w, S.ReadRequest(w.server, r), r);
    HistoryKeeps(w.(server := S.ReadRequest(w.server, r), read := w.read + 1), Next(w, ServerReads));
  }

  /** What is recorded only for the record changes nothing. */
  lemma HistoryKeeps(w: World, v: World)
    requires Inv(w) && v == w.(nobody := v.nobody, readAt := v.readAt)
    ensures Inv(v)
  {
    hide S.Inv, H.Inv, Publishes;
  }

  lemma JointParts(w: World)
    requires Inv(w)
    ensures Piped(w) && Requests(w) && H.SentOk(w.host) && H.Links(w.host)
  {
    hide S.Inv;
  }

  lemma ReadJoint(w: World, t: S.Server, r: Request)
    requires Joint(w) && w.read < |w.host.sent| && r == w.host.sent[w.read]
    requires r.req in w.host.calls && w.host.calls[r.req].sent == H.Sent(w.read)
    requires w.host.calls[r.req].isStop <==> r.StopRequest?
    requires r.StopRequest? ==>
               && w.host.calls[r.req].task in w.host.tasks && r.task == w.host.tasks[w.host.calls[r.req].task].id
               && (r.task in w.server.lives || w.host.failed)
    requires t.out == w.server.out
    requires t.got == w.server.got + [r]
    requires t.starts == w.server.starts + (if r.StartRequest? then {r.req} else {})
    requires t.stops == (if r.StopRequest? then w.server.stops[r.req := r.task] else w.server.stops)
    requires t.strangers == w.server.strangers || (r.StopRequest? && r.task !in w.server.lives)
    ensures Joint(w.(server := t, read := w.read + 1))
  {
    var v := w.(server := t, read := w.read + 1);
    ReadPiped(w, v, r);
    hide Piped, Publishes;
  }

  lemma ReadPiped(w: World, v: World, r: Request)
    requires Piped(w) && w.read < |w.host.sent| && r == w.host.sent[w.read]
    requires v == w.(server := v.server, read := w.read + 1) && v.server.got == w.server.got + [r]
    requires v.server.out == w.server.out
    ensures Piped(v)
  {
    hide Without;
    WithoutMore(w.host.sent, w.read, w.lost);
  }

  /** A request taken by an artifact call never reaches the server's books. */
  lemma SwallowKeeps(w: World)
    requires Inv(w) && w.waiting > 0 && w.read < |w.host.sent|
    ensures Inv(w.(read := w.read + 1, lost := w.lost + {w.read}, waiting := w.waiting - 1))
  {
    hide S.Inv, H.Inv, Publishes, Without;
    var v := w.(read := w.read + 1, lost := w.lost + {w.read}, waiting := w.waiting - 1);
    WithoutMore(w.host.sent, w.read, v.lost);
    WithoutFar(w.host.sent[..w.read], w.lost, w.read);
    assert Piped(v);
    assert Requests(v);
  }

  lemma WaitingKeeps(w: World, waiting: nat)
    requires Inv(w)
    ensures Inv(w.(waiting := waiting))
  {
    hide S.Inv, H.Inv, Publishes;
  }

  lemma NextKeeps(w: World, step: Step)
    requires Inv(w)
    ensures Inv(Next(w, step))
  {
    hide Inv, S.Next, H.Next;
    match step
    case ServerReads => if w.read < |w.host.sent| && w.server.handler.pc.Idle? { ServerReadsKeeps(w); }
    case PluginAwaits => WaitingKeeps(w, w.waiting + 1);
    case PluginReplied => WaitingKeeps(w, if w.waiting > 0 then w.waiting - 1 else 0);
    case PluginSwallows => if w.waiting > 0 && w.read < |w.host.sent| { SwallowKeeps(w); }
    case HostReads =>
      if |w.host.stream| < |w.server.out| {
        var f := w.server.out[|w.host.stream|];
        HostKeeps(w, H.Pumping(H.Read(f)));
        HistoryKeeps(w.(host := H.Next(w.host, H.Pumping(H.Read(f)))), Next(w, step));
      }
    case ServerStep(a) => if !ReadsPipe(step) { ServerKeeps(w, a); }
    case HostStep(a) => if !ReadsPipe(step) { HostKeeps(w, a); }
  }

  lemma {:induction false} ExecKeeps(w: World, steps: seq<Step>)
    requires Inv(w)
    ensures Inv(Exec(w, steps))
    decreases |steps|
  {
    hide Inv, Next;
    if steps != [] {
      NextKeeps(w, steps[0]);
      ExecKeeps(Next(w, steps[0]), steps[1..]);
    }
  }
}
