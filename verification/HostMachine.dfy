/**
  The host client as a step machine: any number of concurrent Start and Stop
  calls and the single read loop, against an arbitrary stream of frames. A step
  is one critical section, one channel operation, one pipe operation or one
  sync.Once body; what the context, the pipe and the environment decide is part
  of the step. A step that is not possible leaves the state alone.
 */
module HostMachine {
  import opened Outcomes
  import opened Wire
  import opened HostTables

  datatype CallPc =
    | Enlisting | Sending | Waiting | Applying | Naming | Grace
    | Cleaning | Completing | Leaving | Returned

  /** `ClosedOut` is the closed error of a waiter whose done channel is closed. */
  datatype Result = Success | Refused(code: Code) | Broken | ClosedOut

  /** A position in the list of requests sent. */
  datatype Sent = Unsent | Sent(k: nat)

  /**
    One Start or Stop call, with its waiter. `task` is the start request of the
    task concerned; `taken` the frames consumed so far and `since` the length of
    the frame stream when the waiter was registered. `atClose` is everything that
    had gone into the queue when the call met the closed error.
   */
  datatype Call = Call(
    isStop: bool,
    task: ReqId,
    pc: CallPc,
    box: Waiter,
    since: nat,
    taken: seq<Frame>,
    sent: Sent,
    cause: Outcome,
    result: Result,
    atClose: seq<Item>)

  datatype PumpPc =
    | Reading | Delivering | Settling | Applies
    | FailingWaiters | Collecting | Cleans | Completes | Stopped

  /** What the read loop does once it has finished the tasks on its list. */
  datatype After = Resume | Kill | Leave

  datatype Pump = Pump(pc: PumpPc, req: ReqId, frame: Frame, cause: Outcome, todo: seq<ReqId>, after: After)

  datatype Host = Host(
    calls: map<ReqId, Call>,
    tasks: map<ReqId, Task>,
    names: map<TaskId, ReqId>,
    pump: Pump,
    stream: seq<Frame>,
    sent: seq<Request>,
    next: ReqId,
    closed: bool,
    failed: bool)

  const NO_FRAME := Frame(0, OtherBody)
  const CLOSED_ERROR := Failed("stdio plugin client closed")

  const INIT := Host(map[], map[], map[], Pump(Reading, 0, NO_FRAME, Clean, [], Resume), [], [], 0, false, false)

  datatype CallStep =
    | Enlist
    | Send(ok: bool)
    | Cancel
    | Take
    | ApplyAtStart(ok: bool)
    | Name
    | GraceOver
    | CleanUp
    | Complete
    | Unregister

  datatype PumpStep =
    | Read(frame: Frame)
    | ReadError(text: string)
    | DeliverIt(keep: bool)
    | Settle
    | ApplyIt(ok: bool)
    | FailWaiters
    | Collect(todo: seq<ReqId>)
    | CleanNext
    | CompleteNext

  datatype Step =
    | BeginStart
    | BeginStop(task: ReqId)
    | Calling(req: ReqId, call: CallStep)
    | Pumping(pump: PumpStep)
    | Shutdown

  // ------------------------------------------------------------ single calls

  function NewCall(isStop: bool, task: ReqId, since: nat): Call {
    Call(isStop, task, if isStop then Sending else Enlisting, NewWaiter(), since, [], Unsent, Clean, Success, [])
  }

  /** The call is over: finish the task with `cause`, then return `result`. */
  function Finish(c: Call, cause: Outcome, result: Result): Call {
    c.(pc := Cleaning, cause := cause, result := result)
  }

  /** A call that fails: Start hides the cause from Done, Stop passes it on. */
  function FailCall(c: Call, text: string, result: Result): Call {
    Finish(c, if c.isStop then Failed(text) else CLOSED_ERROR, result)
  }

  function HandleStartFrame(c: Call, f: Frame): Call {
    match f.body
    case SetOutput(_, _) => c.(pc := Applying)
    case MetricFlush(_) => c.(pc := Applying)
    case Artifact(_) => c.(pc := Applying)
    case Error(code) => FailCall(c, "plugin error", Refused(code))
    case StartResponse(id) => if id == 0 then FailCall(c, "missing task id", Broken) else c.(pc := Naming)
    case _ => FailCall(c, "expected start response frame", Broken)
  }

  function HandleStopFrame(c: Call, f: Frame): Call {
    match f.body
    case StopResponse => c.(pc := Grace)
    case Error(code) =>
      if code.RunError? then c.(pc := Leaving, result := Refused(code)) else FailCall(c, "plugin error", Refused(code))
    case _ => FailCall(c, "expected stop response frame", Broken)
  }

  /** waitForRequestFrame: the queue first; the closed error only once it is empty. */
  function TakeNext(c: Call): Call {
    if c.box.queue != [] then
      var d := c.(box := c.box.(queue := c.box.queue[1..]));
      match c.box.queue[0]
      case Broke => FailCall(d, "read plugin frame", Broken)
      case Got(f) =>
        var e := d.(taken := c.taken + [f]);
        if c.isStop then HandleStopFrame(e, f) else HandleStartFrame(e, f)
    else if c.box.closed then FailCall(c.(atClose := c.box.queued), "request closed", ClosedOut)
    else c
  }

  // ----------------------------------------------------------------- the host

  function PutCall(s: Host, r: ReqId, c: Call): Host {
    s.(calls := s.calls[r := c])
  }

  /** Applying a metric flush never fails. */
  predicate Rejects(f: Frame, ok: bool) {
    !ok && !f.body.MetricFlush?
  }

  predicate Idle(s: Host, h: ReqId) {
    && h in s.tasks && h in s.calls
    && !s.calls[h].isStop && s.calls[h].pc.Returned? && s.calls[h].result.Success?
    && forall q | q in s.calls :: s.calls[q].isStop && s.calls[q].task == h ==> s.calls[q].pc.Returned?
  }

  function LastTaken(c: Call): Frame {
    if c.taken != [] then c.taken[|c.taken| - 1] else NO_FRAME
  }

  /** The call itself. `n` is the number of requests sent so far. */
  function CallAct(c: Call, n: nat, hostClosed: bool, a: CallStep): Call {
    match a
    case Enlist => if c.pc.Enlisting? then c.(pc := Sending) else c
    case Send(ok) =>
      if !c.pc.Sending? then c
      else if hostClosed || !ok then FailCall(c, "write request", Broken)
      else c.(pc := Waiting, sent := Sent(n))
    case Cancel => if c.pc.Sending? || c.pc.Waiting? then FailCall(c, "context", Broken) else c
    case Take => if c.pc.Waiting? then TakeNext(c) else c
    case ApplyAtStart(ok) =>
      if !c.pc.Applying? then c
      else if Rejects(LastTaken(c), ok) then FailCall(c, "apply", Broken)
      else c.(pc := Waiting)
    case Name => if c.pc.Naming? then c.(pc := Leaving, result := Success) else c
    case GraceOver => if c.pc.Grace? then Finish(c, Clean, Success) else c
    case CleanUp => if c.pc.Cleaning? then c.(pc := Completing) else c
    case Complete => if c.pc.Completing? then c.(pc := Leaving) else c
    case Unregister => if c.pc.Leaving? then c.(pc := Returned, box := UnregisterOne(c.box)) else c
  }

  /** The pipe: a request goes out, or the transport is known to have failed. */
  function SentBy(s: Host, c: Call, r: ReqId, a: CallStep): seq<Request> {
    if a.Send? && c.pc.Sending? && !s.closed && a.ok
    then [if c.isStop then StopRequest(r, if c.task in s.tasks then s.tasks[c.task].id else 0) else StartRequest(r)]
    else []
  }

  predicate Fails(s: Host, c: Call, a: CallStep) {
    || (a.Send? && c.pc.Sending? && (s.closed || !a.ok))
    || (a.Cancel? && (c.pc.Sending? || c.pc.Waiting?))
  }

  /** The task concerned, after the step. */
  function TaskAct(t: Task, c: Call, a: CallStep): Task {
    var f := LastTaken(c);
    match a
    case ApplyAtStart(ok) =>
      if !c.pc.Applying? then t
      else if Rejects(f, ok) then t.(rejected := true)
      else if Publishes(f.body) then t.(applied := t.applied + [f.body], strayed := true)
      else t
    case Name => if c.pc.Naming? && f.body.StartResponse? then NameTask(t, f.body.task) else t
    case CleanUp => if c.pc.Cleaning? then CleanTask(t) else t
    case Complete => if c.pc.Completing? then CompleteTask(t, c.cause) else t
    case _ => t
  }

  function TasksAfter(s: Host, c: Call, r: ReqId, a: CallStep): map<ReqId, Task> {
    if a.Enlist? && c.pc.Enlisting? then s.tasks[r := NewTask(Published(s.stream, r) != [])]
    else if c.task in s.tasks then s.tasks[c.task := TaskAct(s.tasks[c.task], c, a)]
    else s.tasks
  }

  function NamesAfter(s: Host, c: Call, a: CallStep): map<TaskId, ReqId> {
    if c.task !in s.tasks then s.names
    else if a.Name? && c.pc.Naming? && LastTaken(c).body.StartResponse?
    then NameIn(s.names, s.tasks[c.task], c.task, LastTaken(c).body.task)
    else if a.CleanUp? && c.pc.Cleaning? then NameOut(s.names, s.tasks[c.task], c.task)
    else s.names
  }

  function CallNext(s: Host, r: ReqId, a: CallStep): Host {
    if r !in s.calls then s
    else
      var c := s.calls[r];
      s.(calls := s.calls[r := CallAct(c, |s.sent|, s.closed, a)],
         tasks := TasksAfter(s, c, r, a),
         names := NamesAfter(s, c, a),
         sent := s.sent + SentBy(s, c, r, a),
         closed := s.closed || (a.Cancel? && Fails(s, c, a)),
         failed := s.failed || Fails(s, c, a))
  }

  function PumpAt(s: Host, pc: PumpPc): Host {
    s.(pump := s.pump.(pc := pc))
  }

  /** The read loop meets something it cannot route: every waiter and task is failed. */
  function GiveUp(s: Host, cause: Outcome, after: After): Host {
    s.(pump := s.pump.(pc := FailingWaiters, cause := cause, after := after), failed := true)
  }

  /** The background task an event belongs to: by task id first, then by start request. */
  function EventTask(s: Host, f: Frame): (h: ReqId)
    requires f.body.Event?
  {
    var id := f.body.task;
    if id != 0 && id in s.names then s.names[id] else f.req
  }

  predicate HasEventTask(s: Host, f: Frame)
    requires f.body.Event?
  {
    (f.body.task != 0 && f.body.task in s.names) || (f.req in s.tasks && s.tasks[f.req].listed)
  }

  datatype Route = ToEvent | Ignored | ToWaiter | ToTask | Nowhere

  /** Events go to their task, other frames to the waiter, or else to a task that wants lifecycle frames. */
  function RouteOf(s: Host, f: Frame): Route {
    if f.body.Event? then if HasEventTask(s, f) then ToEvent else Ignored
    else if f.req in s.calls && s.calls[f.req].box.registered then ToWaiter
    else if f.req in s.tasks && s.tasks[f.req].listed && Lifecycle(f.body) then ToTask
    else Nowhere
  }

  function ReadPump(s: Host, f: Frame): Pump {
    match RouteOf(s, f)
    case ToEvent => s.pump.(pc := Settling, req := EventTask(s, f), cause := f.body.cause)
    case Ignored => s.pump
    case ToWaiter => s.pump.(pc := Delivering, req := f.req, frame := f)
    case ToTask => s.pump.(pc := Applies, req := f.req, frame := f)
    case Nowhere => s.pump.(pc := FailingWaiters, cause := Failed("unexpected plugin frame"), after := Kill)
  }

  /** The task of the frame's request remembers a publication that Start reads, or that nobody takes. */
  function ReadMark(t: Task, route: Route, f: Frame): Task {
    match route
    case ToWaiter => if Publishes(f.body) then t.(strayed := true) else t
    case Nowhere => if Publishes(f.body) then t.(lost := true) else t
    case _ => t
  }

  function ReadFrame(s: Host, f: Frame): Host {
    s.(stream := s.stream + [f],
       pump := ReadPump(s, f),
       tasks := if f.req in s.tasks then s.tasks[f.req := ReadMark(s.tasks[f.req], RouteOf(s, f), f)] else s.tasks,
       failed := s.failed || RouteOf(s, f).Nowhere?)
  }

  predicate Lists(s: Host, todo: seq<ReqId>) {
    && (forall i | 0 <= i < |todo| :: todo[i] in s.tasks)
    && (forall h | h in s.tasks :: s.tasks[h].listed ==> h in todo)
    && (forall id | id in s.names :: s.names[id] in todo)
  }

  /** Go on with the list of tasks to finish, or do what comes after it. */
  function NextTodo(p: Pump): Pump {
    if p.todo != [] then p.(pc := Cleans)
    else if p.after.Leave? then p.(pc := Stopped)
    else p.(pc := Reading)
  }

  predicate ShutsDown(p: Pump) {
    p.todo == [] && p.after.Kill?
  }

  /** One task changes while the read loop goes to `p`. */
  function TaskStep(s: Host, h: ReqId, t: Task, p: Pump, names: map<TaskId, ReqId>, closed: bool): Host {
    s.(tasks := s.tasks[h := t], pump := p, names := names, closed := closed)
  }

  function FailAll(calls: map<ReqId, Call>): map<ReqId, Call> {
    map r | r in calls :: calls[r].(box := FailOne(calls[r].box))
  }

  /** Deliver the frame at hand; a full queue fails everything rather than skip a frame. */
  function DeliverFrame(s: Host, keep: bool): Host {
    var p := s.pump;
    if !p.pc.Delivering? || p.req !in s.calls then s
    else
      var (w, d) := Deliver(s.calls[p.req].box, p.frame, keep);
      s.(calls := s.calls[p.req := s.calls[p.req].(box := w)],
         pump := if d.Overflowed?
                 then p.(pc := FailingWaiters, cause := Failed("plugin response queue full"), after := Kill)
                 else p.(pc := Reading),
         failed := s.failed || d.Overflowed?)
  }

  function SettleTask(s: Host): Host {
    var p := s.pump;
    if !p.pc.Settling? || p.req !in s.tasks then s
    else TaskStep(s, p.req, CompleteTask(s.tasks[p.req], p.cause), p.(pc := Reading), s.names, s.closed)
  }

  /** Apply one lifecycle frame to a task's environment, or have it rejected and finish the task. */
  function ApplyPending(s: Host, ok: bool): Host {
    var p := s.pump;
    if !p.pc.Applies? || p.req !in s.tasks then s
    else
      var t := s.tasks[p.req];
      if Rejects(p.frame, ok) then
        TaskStep(s, p.req, t.(rejected := true),
                 p.(pc := Cleans, todo := [p.req], cause := Failed("apply"), after := Resume), s.names, s.closed)
      else
        TaskStep(s, p.req, if Publishes(p.frame.body) then t.(applied := t.applied + [p.frame.body]) else t,
                 p.(pc := Reading), s.names, s.closed)
  }

  function CleanHead(s: Host): Host {
    var p := s.pump;
    if !p.pc.Cleans? || p.todo == [] || p.todo[0] !in s.tasks then s
    else
      var h := p.todo[0];
      TaskStep(s, h, CleanTask(s.tasks[h]), p.(pc := Completes), NameOut(s.names, s.tasks[h], h), s.closed)
  }

  function CompleteHead(s: Host): Host {
    var p := s.pump;
    if !p.pc.Completes? || p.todo == [] || p.todo[0] !in s.tasks then s
    else
      var h, p' := p.todo[0], p.(todo := p.todo[1..]);
      TaskStep(s, h, CompleteTask(s.tasks[h], p.cause), NextTodo(p'), s.names, s.closed || ShutsDown(p'))
  }

  function CollectTasks(s: Host, todo: seq<ReqId>): Host {
    if s.pump.pc.Collecting? && Lists(s, todo) then
      var p := s.pump.(todo := todo);
      s.(pump := NextTodo(p), closed := s.closed || ShutsDown(p))
    else s
  }

  function PumpNext(s: Host, a: PumpStep): Host {
    match a
    case Read(f) => if s.pump.pc.Reading? then ReadFrame(s, f) else s
    case ReadError(text) => if s.pump.pc.Reading? then GiveUp(s, Failed(text), Leave) else s
    case DeliverIt(keep) => DeliverFrame(s, keep)
    case Settle => SettleTask(s)
    case ApplyIt(ok) => ApplyPending(s, ok)
    case FailWaiters => if s.pump.pc.FailingWaiters? then PumpAt(s.(calls := FailAll(s.calls)), Collecting) else s
    case Collect(todo) => CollectTasks(s, todo)
    case CleanNext => CleanHead(s)
    case CompleteNext => CompleteHead(s)
  }

  function Next(s: Host, step: Step): Host {
    match step
    case BeginStart => PutCall(s, s.next + 1, NewCall(false, s.next + 1, |s.stream|)).(next := s.next + 1)
    case BeginStop(h) =>
      if Idle(s, h) then PutCall(s, s.next + 1, NewCall(true, h, |s.stream|)).(next := s.next + 1) else s
    case Calling(r, a) => CallNext(s, r, a)
    case Pumping(a) => PumpNext(s, a)
    case Shutdown => s.(closed := true, failed := true)
  }

  function Exec(s: Host, steps: seq<Step>): Host
    decreases |steps|
  {
    if steps == [] then s else Exec(Next(s, steps[0]), steps[1..])
  }

  // ----------------------------------------------------------------- one call

  function Frames(queue: seq<Item>): seq<Frame> {
    if queue == [] then []
    else (match queue[0] case Got(f) => [f] case Broke => []) + Frames(queue[1..])
  }

  lemma {:induction false} FramesAppend(q: seq<Item>, i: Item)
    ensures Frames(q + [i]) == Frames(q) + (match i case Got(f) => [f] case Broke => [])
  {
    if q != [] {
      assert (q + [i])[1..] == q[1..] + [i];
      FramesAppend(q[1..], i);
    }
  }

  /** The frame the read loop is just handing to request `r`. */
  function Handing(p: Pump, r: ReqId): seq<Frame> {
    if p.pc.Delivering? && p.req == r then [p.frame] else []
  }

  /**
    Consumed, queued and about to be queued: no gap, nothing out of order. A
    registered waiter lacks nothing, except between an overflow and the moment
    the read loop fails every waiter because of it.
   */
  ghost predicate BoxOk(c: Call, r: ReqId, stream: seq<Frame>, p: Pump, failed: bool) {
    var held := c.taken + Frames(c.box.queue) + Handing(p, r);
    && c.since <= |stream|
    && c.box.registered == !c.box.closed
    && |c.box.queue| <= QUEUE_CAPACITY
    && (c.box.registered && !p.pc.FailingWaiters? ==> held == Addressed(stream, c.since, r))
    && (held <= Addressed(stream, c.since, r))
    && (Broke in c.box.queue ==> failed)
    && (c.box.closed ==> failed || c.pc.Returned?)
    && (c.pc.Returned? ==> c.box.closed)
  }

  ghost predicate Ended(c: Call) {
    c.pc.Cleaning? || c.pc.Completing? || c.pc.Leaving? || c.pc.Returned?
  }

  /** How a call may end, given the last frame it took. */
  ghost predicate ResultOk(c: Call, failed: bool) {
    var b := LastTaken(c).body;
    match c.result
    case Success => if c.isStop then b.StopResponse? else b.StartResponse? && b.task != 0
    case Refused(code) => b == Error(code)
    case ClosedOut => failed
    case Broken => failed || !c.isStop || (c.taken != [] && !b.StopResponse? && !b.Error?)
  }

  ghost predicate PcOk(c: Call, failed: bool) {
    && (c.pc.Enlisting? || c.pc.Sending? ==> c.taken == [] && c.sent.Unsent?)
    && (c.pc.Enlisting? || c.pc.Applying? || c.pc.Naming? ==> !c.isStop)
    && (c.pc.Grace? ==> c.isStop && LastTaken(c).body.StopResponse?)
    && (c.pc.Naming? ==> LastTaken(c).body.StartResponse? && LastTaken(c).body.task != 0)
    && (c.sent.Unsent? ==> c.taken == [] && (c.pc.Enlisting? || c.pc.Sending? || Ended(c)))
    && (Ended(c) ==> ResultOk(c, failed))
    && (Ended(c) && c.sent.Unsent? ==> failed)
    && (c.pc.Cleaning? || c.pc.Completing? ==> c.isStop || !c.result.Success?)
  }

  ghost predicate CallOk(c: Call, r: ReqId, stream: seq<Frame>, p: Pump, failed: bool) {
    BoxOk(c, r, stream, p, failed) && PcOk(c, failed) && QueuedOk(c)
  }

  /**
    What was queued has been consumed or is still queued; a call that met the closed
    error had consumed everything queued until then.
   */
  ghost predicate QueuedOk(c: Call) {
    && Frames(c.box.queued) == c.taken + Frames(c.box.queue)
    && (c.result.ClosedOut? ==> Ended(c) && c.box.closed && c.atClose <= c.box.queued && c.taken == Frames(c.atClose))
  }

  /** Taking moves the head of the queue to the end of `taken`. */
  lemma TakeShape(c: Call)
    requires c.pc.Waiting?
    ensures var d := TakeNext(c);
            && d.taken + Frames(d.box.queue) == c.taken + Frames(c.box.queue)
            && d.since == c.since && d.box.registered == c.box.registered && d.box.closed == c.box.closed
            && |d.box.queue| <= |c.box.queue| && (Broke in d.box.queue ==> Broke in c.box.queue)
            && !d.pc.Returned?
            && (c.box.queue != [] ==> !d.result.ClosedOut? || c.result.ClosedOut?)
            && (d.result.ClosedOut? && !c.result.ClosedOut? ==>
                  c.box.closed && c.box.queue == [] && d.taken == c.taken && d.atClose == c.box.queued)
            && d.box.queued == c.box.queued
  {
    hide HandleStopFrame, HandleStartFrame, FailCall;
    if c.box.queue != [] {
      var d := c.(box := c.box.(queue := c.box.queue[1..]));
      FailShape(d, "read plugin frame", Broken);
      if c.box.queue[0].Got? {
        var f := c.box.queue[0].frame;
        HandleShape(d.(taken := c.taken + [f]), f);
        assert c.taken + Frames(c.box.queue) == c.taken + [f] + Frames(c.box.queue[1..]);
      }
    } else {
      FailShape(c.(atClose := c.box.queued), "request closed", ClosedOut);
    }
  }

  lemma FailShape(c: Call, text: string, result: Result)
    ensures var d := FailCall(c, text, result); d == c.(pc := Cleaning, cause := d.cause, result := result)
  {
  }

  /** Handling a frame leaves the waiter and what was taken alone, and does not end the call. */
  lemma HandleShape(c: Call, f: Frame)
    requires c.pc.Waiting?
    ensures var d := if c.isStop then HandleStopFrame(c, f) else HandleStartFrame(c, f);
            && d == c.(pc := d.pc, cause := d.cause, result := d.result) && !d.pc.Returned?
            && (d.result.ClosedOut? ==> c.result.ClosedOut?)
  {
  }

  lemma TakeBox(c: Call, r: ReqId, stream: seq<Frame>, p: Pump, failed: bool)
    requires BoxOk(c, r, stream, p, failed) && c.pc.Waiting?
    ensures BoxOk(TakeNext(c), r, stream, p, failed)
  {
    hide TakeNext, Handing, Addressed;
    TakeShape(c);
  }

  lemma TakePc(c: Call, failed: bool)
    requires PcOk(c, failed) && c.pc.Waiting? && c.sent.Sent?
    requires Broke in c.box.queue || c.box.closed ==> failed
    ensures PcOk(TakeNext(c), failed)
  {
    if c.box.queue != [] && c.box.queue[0].Got? {
      var f := c.box.queue[0].frame;
      assert (c.taken + [f])[|c.taken|] == f;
    }
  }

  // ------------------------------------------------------------- one task

  /** What the read loop is about to apply to the task. */
  function Pending(p: Pump, h: ReqId): seq<Body> {
    if p.pc.Applies? && p.req == h && Publishes(p.frame.body) then [p.frame.body] else []
  }

  ghost predicate TaskOk(t: Task, h: ReqId, stream: seq<Frame>, p: Pump) {
    && t.completed == !t.listed
    && (t.doneCompleted <==> t.offers != [])
    && t.done == (if t.offers == [] then [] else [t.offers[0]])
    && t.closes == |t.done|
    && (t.rejected || t.lost || t.strayed || Published(stream, h) == t.applied + Pending(p, h))
  }

  // --------------------------------------------------------- all together

  /** A start call that has enlisted its task, and that task. */
  ghost predicate StartLink(c: Call, t: Task, failed: bool) {
    && (!Ended(c) ==> t.id == 0 && (t.completed ==> failed))
    && (t.lost ==> failed)
    && (t.id != 0 ==>
          (c.pc.Leaving? || c.pc.Returned?) && c.result.Success? && LastTaken(c).body == StartResponse(t.id))
    && ((c.pc.Leaving? || c.pc.Returned?) && c.result.Success? ==> t.id != 0 || failed)
  }

  /** A stop call concerns a task whose Start returned it. */
  ghost predicate StopLink(s: Host, c: Call) {
    && c.task in s.calls && c.task in s.tasks && !s.calls[c.task].isStop
    && s.calls[c.task].pc.Returned? && s.calls[c.task].result.Success?
  }

  ghost predicate SentLink(c: Call, sent: seq<Request>, request: Request) {
    c.sent.Sent? ==> c.sent.k < |sent| && sent[c.sent.k] == request
  }

  /** How a call hangs together with the task it concerns. */
  ghost predicate LinkOk(s: Host, r: ReqId)
    requires r in s.calls
  {
    var c := s.calls[r];
    && 0 < r <= s.next
    && (!c.isStop ==>
          && c.task == r && (r in s.tasks <==> !c.pc.Enlisting?)
          && (r in s.tasks ==> StartLink(c, s.tasks[r], s.failed))
          && SentLink(c, s.sent, StartRequest(r)))
    && (c.isStop ==> StopLink(s, c) && SentLink(c, s.sent, StopRequest(r, s.tasks[c.task].id)))
  }

  ghost predicate Calls(s: Host) {
    forall r :: r in s.calls ==> CallOk(s.calls[r], r, s.stream, s.pump, s.failed)
  }

  ghost predicate Links(s: Host) {
    && (forall r :: r in s.calls ==> LinkOk(s, r))
    && (forall h :: h in s.tasks ==> h in s.calls && !s.calls[h].isStop)
  }

  ghost predicate Tasks(s: Host) {
    forall h :: h in s.tasks ==> TaskOk(s.tasks[h], h, s.stream, s.pump)
  }

  ghost predicate SentOk(s: Host) {
    forall k :: 0 <= k < |s.sent| ==> s.sent[k].req in s.calls && s.calls[s.sent[k].req].sent == Sent(k)
  }

  ghost predicate NamesOk(s: Host) {
    forall id :: id in s.names ==>
      id != 0 && s.names[id] in s.tasks && !s.tasks[s.names[id]].completed && s.tasks[s.names[id]].id == id
  }

  predicate SameStop(c: Call, c': Call) {
    c.isStop && c'.isStop && c.task == c'.task
  }

  /** Call `q` had returned, with all it ever took, when the later call `c'` began. */
  ghost predicate Before(c: Call, q: ReqId, c': Call, stream: seq<Frame>) {
    c.pc.Returned? && c'.since <= |stream| && c.taken <= Addressed(stream[..c'.since], c.since, q)
  }

  /** Stop calls on one task do not overlap. */
  ghost predicate NoOverlap(s: Host) {
    forall q, q' ::
      q in s.calls && q' in s.calls && q < q' && SameStop(s.calls[q], s.calls[q']) ==>
        Before(s.calls[q], q, s.calls[q'], s.stream)
  }

  ghost predicate PumpOk(s: Host) {
    var p := s.pump;
    && (p.pc.Delivering? ==> p.req in s.calls)
    && (p.pc.Settling? ==> p.req in s.tasks)
    && (p.pc.Applies? ==>
          && p.req in s.tasks && p.req in s.calls && (s.failed || s.calls[p.req].pc.Returned?)
          && s.stream != [] && s.stream[|s.stream| - 1] == p.frame && p.frame.req == p.req)
    && (p.pc.FailingWaiters? || p.pc.Collecting? ==> s.failed && !p.after.Resume?)
    && (p.pc.Cleans? || p.pc.Completes? ==>
          && p.todo != []
          && (forall i :: 0 <= i < |p.todo| ==> p.todo[i] in s.tasks && p.todo[i] in s.calls)
          && (p.after.Resume? ==> |p.todo| == 1 && (s.failed || s.calls[p.todo[0]].pc.Returned?))
          && (!p.after.Resume? ==> s.failed))
  }

  ghost predicate Inv(s: Host) {
    Calls(s) && Links(s) && Tasks(s) && SentOk(s) && NamesOk(s) && NoOverlap(s) && PumpOk(s)
  }

  lemma InitInv()
    ensures Inv(INIT)
  {
  }

  // -------------------------------------------------------------- call steps

  lemma CallActBox(c: Call, r: ReqId, stream: seq<Frame>, p: Pump, failed: bool, n: nat, hostClosed: bool, a: CallStep)
    requires BoxOk(c, r, stream, p, failed)
    ensures BoxOk(CallAct(c, n, hostClosed, a), r, stream, p, failed)
  {
    if a.Take? && c.pc.Waiting? {
      hide BoxOk, TakeNext;
      TakeBox(c, r, stream, p, failed);
    }
  }

  lemma CallActPc(c: Call, failed: bool, n: nat, hostClosed: bool, a: CallStep, failed': bool)
    requires PcOk(c, failed) && (Broke in c.box.queue || c.box.closed ==> failed || c.pc.Returned?)
    requires failed ==> failed'
    requires (a.Send? && c.pc.Sending? && (hostClosed || !a.ok)) || (a.Cancel? && (c.pc.Sending? || c.pc.Waiting?)) ==> failed'
    ensures PcOk(CallAct(c, n, hostClosed, a), failed')
  {
    if a.Take? && c.pc.Waiting? {
      TakePc(c, failed);
      hide TakeNext;
    }
  }

  lemma CallActQueued(c: Call, n: nat, hostClosed: bool, a: CallStep)
    requires QueuedOk(c)
    ensures QueuedOk(CallAct(c, n, hostClosed, a))
  {
    if a.Take? && c.pc.Waiting? {
      hide TakeNext, Frames;
      assert Frames([]) == [] by { NoFrames(); }
      TakeShape(c);
    }
  }

  lemma NoFrames()
    ensures Frames([]) == []
  {
  }

  lemma CallActOk(s: Host, r: ReqId, a: CallStep, c': Call)
    requires r in s.calls && CallOk(s.calls[r], r, s.stream, s.pump, s.failed)
    requires c' == CallAct(s.calls[r], |s.sent|, s.closed, a)
    ensures CallOk(c', r, s.stream, s.pump, CallNext(s, r, a).failed)
  {
    var c, failed' := s.calls[r], CallNext(s, r, a).failed;
    BoxClosed(c, r, s.stream, s.pump, s.failed);
    StepFails(s, r, a);
    hide CallAct, BoxOk, PcOk, QueuedOk, CallNext;
    CallActBox(c, r, s.stream, s.pump, s.failed, |s.sent|, s.closed, a);
    CallActPc(c, s.failed, |s.sent|, s.closed, a, failed');
    CallActQueued(c, |s.sent|, s.closed, a);
    BoxFails(c', r, s.stream, s.pump, s.failed, failed');
  }

  lemma BoxClosed(c: Call, r: ReqId, stream: seq<Frame>, p: Pump, failed: bool)
    requires BoxOk(c, r, stream, p, failed)
    ensures Broke in c.box.queue || c.box.closed ==> failed || c.pc.Returned?
  {
  }

  lemma BoxFails(c: Call, r: ReqId, stream: seq<Frame>, p: Pump, failed: bool, failed': bool)
    requires BoxOk(c, r, stream, p, failed) && (failed ==> failed')
    ensures BoxOk(c, r, stream, p, failed')
  {
    hide Frames, Handing, Addressed;
  }

  lemma StepFails(s: Host, r: ReqId, a: CallStep)
    requires r in s.calls
    ensures var c, failed' := s.calls[r], CallNext(s, r, a).failed;
            && (s.failed ==> failed')
            && ((a.Send? && c.pc.Sending? && (s.closed || !a.ok)) || (a.Cancel? && (c.pc.Sending? || c.pc.Waiting?)) ==> failed')
  {
    hide CallAct, SentBy, TasksAfter, NamesAfter;
  }

  lemma CallsAfter(s: Host, r: ReqId, a: CallStep)
    requires r in s.calls
    ensures var t := CallNext(s, r, a);
            && t.calls == s.calls[r := CallAct(s.calls[r], |s.sent|, s.closed, a)]
            && t.stream == s.stream && t.pump == s.pump
  {
  }

  lemma CallStepCalls(s: Host, r: ReqId, a: CallStep)
    requires Calls(s) && r in s.calls
    ensures Calls(CallNext(s, r, a))
  {
    hide CallAct, CallNext, CallOk;
    var t := CallNext(s, r, a);
    CallsAfter(s, r, a);
    StepFails(s, r, a);
    CallActOk(s, r, a, t.calls[r]);
    forall q | q in t.calls
      ensures CallOk(t.calls[q], q, t.stream, t.pump, t.failed)
    {
      if q != r { SameBox(s.calls[q], q, s.stream, s.pump, s.failed, s.pump, t.failed); }
    }
  }

  lemma TaskActOk(t: Task, h: ReqId, stream: seq<Frame>, p: Pump, c: Call, a: CallStep)
    requires TaskOk(t, h, stream, p)
    ensures TaskOk(TaskAct(t, c, a), h, stream, p)
  {
  }

  lemma CallStepTasks(s: Host, r: ReqId, a: CallStep)
    requires Tasks(s) && r in s.calls
    requires s.pump.pc.Applies? ==> s.pump.req in s.tasks
    requires !s.calls[r].isStop && !s.calls[r].pc.Enlisting? ==> r in s.tasks
    requires s.calls[r].pc.Enlisting? ==> r !in s.tasks
    ensures Tasks(CallNext(s, r, a))
  {
    var c := s.calls[r];
    var t := CallNext(s, r, a);
    if c.task in s.tasks { TaskActOk(s.tasks[c.task], c.task, s.stream, s.pump, c, a); }
    hide TaskAct, CallAct, SentBy, NamesAfter;
    forall h | h in t.tasks
      ensures TaskOk(t.tasks[h], h, t.stream, t.pump)
    {
    }
  }

  lemma CallStepNames(s: Host, r: ReqId, a: CallStep)
    requires r in s.calls && PcOk(s.calls[r], s.failed) && LinkOk(s, r) && NamesOk(s)
    ensures NamesOk(CallNext(s, r, a))
  {
    hide CallAct, SentBy;
  }

  lemma CallStepSent(s: Host, r: ReqId, a: CallStep)
    requires r in s.calls && PcOk(s.calls[r], s.failed) && SentOk(s)
    ensures SentOk(CallNext(s, r, a))
  {
    hide TasksAfter, NamesAfter;
  }

  lemma BeforeShape(c: Call, q: ReqId, c': Call, stream: seq<Frame>, d: Call, d': Call, stream': seq<Frame>)
    requires Before(c, q, c', stream) && stream <= stream'
    requires d.pc.Returned? && d.taken == c.taken && d.since == c.since && d'.since == c'.since
    ensures Before(d, q, d', stream')
  {
    assert stream'[..c'.since] == stream[..c'.since];
  }

  lemma CallStepOverlap(s: Host, r: ReqId, a: CallStep)
    requires NoOverlap(s) && r in s.calls
    ensures NoOverlap(CallNext(s, r, a))
  {
    var t := CallNext(s, r, a);
    CallActShape(s.calls[r], NewTask(false), |s.sent|, s.closed, a);
    hide CallAct, TaskAct, TasksAfter, NamesAfter, SentBy, Before;
    forall q, q' | q in t.calls && q' in t.calls && q < q' && SameStop(t.calls[q], t.calls[q'])
      ensures Before(t.calls[q], q, t.calls[q'], t.stream)
    {
      assert Before(s.calls[q], q, s.calls[q'], s.stream);
      ReturnedStays(s, r, a, q, q');
    }
  }

  lemma ReturnedStays(s: Host, r: ReqId, a: CallStep, q: ReqId, q': ReqId)
    requires r in s.calls && q in s.calls && q' in s.calls && Before(s.calls[q], q, s.calls[q'], s.stream)
    ensures var t := CallNext(s, r, a); Before(t.calls[q], q, t.calls[q'], t.stream)
  {
    CallActShape(s.calls[r], NewTask(false), |s.sent|, s.closed, a);
    hide CallAct, TaskAct, TasksAfter, NamesAfter, SentBy;
    var t := CallNext(s, r, a);
    BeforeShape(s.calls[q], q, s.calls[q'], s.stream, t.calls[q], t.calls[q'], t.stream);
  }

  lemma CallStepPump(s: Host, r: ReqId, a: CallStep)
    requires PumpOk(s) && r in s.calls
    ensures PumpOk(CallNext(s, r, a))
  {
    var c := CallAct(s.calls[r], |s.sent|, s.closed, a);
    assert s.calls[r].pc.Returned? ==> c.pc.Returned?;
    assert forall h :: h in s.tasks ==> h in TasksAfter(s, s.calls[r], r, a);
    hide CallAct, TasksAfter, NamesAfter, SentBy;
  }

  lemma StartLinkAct(c: Call, t: Task, failed: bool, n: nat, hostClosed: bool, a: CallStep, failed': bool)
    requires StartLink(c, t, failed) && PcOk(c, failed) && !c.isStop && (failed ==> failed')
    ensures StartLink(CallAct(c, n, hostClosed, a), TaskAct(t, c, a), failed')
  {
    if a.Take? && c.pc.Waiting? && c.box.queue != [] && c.box.queue[0].Got? {
      var f := c.box.queue[0].frame;
      assert (c.taken + [f])[|c.taken|] == f;
    }
  }

  /** What a call step can do to a call and to the task it concerns. */
  lemma CallActShape(c: Call, t: Task, n: nat, hostClosed: bool, a: CallStep)
    ensures var c' := CallAct(c, n, hostClosed, a);
            && c'.isStop == c.isStop && c'.task == c.task && c'.since == c.since
            && (c.pc.Returned? ==> c' == c)
            && (c'.pc.Enlisting? <==> c.pc.Enlisting? && !a.Enlist?)
            && (c'.sent == c.sent || (a.Send? && c.pc.Sending? && !hostClosed && a.ok && c'.sent == Sent(n)))
    ensures TaskAct(t, c, a).lost == t.lost
    ensures (TaskAct(t, c, a).id != t.id ==> c.pc.Naming?)
            && (TaskAct(t, c, a).completed ==> t.completed || Ended(c))
  {
    hide TaskAct, CallAct;
    CallActFields(c, n, hostClosed, a);
    TaskActFields(c, t, a);
  }

  lemma CallActFields(c: Call, n: nat, hostClosed: bool, a: CallStep)
    ensures var c' := CallAct(c, n, hostClosed, a);
            && c'.isStop == c.isStop && c'.task == c.task && c'.since == c.since
            && (c.pc.Returned? ==> c' == c)
            && (c'.pc.Enlisting? <==> c.pc.Enlisting? && !a.Enlist?)
            && (c'.sent == c.sent || (a.Send? && c.pc.Sending? && !hostClosed && a.ok && c'.sent == Sent(n)))
  {
  }

  lemma TaskActFields(c: Call, t: Task, a: CallStep)
    ensures TaskAct(t, c, a).lost == t.lost
    ensures (TaskAct(t, c, a).id != t.id ==> c.pc.Naming?)
            && (TaskAct(t, c, a).completed ==> t.completed || Ended(c))
  {
    hide LastTaken, Rejects, Publishes;
  }

  lemma StopLinkAct(s: Host, r: ReqId, a: CallStep, c: Call)
    requires StopLink(s, c) && r in s.calls
    ensures StopLink(CallNext(s, r, a), c)
  {
    CallActShape(s.calls[r], NewTask(false), |s.sent|, s.closed, a);
    hide CallAct, TaskAct, NamesAfter, SentBy;
  }

  lemma SentLinkAct(s: Host, r: ReqId, a: CallStep, c: Call, q: Request)
    requires SentLink(c, s.sent, q) && r in s.calls
    ensures SentLink(c, CallNext(s, r, a).sent, q)
  {
    hide CallAct, TasksAfter, NamesAfter, SentBy;
  }

  lemma OtherStartLink(s: Host, r: ReqId, a: CallStep, q: ReqId)
    requires q in s.calls && r in s.calls && LinkOk(s, q) && LinkOk(s, r) && PcOk(s.calls[r], s.failed) && q != r && !s.calls[q].isStop
    ensures LinkOk(CallNext(s, r, a), q)
  {
    var c := s.calls[r];
    if c.task in s.tasks { CallActShape(c, s.tasks[c.task], |s.sent|, s.closed, a); }
    SentLinkAct(s, r, a, s.calls[q], StartRequest(q));
    hide CallAct, TaskAct, NamesAfter, SentBy, SentLink;
  }

  lemma OtherStopLink(s: Host, r: ReqId, a: CallStep, q: ReqId)
    requires q in s.calls && r in s.calls && LinkOk(s, q) && LinkOk(s, r) && PcOk(s.calls[r], s.failed) && q != r && s.calls[q].isStop
    ensures LinkOk(CallNext(s, r, a), q)
  {
    var c := s.calls[r];
    var h := s.calls[q].task;
    if c.task in s.tasks { CallActShape(c, s.tasks[c.task], |s.sent|, s.closed, a); }
    SentLinkAct(s, r, a, s.calls[q], StopRequest(q, s.tasks[h].id));
    StopLinkAct(s, r, a, s.calls[q]);
    assert h in TasksAfter(s, c, r, a) && TasksAfter(s, c, r, a)[h].id == s.tasks[h].id;
    hide CallAct, TaskAct, TasksAfter, NamesAfter, SentBy, SentLink, StopLink, StartLink;
  }

  lemma OwnStartLink(s: Host, r: ReqId, a: CallStep)
    requires r in s.calls && LinkOk(s, r) && PcOk(s.calls[r], s.failed) && !s.calls[r].isStop
    ensures LinkOk(CallNext(s, r, a), r)
  {
    var c := s.calls[r];
    var t := CallNext(s, r, a);
    CallActShape(c, NewTask(false), |s.sent|, s.closed, a);
    assert SentLink(t.calls[r], t.sent, StartRequest(r));
    if r in s.tasks {
      StartLinkAct(c, s.tasks[r], s.failed, |s.sent|, s.closed, a, t.failed);
    } else if a.Enlist? {
      assert t.calls[r] == c.(pc := Sending);
    }
    hide CallAct, TaskAct, NamesAfter, SentBy, SentLink, PcOk;
  }

  lemma OwnStopLink(s: Host, r: ReqId, a: CallStep)
    requires r in s.calls && LinkOk(s, r) && PcOk(s.calls[r], s.failed) && s.calls[r].isStop
    ensures LinkOk(CallNext(s, r, a), r)
  {
    var c := s.calls[r];
    var t := CallNext(s, r, a);
    CallActShape(c, s.tasks[c.task], |s.sent|, s.closed, a);
    StopLinkAct(s, r, a, c);
    assert t.tasks[c.task].id == s.tasks[c.task].id;
    hide CallAct, TaskAct, TasksAfter, NamesAfter, PcOk;
  }

  lemma EnlistingStarts(c: Call, failed: bool)
    requires PcOk(c, failed)
    ensures c.pc.Enlisting? ==> !c.isStop
  {
  }

  lemma OwnTask(s: Host, r: ReqId)
    requires r in s.calls && LinkOk(s, r)
    ensures !s.calls[r].isStop ==> s.calls[r].task == r
  {
  }

  lemma CallStepLinks(s: Host, r: ReqId, a: CallStep)
    requires Calls(s) && Links(s) && r in s.calls
    ensures Links(CallNext(s, r, a))
  {
    hide LinkOk, CallAct, CallNext, PcOk, BoxOk, QueuedOk;
    var c := s.calls[r];
    var t := CallNext(s, r, a);
    assert LinkOk(s, r) && CallOk(c, r, s.stream, s.pump, s.failed);
    EnlistingStarts(c, s.failed);
    OwnTask(s, r);
    CallsAfter(s, r, a);
    NewTaskOnly(s, r, a);
    forall q | q in t.calls
      ensures LinkOk(t, q)
    {
      if q == r {
        if c.isStop { OwnStopLink(s, r, a); } else { OwnStartLink(s, r, a); }
      } else {
        if s.calls[q].isStop { OtherStopLink(s, r, a, q); } else { OtherStartLink(s, r, a, q); }
      }
    }
  }

  lemma NewTaskOnly(s: Host, r: ReqId, a: CallStep)
    requires Links(s) && r in s.calls && (s.calls[r].pc.Enlisting? ==> !s.calls[r].isStop)
    ensures var t := CallNext(s, r, a); forall h :: h in t.tasks ==> h in t.calls && !t.calls[h].isStop
  {
    CallActShape(s.calls[r], NewTask(false), |s.sent|, s.closed, a);
    hide LinkOk, CallAct, TaskAct, NamesAfter, SentBy;
  }

  // --------------------------------------------------------- read-loop steps

  /** A read-loop step touches waiters' queues and tasks, never a call's own progress. */
  ghost predicate PumpShape(s: Host, t: Host) {
    && t.calls.Keys == s.calls.Keys && t.tasks.Keys == s.tasks.Keys
    && (forall r :: r in s.calls ==> t.calls[r] == s.calls[r].(box := t.calls[r].box))
    && (forall h :: h in s.tasks ==> t.tasks[h].id == s.tasks[h].id && (t.tasks[h].lost ==> s.tasks[h].lost || t.failed))
    && (forall h :: h in s.tasks && h in s.calls && t.tasks[h].completed ==>
          s.tasks[h].completed || t.failed || s.calls[h].pc.Returned?)
    && t.sent == s.sent && t.next == s.next && (s.failed ==> t.failed) && s.stream <= t.stream
  }

  lemma LinkShape(s: Host, t: Host, r: ReqId)
    requires PumpShape(s, t) && r in s.calls && LinkOk(s, r)
    ensures LinkOk(t, r)
  {
  }

  lemma ShapeOverlap(s: Host, t: Host)
    requires PumpShape(s, t) && NoOverlap(s)
    ensures NoOverlap(t)
  {
    hide Before;
    forall q, q' | q in t.calls && q' in t.calls && q < q' && SameStop(t.calls[q], t.calls[q'])
      ensures Before(t.calls[q], q, t.calls[q'], t.stream)
    {
      assert Before(s.calls[q], q, s.calls[q'], s.stream);
      BeforeReturned(s.calls[q], q, s.calls[q'], s.stream);
      BeforeShape(s.calls[q], q, s.calls[q'], s.stream, t.calls[q], t.calls[q'], t.stream);
    }
  }

  lemma ShapeLinks(s: Host, t: Host)
    requires PumpShape(s, t) && Links(s) && SentOk(s)
    ensures Links(t) && SentOk(t)
  {
    forall r | r in t.calls
      ensures LinkOk(t, r)
    {
      LinkShape(s, t, r);
    }
    hide LinkOk;
  }

  lemma PumpShapeKeeps(s: Host, t: Host)
    requires PumpShape(s, t) && Links(s) && SentOk(s) && NoOverlap(s)
    ensures Links(t) && SentOk(t) && NoOverlap(t)
  {
    hide Links, SentOk, NoOverlap, PumpShape;
    ShapeLinks(s, t);
    ShapeOverlap(s, t);
  }

  lemma BeforeReturned(c: Call, q: ReqId, c': Call, stream: seq<Frame>)
    requires Before(c, q, c', stream)
    ensures c.pc.Returned?
  {
  }

  lemma SameBox(c: Call, r: ReqId, stream: seq<Frame>, p: Pump, failed: bool, p': Pump, failed': bool)
    requires CallOk(c, r, stream, p, failed) && (failed ==> failed')
    requires Handing(p', r) == Handing(p, r) && (p.pc.FailingWaiters? ==> p'.pc.FailingWaiters?)
    ensures CallOk(c, r, stream, p', failed')
  {
    hide Handing, Addressed;
  }

  lemma SameBoxes(s: Host, t: Host)
    requires Calls(s) && t.calls == s.calls && t.stream == s.stream && (s.failed ==> t.failed)
    requires s.pump.pc.FailingWaiters? ==> t.pump.pc.FailingWaiters?
    requires forall r :: r in s.calls ==> Handing(t.pump, r) == Handing(s.pump, r)
    ensures Calls(t)
  {
    forall r | r in t.calls
      ensures CallOk(t.calls[r], r, t.stream, t.pump, t.failed)
    {
      SameBox(s.calls[r], r, s.stream, s.pump, s.failed, t.pump, t.failed);
    }
  }

  lemma SameTasks(s: Host, t: Host)
    requires Tasks(s) && t.tasks == s.tasks && t.stream == s.stream
    requires forall h :: h in s.tasks ==> Pending(t.pump, h) == Pending(s.pump, h)
    ensures Tasks(t)
  {
  }

  /** One more frame in the stream, handed to a waiter or not addressed to it. */
  lemma ReadBox(c: Call, r: ReqId, stream: seq<Frame>, p: Pump, f: Frame, p': Pump, failed: bool, failed': bool)
    requires CallOk(c, r, stream, p, failed) && (failed ==> failed') && p.pc.Reading?
    requires Handing(p', r) == (if f.req == r && !f.body.Event? && c.box.registered then [f] else [])
    ensures CallOk(c, r, stream + [f], p', failed')
  {
    AddressedSnoc(stream, f, c.since, r);
  }

  lemma ReadTask(t: Task, h: ReqId, stream: seq<Frame>, p: Pump, f: Frame, p': Pump, t': Task)
    requires TaskOk(t, h, stream, p) && Pending(p, h) == []
    requires t' == t || t' == t.(lost := true) || t' == t.(strayed := true)
    requires f.req == h && Publishes(f.body) ==> t'.lost || t'.strayed || Pending(p', h) == [f.body]
    requires f.req != h || !Publishes(f.body) ==> Pending(p', h) == []
    ensures TaskOk(t', h, stream + [f], p')
  {
    PublishedSnoc(stream, f, h);
  }

  lemma ReadHanding(s: Host, f: Frame, r: ReqId)
    requires s.pump.pc.Reading?
    ensures Handing(ReadFrame(s, f).pump, r)
         == if f.req == r && !f.body.Event? && r in s.calls && s.calls[r].box.registered then [f] else []
  {
  }

  lemma ReadTaskShape(s: Host, f: Frame, h: ReqId)
    requires s.pump.pc.Reading? && h in s.tasks
    ensures var t := ReadFrame(s, f); var t' := t.tasks[h];
            && (t' == s.tasks[h] || t' == s.tasks[h].(lost := true) || t' == s.tasks[h].(strayed := true))
            && (f.req == h && Publishes(f.body) ==> t'.lost || t'.strayed || Pending(t.pump, h) == [f.body])
            && (f.req != h || !Publishes(f.body) ==> Pending(t.pump, h) == [])
  {
  }

  lemma ReadKeepsCalls(s: Host, f: Frame)
    requires Calls(s) && s.pump.pc.Reading?
    ensures Calls(ReadFrame(s, f))
  {
    hide ReadPump, ReadMark, Handing, CallOk;
    var t := ReadFrame(s, f);
    forall r | r in t.calls
      ensures CallOk(t.calls[r], r, t.stream, t.pump, t.failed)
    {
      ReadHanding(s, f, r);
      ReadingHands(s.pump, r);
      ReadBox(s.calls[r], r, s.stream, s.pump, f, t.pump, s.failed, t.failed);
    }
  }

  lemma ReadingHands(p: Pump, r: ReqId)
    requires p.pc.Reading?
    ensures Handing(p, r) == [] && Pending(p, r) == []
  {
  }

  lemma ReadKeepsTasks(s: Host, f: Frame)
    requires Tasks(s) && s.pump.pc.Reading?
    ensures Tasks(ReadFrame(s, f))
  {
    hide ReadPump, ReadMark, Pending, TaskOk;
    var t := ReadFrame(s, f);
    forall h | h in t.tasks
      ensures TaskOk(t.tasks[h], h, t.stream, t.pump)
    {
      ReadTaskShape(s, f, h);
      ReadingHands(s.pump, h);
      ReadTask(s.tasks[h], h, s.stream, s.pump, f, t.pump, t.tasks[h]);
    }
  }

  lemma ReadKeepsPump(s: Host, f: Frame)
    requires NamesOk(s) && s.pump.pc.Reading?
    requires f.req in s.calls ==> CallOk(s.calls[f.req], f.req, s.stream, s.pump, s.failed)
    requires f.req in s.tasks ==> f.req in s.calls
    ensures PumpOk(ReadFrame(s, f))
  {
    hide PcOk;
  }

  lemma ReadKeepsRest(s: Host, f: Frame)
    requires NamesOk(s) && s.pump.pc.Reading?
    ensures var t := ReadFrame(s, f); NamesOk(t) && PumpShape(s, t)
  {
    hide ReadPump;
  }

  lemma ReadKeeps(s: Host, f: Frame)
    requires Inv(s) && s.pump.pc.Reading?
    ensures Inv(ReadFrame(s, f))
  {
    assert f.req in s.calls ==> CallOk(s.calls[f.req], f.req, s.stream, s.pump, s.failed);
    assert f.req in s.tasks ==> f.req in s.calls;
    hide CallOk, Calls, Links, Tasks, SentOk, NamesOk, NoOverlap, PumpOk, ReadFrame, PumpShape;
    ReadKeepsPump(s, f);
    ReadKeepsCalls(s, f);
    ReadKeepsTasks(s, f);
    ReadKeepsRest(s, f);
    PumpShapeKeeps(s, ReadFrame(s, f));
  }

  /** A step that moves the read loop on without touching queues, streams or what is pending. */
  lemma PumpMoves(s: Host, t: Host)
    requires Inv(s) && PumpShape(s, t) && t.calls == s.calls && t.tasks == s.tasks && t.names == s.names
    requires t.stream == s.stream && PumpOk(t) && (s.pump.pc.FailingWaiters? ==> t.pump.pc.FailingWaiters?)
    requires forall r :: r in s.calls ==> Handing(t.pump, r) == Handing(s.pump, r)
    requires forall h :: h in s.tasks ==> Pending(t.pump, h) == Pending(s.pump, h)
    ensures Inv(t)
  {
    hide Links, SentOk, NoOverlap, PumpOk, Handing, Pending, CallOk, TaskOk;
    PumpShapeKeeps(s, t);
    SameBoxes(s, t);
    SameTasks(s, t);
  }

  lemma ReadErrorKeeps(s: Host, text: string)
    requires Inv(s) && s.pump.pc.Reading?
    ensures Inv(GiveUp(s, Failed(text), Leave))
  {
    PumpMoves(s, GiveUp(s, Failed(text), Leave));
  }

  /** One more item in the queue. */
  lemma EnqueueQueued(c: Call, i: Item)
    requires QueuedOk(c)
    ensures QueuedOk(c.(box := Enqueue(c.box, i)))
  {
    FramesAppend(c.box.queue, i);
    FramesAppend(c.box.queued, i);
    hide Frames;
  }

  lemma SameQueued(c: Call, c': Call)
    requires QueuedOk(c) && c' == c.(box := c'.box) && c'.box.queue == c.box.queue && c'.box.queued == c.box.queued
    requires c.box.closed ==> c'.box.closed
    ensures QueuedOk(c')
  {
  }

  lemma DeliverBox(c: Call, r: ReqId, stream: seq<Frame>, p: Pump, keep: bool, p': Pump, failed: bool, failed': bool)
    requires CallOk(c, r, stream, p, failed) && (failed ==> failed')
    requires p.pc.Delivering? && p.req == r && !p'.pc.Delivering?
    requires Deliver(c.box, p.frame, keep).1.Overflowed? ==> p'.pc.FailingWaiters?
    ensures CallOk(c.(box := Deliver(c.box, p.frame, keep).0), r, stream, p', failed')
  {
    hide QueuedOk;
    FramesAppend(c.box.queue, Got(p.frame));
    assert c.taken + Frames(c.box.queue) + [p.frame] == c.taken + (Frames(c.box.queue) + [p.frame]);
    EnqueueQueued(c, Got(p.frame));
  }

  lemma FailedBox(c: Call, r: ReqId, stream: seq<Frame>, p: Pump, p': Pump)
    requires CallOk(c, r, stream, p, true) && p.pc.FailingWaiters? && !p'.pc.Delivering?
    ensures CallOk(c.(box := FailOne(c.box)), r, stream, p', true)
  {
    hide BoxOk, PcOk, QueuedOk;
    FailedQueued(c);
    FailedFrames(c, r, stream, p, p');
    FailedPc(c);
  }

  lemma FailedFrames(c: Call, r: ReqId, stream: seq<Frame>, p: Pump, p': Pump)
    requires BoxOk(c, r, stream, p, true) && p.pc.FailingWaiters? && !p'.pc.Delivering?
    ensures BoxOk(c.(box := FailOne(c.box)), r, stream, p', true)
  {
    FramesAppend(c.box.queue, Broke);
    hide Frames, Addressed;
  }

  lemma FailedPc(c: Call)
    requires PcOk(c, true)
    ensures PcOk(c.(box := FailOne(c.box)), true)
  {
    hide FailOne;
  }

  lemma FailedQueued(c: Call)
    requires QueuedOk(c)
    ensures QueuedOk(c.(box := FailOne(c.box)))
  {
    EnqueueQueued(c, Broke);
    hide QueuedOk;
    var d := c.(box := if |c.box.queue| < QUEUE_CAPACITY then Enqueue(c.box, Broke) else c.box);
    SameQueued(d, d.(box := d.box.(registered := false, closed := true)));
  }

  lemma DeliverKeepsCalls(s: Host, keep: bool)
    requires Calls(s) && s.pump.pc.Delivering? && s.pump.req in s.calls
    ensures Calls(DeliverFrame(s, keep))
  {
    var t := DeliverFrame(s, keep);
    forall r | r in t.calls
      ensures CallOk(t.calls[r], r, t.stream, t.pump, t.failed)
    {
      if r == s.pump.req {
        hide CallOk;
        DeliverBox(s.calls[r], r, s.stream, s.pump, keep, t.pump, s.failed, t.failed);
      } else {
        hide CallOk;
        SameBox(s.calls[r], r, s.stream, s.pump, s.failed, t.pump, t.failed);
      }
    }
  }

  lemma DeliverShape(s: Host, keep: bool)
    requires PumpOk(s) && s.pump.pc.Delivering?
    ensures var t := DeliverFrame(s, keep);
            && PumpShape(s, t) && PumpOk(t) && t.tasks == s.tasks && t.names == s.names && t.stream == s.stream
            && forall h :: h in s.tasks ==> Pending(t.pump, h) == Pending(s.pump, h)
  {
    hide Deliver;
  }

  lemma DeliverKeeps(s: Host, keep: bool)
    requires Inv(s)
    ensures Inv(DeliverFrame(s, keep))
  {
    if s.pump.pc.Delivering? && s.pump.req in s.calls {
      hide Calls, Links, SentOk, NoOverlap, PumpOk, PumpShape, DeliverFrame, TaskOk, Pending;
      DeliverKeepsCalls(s, keep);
      DeliverShape(s, keep);
      PumpShapeKeeps(s, DeliverFrame(s, keep));
      SameTasks(s, DeliverFrame(s, keep));
    }
  }

  /** What a task update has to respect. */
  ghost predicate Safe(s: Host, h: ReqId, t': Task, p: Pump, names: map<TaskId, ReqId>, closed: bool) {
    && h in s.tasks && h in s.calls
    && !s.pump.pc.Delivering? && !p.pc.Delivering? && !s.pump.pc.FailingWaiters?
    && t'.id == s.tasks[h].id && t'.lost == s.tasks[h].lost
    && (t'.completed ==> s.tasks[h].completed || s.failed || s.calls[h].pc.Returned?)
    && TaskOk(t', h, s.stream, p)
    && (forall i :: i != h ==> Pending(p, i) == Pending(s.pump, i))
    && PumpOk(TaskStep(s, h, t', p, names, closed)) && NamesOk(TaskStep(s, h, t', p, names, closed))
  }

  lemma TaskStepKeeps(s: Host, h: ReqId, t': Task, p: Pump, names: map<TaskId, ReqId>, closed: bool)
    requires Inv(s) && Safe(s, h, t', p, names, closed)
    ensures Inv(TaskStep(s, h, t', p, names, closed))
  {
    var t := TaskStep(s, h, t', p, names, closed);
    hide Links, SentOk, NoOverlap, PumpOk, NamesOk, CallOk, Pending;
    PumpShapeKeeps(s, t);
    SameBoxes(s, t);
    forall i | i in t.tasks
      ensures TaskOk(t.tasks[i], i, t.stream, t.pump)
    {
      assert TaskOk(s.tasks[i], i, s.stream, s.pump);
    }
  }

  lemma SettleTaskOk(s: Host)
    requires s.pump.pc.Settling? && s.pump.req in s.tasks
    requires TaskOk(s.tasks[s.pump.req], s.pump.req, s.stream, s.pump)
    ensures TaskOk(CompleteTask(s.tasks[s.pump.req], s.pump.cause), s.pump.req, s.stream, s.pump.(pc := Reading))
  {
  }

  lemma SettleSafe(s: Host)
    requires PumpOk(s) && NamesOk(s) && s.pump.pc.Settling? && s.pump.req in s.calls
    requires TaskOk(s.tasks[s.pump.req], s.pump.req, s.stream, s.pump)
    ensures var h := s.pump.req;
            Safe(s, h, CompleteTask(s.tasks[h], s.pump.cause), s.pump.(pc := Reading), s.names, s.closed)
  {
    hide TaskOk, NamesOk, PumpOk;
    SettleTables(s);
    SettleTaskOk(s);
  }

  lemma SettleTables(s: Host)
    requires PumpOk(s) && NamesOk(s) && s.pump.pc.Settling?
    ensures var h := s.pump.req;
            && h in s.tasks
            && var t := TaskStep(s, h, CompleteTask(s.tasks[h], s.pump.cause), s.pump.(pc := Reading), s.names, s.closed);
               PumpOk(t) && NamesOk(t)
  {
  }

  lemma SettleKeeps(s: Host)
    requires Inv(s)
    ensures Inv(SettleTask(s))
  {
    if s.pump.pc.Settling? {
      assert s.pump.req in s.tasks;
      var h := s.pump.req;
      hide Calls, SentOk, NamesOk, NoOverlap, PumpOk, TaskOk, LinkOk, Safe, TaskStep;
      SettleSafe(s);
      TaskStepKeeps(s, h, CompleteTask(s.tasks[h], s.pump.cause), s.pump.(pc := Reading), s.names, s.closed);
    }
  }

  lemma AppliedSafe(s: Host, t': Task)
    requires PumpOk(s) && NamesOk(s) && s.pump.pc.Applies?
    requires TaskOk(s.tasks[s.pump.req], s.pump.req, s.stream, s.pump)
    requires var t := s.tasks[s.pump.req]; var b := s.pump.frame.body;
             t' == if Publishes(b) then t.(applied := t.applied + [b]) else t
    ensures Safe(s, s.pump.req, t', s.pump.(pc := Reading), s.names, s.closed)
  {
    hide NamesOk, TaskOk, PumpOk, Publishes;
    AppliedTaskOk(s, t');
    AppliedTables(s, t');
  }

  lemma AppliedTaskOk(s: Host, t': Task)
    requires PumpOk(s) && s.pump.pc.Applies? && TaskOk(s.tasks[s.pump.req], s.pump.req, s.stream, s.pump)
    requires var t := s.tasks[s.pump.req]; var b := s.pump.frame.body;
             t' == if Publishes(b) then t.(applied := t.applied + [b]) else t
    ensures TaskOk(t', s.pump.req, s.stream, s.pump.(pc := Reading))
  {
  }

  lemma AppliedTables(s: Host, t': Task)
    requires PumpOk(s) && NamesOk(s) && s.pump.pc.Applies?
    requires t' == s.tasks[s.pump.req].(applied := t'.applied)
    ensures s.pump.req in s.tasks && s.pump.req in s.calls
    ensures var t := TaskStep(s, s.pump.req, t', s.pump.(pc := Reading), s.names, s.closed); PumpOk(t) && NamesOk(t)
  {
  }

  lemma RefusedSafe(s: Host, p': Pump)
    requires PumpOk(s) && NamesOk(s) && s.pump.pc.Applies?
    requires TaskOk(s.tasks[s.pump.req], s.pump.req, s.stream, s.pump)
    requires p' == s.pump.(pc := Cleans, todo := [s.pump.req], cause := Failed("apply"), after := Resume)
    ensures Safe(s, s.pump.req, s.tasks[s.pump.req].(rejected := true), p', s.names, s.closed)
  {
  }

  lemma ApplyKeeps(s: Host, ok: bool)
    requires Inv(s)
    ensures Inv(ApplyPending(s, ok))
  {
    if s.pump.pc.Applies? {
      assert s.pump.req in s.tasks;
      var h, t := s.pump.req, ApplyPending(s, ok);
      hide Calls, Links, SentOk, NamesOk, NoOverlap, PumpOk, TaskOk, Safe;
      if Rejects(s.pump.frame, ok) { RefusedSafe(s, t.pump); } else { AppliedSafe(s, t.tasks[h]); }
      TaskStepKeeps(s, h, t.tasks[h], t.pump, s.names, s.closed);
    }
  }

  lemma CleanSafe(s: Host)
    requires PumpOk(s) && NamesOk(s) && s.pump.pc.Cleans?
    requires TaskOk(s.tasks[s.pump.todo[0]], s.pump.todo[0], s.stream, s.pump)
    ensures var h := s.pump.todo[0];
            Safe(s, h, CleanTask(s.tasks[h]), s.pump.(pc := Completes), NameOut(s.names, s.tasks[h], h), s.closed)
  {
    hide NamesOk;
    CleanNames(s);
  }

  lemma CleanNames(s: Host)
    requires PumpOk(s) && NamesOk(s) && s.pump.pc.Cleans?
    ensures var h := s.pump.todo[0]; var t := s.tasks[h];
            NamesOk(TaskStep(s, h, CleanTask(t), s.pump.(pc := Completes), NameOut(s.names, t, h), s.closed))
  {
  }

  lemma CleanKeeps(s: Host)
    requires Inv(s)
    ensures Inv(CleanHead(s))
  {
    if s.pump.pc.Cleans? {
      assert s.pump.todo[0] in s.tasks;
      var h := s.pump.todo[0];
      hide Calls, Links, SentOk, NamesOk, NoOverlap, PumpOk, TaskOk, Safe, TaskStep, NameOut;
      CleanSafe(s);
      TaskStepKeeps(s, h, CleanTask(s.tasks[h]), s.pump.(pc := Completes), NameOut(s.names, s.tasks[h], h), s.closed);
    }
  }

  lemma CompleteTaskOk(s: Host, h: ReqId, p: Pump)
    requires s.pump.pc.Completes? && !p.pc.Applies? && h in s.tasks && TaskOk(s.tasks[h], h, s.stream, s.pump)
    ensures TaskOk(CompleteTask(s.tasks[h], s.pump.cause), h, s.stream, p)
  {
  }

  lemma CompletePump(s: Host, closed: bool, t': Task)
    requires PumpOk(s) && s.pump.pc.Completes?
    ensures PumpOk(TaskStep(s, s.pump.todo[0], t', NextTodo(s.pump.(todo := s.pump.todo[1..])), s.names, closed))
  {
  }

  lemma CompleteNames(s: Host, h: ReqId, p: Pump, closed: bool)
    requires NamesOk(s) && h in s.tasks
    ensures NamesOk(TaskStep(s, h, CompleteTask(s.tasks[h], s.pump.cause), p, s.names, closed))
  {
  }

  lemma CompletePending(s: Host, i: ReqId)
    requires s.pump.pc.Completes? && s.pump.todo != []
    ensures var p := NextTodo(s.pump.(todo := s.pump.todo[1..]));
            Pending(p, i) == Pending(s.pump, i) == [] && !p.pc.Delivering? && !p.pc.Applies?
  {
  }

  lemma CompleteSafe(s: Host, closed: bool)
    requires PumpOk(s) && NamesOk(s) && s.pump.pc.Completes?
    requires TaskOk(s.tasks[s.pump.todo[0]], s.pump.todo[0], s.stream, s.pump)
    ensures var h := s.pump.todo[0];
            Safe(s, h, CompleteTask(s.tasks[h], s.pump.cause), NextTodo(s.pump.(todo := s.pump.todo[1..])), s.names, closed)
  {
    var h, p := s.pump.todo[0], NextTodo(s.pump.(todo := s.pump.todo[1..]));
    assert s.pump.todo != [] && h in s.tasks && h in s.calls;
    hide PumpOk, NamesOk, TaskOk, NextTodo, TaskStep, Pending;
    CompletePump(s, closed, CompleteTask(s.tasks[h], s.pump.cause));
    CompleteNames(s, h, p, closed);
    forall i
      ensures Pending(p, i) == Pending(s.pump, i) && !p.pc.Delivering? && !p.pc.Applies?
    {
      CompletePending(s, i);
    }
    CompleteTaskOk(s, h, p);
  }

  lemma CompleteKeeps(s: Host)
    requires Inv(s)
    ensures Inv(CompleteHead(s))
  {
    if s.pump.pc.Completes? {
      assert s.pump.todo[0] in s.tasks;
      var h, p := s.pump.todo[0], s.pump.(todo := s.pump.todo[1..]);
      hide Calls, Links, SentOk, NamesOk, NoOverlap, PumpOk, TaskOk, Safe, TaskStep, NextTodo, ShutsDown;
      CompleteSafe(s, s.closed || ShutsDown(p));
      TaskStepKeeps(s, h, CompleteTask(s.tasks[h], s.pump.cause), NextTodo(p), s.names, s.closed || ShutsDown(p));
    }
  }

  lemma FailWaitersCalls(s: Host)
    requires Calls(s) && s.pump.pc.FailingWaiters? && s.failed
    ensures Calls(PumpNext(s, FailWaiters))
  {
    var t := PumpNext(s, FailWaiters);
    hide CallOk;
    forall r | r in t.calls
      ensures CallOk(t.calls[r], r, t.stream, t.pump, t.failed)
    {
      FailedBox(s.calls[r], r, s.stream, s.pump, t.pump);
    }
  }

  lemma FailWaitersShape(s: Host)
    requires PumpOk(s) && s.pump.pc.FailingWaiters?
    ensures var t := PumpNext(s, FailWaiters);
            && PumpShape(s, t) && PumpOk(t) && t.tasks == s.tasks && t.names == s.names && t.stream == s.stream
            && forall h :: h in s.tasks ==> Pending(t.pump, h) == Pending(s.pump, h)
  {
  }

  lemma FailWaitersKeeps(s: Host)
    requires Inv(s)
    ensures Inv(PumpNext(s, FailWaiters))
  {
    if s.pump.pc.FailingWaiters? {
      assert s.failed;
      hide Calls, Links, SentOk, NoOverlap, PumpOk, PumpShape, PumpNext, TaskOk, Pending;
      FailWaitersCalls(s);
      FailWaitersShape(s);
      PumpShapeKeeps(s, PumpNext(s, FailWaiters));
      SameTasks(s, PumpNext(s, FailWaiters));
    }
  }

  lemma CollectPump(s: Host, todo: seq<ReqId>)
    requires PumpOk(s) && s.pump.pc.Collecting? && Lists(s, todo)
    requires forall h :: h in s.tasks ==> h in s.calls
    ensures var t := CollectTasks(s, todo);
            && PumpShape(s, t) && PumpOk(t) && t.tasks == s.tasks && t.names == s.names && t.stream == s.stream
            && t.calls == s.calls
            && (forall h :: h in s.tasks ==> Pending(t.pump, h) == Pending(s.pump, h))
            && (forall r :: r in s.calls ==> Handing(t.pump, r) == Handing(s.pump, r))
  {
  }

  lemma CollectKeeps(s: Host, todo: seq<ReqId>)
    requires Inv(s)
    ensures Inv(CollectTasks(s, todo))
  {
    if s.pump.pc.Collecting? && Lists(s, todo) {
      hide Calls, LinkOk, Tasks, SentOk, NoOverlap, PumpOk, PumpShape, CollectTasks, NamesOk;
      CollectPump(s, todo);
      PumpMoves(s, CollectTasks(s, todo));
    }
  }

  // ---------------------------------------------------------------- every step

  lemma FreshId(s: Host)
    requires Links(s)
    ensures forall r :: r in s.calls ==> r <= s.next
  {
    forall r | r in s.calls
      ensures r <= s.next
    {
      assert LinkOk(s, r);
    }
  }

  lemma BeginCalls(s: Host, c: Call)
    requires s.pump.pc.Delivering? ==> s.pump.req in s.calls
    requires Calls(s) && c == NewCall(c.isStop, c.task, |s.stream|)
    requires (s.next + 1) !in s.calls
    ensures Calls(PutCall(s, s.next + 1, c))
  {
    NewCallOk(s, c, s.next + 1);
    hide CallOk, NewCall;
  }

  lemma NewCallOk(s: Host, c: Call, r: ReqId)
    requires (s.pump.pc.Delivering? ==> s.pump.req in s.calls) && r !in s.calls
    requires c == NewCall(c.isStop, c.task, |s.stream|)
    ensures CallOk(c, r, s.stream, s.pump, s.failed)
  {
    assert Addressed(s.stream, |s.stream|, r) == [];
    NoFrames();
  }

  lemma BeginLinks(s: Host, c: Call)
    requires Links(s) && SentOk(s) && c == NewCall(c.isStop, c.task, |s.stream|)
    requires if c.isStop then StopLink(s, c) else c.task == s.next + 1
    ensures var t := PutCall(s, s.next + 1, c).(next := s.next + 1); Links(t) && SentOk(t)
  {
    var r := s.next + 1;
    var t := PutCall(s, r, c).(next := r);
    FreshId(s);
    forall q | q in t.calls
      ensures LinkOk(t, q)
    {
      assert q in s.calls ==> LinkOk(s, q);
    }
  }

  lemma BeginOverlap(s: Host, c: Call)
    requires NoOverlap(s) && Calls(s) && c == NewCall(c.isStop, c.task, |s.stream|)
    requires forall r :: r in s.calls ==> r <= s.next
    requires c.isStop ==> forall q :: q in s.calls && SameStop(s.calls[q], c) ==> s.calls[q].pc.Returned?
    ensures NoOverlap(PutCall(s, s.next + 1, c).(next := s.next + 1))
  {
    var t := PutCall(s, s.next + 1, c).(next := s.next + 1);
    forall q, q' | q in t.calls && q' in t.calls && q < q' && SameStop(t.calls[q], t.calls[q'])
      ensures Before(t.calls[q], q, t.calls[q'], t.stream)
    {
      if q' == s.next + 1 {
        assert CallOk(s.calls[q], q, s.stream, s.pump, s.failed);
        assert s.stream[..|s.stream|] == s.stream;
      } else {
        assert Before(s.calls[q], q, s.calls[q'], s.stream);
      }
    }
  }

  lemma BeginPump(s: Host, c: Call)
    requires PumpOk(s) && (s.next + 1) !in s.calls
    ensures PumpOk(PutCall(s, s.next + 1, c).(next := s.next + 1))
  {
  }

  lemma BeginKeeps(s: Host, c: Call)
    requires Inv(s) && c == NewCall(c.isStop, c.task, |s.stream|)
    requires if c.isStop then Idle(s, c.task) else c.task == s.next + 1
    ensures Inv(PutCall(s, s.next + 1, c).(next := s.next + 1))
  {
    var r := s.next + 1;
    FreshId(s);
    assert s.pump.pc.Delivering? ==> s.pump.req in s.calls;
    BeginOverlap(s, c);
    assert c.isStop ==> StopLink(s, c);
    hide Calls, Links, Tasks, SentOk, NamesOk, NoOverlap, PumpOk, StopLink;
    BeginCalls(s, c);
    BeginLinks(s, c);
    BeginPump(s, c);
    BeginRest(s, c);
  }

  lemma BeginRest(s: Host, c: Call)
    requires Calls(PutCall(s, s.next + 1, c)) && Tasks(s) && NamesOk(s)
    ensures var t := PutCall(s, s.next + 1, c).(next := s.next + 1); Calls(t) && Tasks(t) && NamesOk(t)
  {
  }

  lemma ShutdownShape(s: Host)
    requires PumpOk(s)
    ensures var t := s.(closed := true, failed := true); PumpShape(s, t) && PumpOk(t)
  {
  }

  lemma ShutdownKeeps(s: Host)
    requires Inv(s)
    ensures Inv(s.(closed := true, failed := true))
  {
    hide PumpOk, PumpShape, Links, SentOk, NoOverlap, CallOk, TaskOk;
    ShutdownShape(s);
    PumpMoves(s, s.(closed := true, failed := true));
  }

  lemma CallKeeps(s: Host, r: ReqId, a: CallStep)
    requires Inv(s)
    ensures Inv(CallNext(s, r, a))
  {
    if r in s.calls {
      assert PcOk(s.calls[r], s.failed) && LinkOk(s, r) && (s.pump.pc.Applies? ==> s.pump.req in s.tasks);
      CallStepNames(s, r, a);
      CallStepSent(s, r, a);
      assert s.calls[r].pc.Enlisting? ==> !s.calls[r].isStop;
      CallStepTasks(s, r, a);
      hide Calls, Links, Tasks, SentOk, NamesOk, NoOverlap, PumpOk, CallNext, PcOk, LinkOk;
      CallStepCalls(s, r, a);
      CallStepLinks(s, r, a);
      CallStepOverlap(s, r, a);
      CallStepPump(s, r, a);
    }
  }

  lemma PumpKeeps(s: Host, a: PumpStep)
    requires Inv(s)
    ensures Inv(PumpNext(s, a))
  {
    hide Inv, ReadFrame, GiveUp, DeliverFrame, SettleTask, ApplyPending, CollectTasks, CleanHead, CompleteHead;
    match a
    case Read(f) => if s.pump.pc.Reading? { ReadKeeps(s, f); }
    case ReadError(text) => if s.pump.pc.Reading? { ReadErrorKeeps(s, text); }
    case DeliverIt(keep) => DeliverKeeps(s, keep);
    case Settle => SettleKeeps(s);
    case ApplyIt(ok) => ApplyKeeps(s, ok);
    case FailWaiters => FailWaitersKeeps(s);
    case Collect(todo) => CollectKeeps(s, todo);
    case CleanNext => CleanKeeps(s);
    case CompleteNext => CompleteKeeps(s);
  }

  lemma NextKeeps(s: Host, step: Step)
    requires Inv(s)
    ensures Inv(Next(s, step))
  {
    hide Inv, CallNext, PumpNext;
    match step
    case BeginStart => BeginKeeps(s, NewCall(false, s.next + 1, |s.stream|));
    case BeginStop(h) => if Idle(s, h) { BeginKeeps(s, NewCall(true, h, |s.stream|)); }
    case Calling(r, a) => CallKeeps(s, r, a);
    case Pumping(a) => PumpKeeps(s, a);
    case Shutdown => ShutdownKeeps(s);
  }

  lemma {:induction false} ExecKeeps(s: Host, steps: seq<Step>)
    requires Inv(s)
    ensures Inv(Exec(s, steps))
    decreases |steps|
  {
    hide Inv, Next;
    if steps != [] {
      NextKeeps(s, steps[0]);
      ExecKeeps(Next(s, steps[0]), steps[1..]);
    }
  }
}
