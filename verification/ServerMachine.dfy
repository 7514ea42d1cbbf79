/**
  The plugin server as a step machine: the single Serve loop with its start and
  stop handlers, one monitor per background task, and the plugin's own
  goroutines. A step is one critical section, one channel operation or one
  frame write; every environment choice (task outcomes, channel sends, the
  moment the pipe breaks) is part of the step. A step that is not possible in
  a state leaves the state alone, so a run is any sequence of steps.

  Whatever touches one task is a function of that task and of the handler
  alone; `Apply` puts its effect back into the server.
 */
module ServerMachine {
  import opened Outcomes
  import opened Wire
  import Utf8
  import opened ServerTasks

  datatype Chan = Chan(items: seq<Outcome>, closed: bool)

  datatype MonitorPc = Absent | Waiting | Consumed | Claiming | Writing | Exited

  datatype Pc =
    | Idle | InStart | Started | Reply
    | InStop | Outputs | Flushing | Confirming | Aborting | Failing
    | Draining | Drained | Deciding | Announcing | Halting | Joining | Removing
    | Dead

  /**
    Where the Serve loop stands: the request being served, its task, the error
    code about to be replied and the outcome about to be announced.
   */
  datatype Handler = Handler(pc: Pc, req: ReqId, id: TaskId, code: Code, err: Outcome)

  /** A position in the output stream. */
  datatype Place = Never | Place(k: nat)

  /**
    One background task: its record while it is in the table, its Done channel,
    its monitor, and what happened so far. `receipts` lists what was received from
    Done, by whomever, `seen` the observations in lock order, `announced` the event
    writes attempted; the places are positions of its frames in the output stream.
   */
  datatype Life = Life(
    owner: ReqId,
    listed: bool,
    record: Record,
    chan: Chan,
    monitor: MonitorPc,
    carried: Outcome,
    consumed: bool,
    receipts: seq<Outcome>,
    seen: seq<Outcome>,
    announced: seq<Outcome>,
    startAt: Place,
    eventAt: Place,
    flushAt: Place,
    stopAt: Place,
    metricless: bool)

  datatype Server = Server(
    lives: map<TaskId, Life>,
    next: TaskId,
    handler: Handler,
    got: seq<Request>,
    out: seq<Frame>,
    broken: bool,
    starts: set<ReqId>,
    spawned: map<ReqId, TaskId>,
    stops: map<ReqId, TaskId>,
    strangers: set<ReqId>,
    replyAt: map<ReqId, nat>)

  const INIT := Server(
    map[], 0, Handler(Idle, 0, 0, OtherError, Clean), [], [], false, {}, map[], map[], {}, map[])

  /** The task table as the server object holds it. */
  function TableOf(s: Server): Table {
    Table(s.next, map id | id in s.lives && s.lives[id].listed :: s.lives[id].record)
  }

  /** The Serve loop between requests, and the start handler. */
  datatype StartStep =
    | Read(request: Request)
    | Eof
    | StartFails(code: Code)
    | StartSucceeds
    | WriteStarted
    | WriteReply
    | ReplyFails

  /** The stop handler up to and including its StopResponse. */
  datatype StopStep =
    | StopFails
    | StopSucceeds
    | WriteOutput(name: string, value: string)
    | OutputFails
    | OutputsDone
    | WriteFlush(snapshots: string)
    | FlushFails
    | NoMetrics
    | Confirm
    | Abort

  /** The stop handler after its StopResponse. */
  datatype CloseStep = DrainTake | DrainNothing | DrainObserve | Decide | Announce | Halt | Join | Forget

  datatype MonitorStep = MonitorTake | MonitorLeave | MonitorObserve | MonitorDecide | MonitorWrite

  /** The task's own goroutine at its Done channel. */
  datatype DoneStep = DoneSend(err: Outcome) | DoneClose

  datatype Step =
    | Start(start: StartStep)
    | Stop(stop: StopStep)
    | Close(close: CloseStep)
    | Monitoring(id: TaskId, monitor: MonitorStep)
    | Done(task: TaskId, done: DoneStep)
    | PluginArtifact(req: ReqId, payload: string)
    | Unsupported(req: ReqId)
    | Break

  /** What an action does: the task and the handler afterwards, and the frame it writes, if any. */
  datatype Effect = Effect(life: Life, handler: Handler, frames: seq<Frame>)

  predicate Receivable(c: Chan) {
    c.items != [] || c.closed
  }

  /** A receive yields the oldest item, or nil once the channel is closed and empty. */
  function Received(c: Chan): Outcome {
    if c.items != [] then c.items[0] else Clean
  }

  function AfterReceive(c: Chan): Chan {
    if c.items != [] then c.(items := c.items[1..]) else c
  }

  function NewLife(req: ReqId): Life {
    Life(req, true, Fresh(req), Chan([], false), Absent, Clean, false, [], [], [], Never, Never, Never, Never, false)
  }

  /** `n` is the length of the output stream, `broken` whether writes fail. */
  function StartedAct(l: Life, h: Handler, n: nat, broken: bool): Effect {
    if broken then Effect(l, h.(pc := Dead), [])
    else Effect(l.(startAt := Place(n), monitor := Waiting), h.(pc := Idle), [Frame(h.req, StartResponse(h.id))])
  }

  function StopAct(l: Life, h: Handler, n: nat, broken: bool, a: StopStep): Effect {
    match a
    case StopFails => if h.pc.InStop? then Effect(l, h.(pc := Aborting), []) else Effect(l, h, [])
    case StopSucceeds => if h.pc.InStop? then Effect(l, h.(pc := Outputs), []) else Effect(l, h, [])
    case WriteOutput(name, value) =>
      if !h.pc.Outputs? then Effect(l, h, [])
      else if broken then Effect(l, h.(pc := Aborting), [])
      else Effect(l, h, [Frame(l.owner, SetOutput(name, value))])
    case OutputFails => if h.pc.Outputs? then Effect(l, h.(pc := Aborting), []) else Effect(l, h, [])
    case OutputsDone => if h.pc.Outputs? then Effect(l, h.(pc := Flushing), []) else Effect(l, h, [])
    case WriteFlush(snapshots) =>
      if !h.pc.Flushing? then Effect(l, h, [])
      else if broken then Effect(l, h.(pc := Aborting), [])
      else Effect(l.(flushAt := Place(n)), h.(pc := Confirming), [Frame(l.owner, MetricFlush(snapshots))])
    case FlushFails => if h.pc.Flushing? then Effect(l, h.(pc := Aborting), []) else Effect(l, h, [])
    case NoMetrics =>
      if h.pc.Flushing? then Effect(l.(metricless := true), h.(pc := Confirming), []) else Effect(l, h, [])
    case Confirm =>
      if !h.pc.Confirming? then Effect(l, h, [])
      else if broken then Effect(l, h.(pc := Failing), [])
      else Effect(l.(stopAt := Place(n)), h.(pc := Draining), [Frame(h.req, StopResponse)])
    case Abort =>
      if h.pc.Aborting? then Effect(l.(record := MarkStopping(l.record, false)), h.(pc := Reply, code := RunError), [])
      else if h.pc.Failing? then Effect(l.(record := MarkStopping(l.record, false)), h.(pc := Dead), [])
      else Effect(l, h, [])
  }

  function Take(l: Life): Life {
    l.(chan := AfterReceive(l.chan), consumed := true, receipts := l.receipts + [Received(l.chan)])
  }

  function Observed(l: Life, err: Outcome): Life {
    if l.listed then l.(seen := l.seen + [err], record := ObserveRecord(l.record, err)) else l
  }

  /** A frame carries text only if it is UTF-8. */
  predicate Marshals(err: Outcome) {
    err.Clean? || Utf8.Valid(err.text)
  }

  /** Attempt to write the terminal event; a failure to marshal or to write it is ignored. */
  function WriteEvent(l: Life, id: TaskId, err: Outcome, n: nat, broken: bool): (Life, seq<Frame>) {
    if broken || !Marshals(err) then (l.(announced := l.announced + [err]), [])
    else (l.(announced := l.announced + [err], eventAt := Place(n)), [Frame(l.owner, Event(id, err))])
  }

  function CloseAct(l: Life, h: Handler, n: nat, broken: bool, a: CloseStep): Effect {
    match a
    case DrainTake =>
      if h.pc.Draining? && Receivable(l.chan)
      then Effect(Take(l), h.(pc := Drained, err := Received(l.chan)), [])
      else Effect(l, h, [])
    case DrainNothing =>
      if h.pc.Draining? && !Receivable(l.chan) then Effect(l, h.(pc := Deciding), []) else Effect(l, h, [])
    case DrainObserve =>
      if h.pc.Drained? then Effect(Observed(l, h.err), h.(pc := Deciding), []) else Effect(l, h, [])
    case Decide =>
      if !h.pc.Deciding? then Effect(l, h, [])
      else if l.listed && Emits(l.record)
      then Effect(l.(record := ClaimRecord(l.record)), h.(pc := Announcing, err := l.record.doneErr), [])
      else Effect(l, h.(pc := Halting), [])
    case Announce =>
      if h.pc.Announcing?
      then var (l', fs) := WriteEvent(l, h.id, h.err, n, broken); Effect(l', h.(pc := Halting), fs)
      else Effect(l, h, [])
    case Halt =>
      if !h.pc.Halting? then Effect(l, h, [])
      else if l.listed then Effect(l.(record := HaltRecord(l.record)), h.(pc := Joining), [])
      else Effect(l, h.(pc := Idle), [])
    case Join => if h.pc.Joining? && l.monitor.Exited? then Effect(l, h.(pc := Removing), []) else Effect(l, h, [])
    case Forget =>
      if h.pc.Removing? then Effect(l.(listed := false), h.(pc := Idle), []) else Effect(l, h, [])
  }

  function MonitorAct(l: Life, id: TaskId, n: nat, broken: bool, a: MonitorStep): (Life, seq<Frame>) {
    match a
    case MonitorTake =>
      if l.monitor.Waiting? && Receivable(l.chan)
      then (Take(l).(monitor := Consumed, carried := Received(l.chan)), [])
      else (l, [])
    case MonitorLeave =>
      if l.monitor.Waiting? && l.record.monitorStopped then (l.(monitor := Exited), []) else (l, [])
    case MonitorObserve =>
      if l.monitor.Consumed? then (Observed(l, l.carried).(monitor := Claiming), []) else (l, [])
    case MonitorDecide =>
      if !l.monitor.Claiming? then (l, [])
      else if l.listed && Emits(l.record)
      then (l.(record := ClaimRecord(l.record), monitor := Writing, carried := l.record.doneErr), [])
      else (l.(monitor := Exited), [])
    case MonitorWrite =>
      if l.monitor.Writing?
      then var (l', fs) := WriteEvent(l, id, l.carried, n, broken); (l'.(monitor := Exited), fs)
      else (l, [])
  }

  function DoneAct(l: Life, a: DoneStep): Life {
    match a
    case DoneSend(err) => if l.chan.closed then l else l.(chan := Chan(l.chan.items + [err], false))
    case DoneClose => l.(chan := l.chan.(closed := true))
  }

  /** Put an effect on task `id` back; a frame for a stop request is its reply. */
  function Apply(s: Server, id: TaskId, e: Effect): Server {
    Write(s.(lives := s.lives[id := e.life], handler := e.handler), e.frames)
  }

  function Write(s: Server, frames: seq<Frame>): Server {
    if frames == [] then s
    else
      s.(out := s.out + frames,
         replyAt := if frames[0].req in s.stops then s.replyAt[frames[0].req := |s.out|] else s.replyAt)
  }

  function ReadRequest(s: Server, r: Request): Server {
    if !s.handler.pc.Idle? || r.req in s.starts || r.req in s.stops then s
    else
      match r
      case StartRequest(req) =>
        s.(got := s.got + [r], starts := s.starts + {req},
           handler := Handler(InStart, req, 0, OtherError, Clean))
      case StopRequest(req, id) =>
        if id in s.lives && s.lives[id].listed
        then s.(got := s.got + [r], stops := s.stops[req := id],
                lives := s.lives[id := s.lives[id].(record := MarkStopping(s.lives[id].record, true))],
                handler := Handler(InStop, req, id, OtherError, Clean))
        else s.(got := s.got + [r], stops := s.stops[req := id],
                handler := Handler(Reply, req, 0, ConfigError, Clean),
                strangers := if id in s.lives then s.strangers else s.strangers + {req})
  }

  function StoreTask(s: Server): Server {
    var req, id := s.handler.req, s.next + 1;
    s.(next := id, lives := s.lives[id := NewLife(req)], spawned := s.spawned[req := id],
       handler := s.handler.(pc := Started, id := id))
  }

  function WriteError(s: Server): Server {
    if s.broken then s.(handler := s.handler.(pc := Dead))
    else Write(s.(handler := s.handler.(pc := Idle)), [Frame(s.handler.req, Error(s.handler.code))])
  }

  function StartNext(s: Server, a: StartStep): Server {
    var h := s.handler;
    match a
    case Read(r) => ReadRequest(s, r)
    case Eof => if h.pc.Idle? then s.(handler := h.(pc := Dead)) else s
    case StartFails(code) => if h.pc.InStart? then s.(handler := h.(pc := Reply, code := code)) else s
    case StartSucceeds => if h.pc.InStart? then StoreTask(s) else s
    case WriteStarted =>
      if h.pc.Started? && h.id in s.lives
      then Apply(s, h.id, StartedAct(s.lives[h.id], h, |s.out|, s.broken))
      else s
    case WriteReply => if h.pc.Reply? then WriteError(s) else s
    case ReplyFails => if h.pc.Reply? then s.(handler := h.(pc := Dead)) else s
  }

  function Next(s: Server, step: Step): Server {
    match step
    case Start(a) => StartNext(s, a)
    case Stop(a) =>
      if s.handler.id in s.lives
      then Apply(s, s.handler.id, StopAct(s.lives[s.handler.id], s.handler, |s.out|, s.broken, a))
      else s
    case Close(a) =>
      if s.handler.id in s.lives
      then Apply(s, s.handler.id, CloseAct(s.lives[s.handler.id], s.handler, |s.out|, s.broken, a))
      else s
    case Monitoring(id, a) =>
      if id in s.lives
      then var (l, fs) := MonitorAct(s.lives[id], id, |s.out|, s.broken, a); Apply(s, id, Effect(l, s.handler, fs))
      else s
    case Done(id, a) =>
      if id in s.lives then Apply(s, id, Effect(DoneAct(s.lives[id], a), s.handler, [])) else s
    case PluginArtifact(req, payload) =>
      if req in s.starts && !s.broken then Write(s, [Frame(req, Artifact(payload))]) else s
    case Unsupported(req) => Refuse(s, req)
    case Break => s.(broken := true)
  }

  /** The Serve loop meets an artifact reply that no plugin call took from the pipe. */
  function Refuse(s: Server, req: ReqId): Server {
    if !s.handler.pc.Idle? || req !in s.starts then s
    else if s.broken then s.(handler := s.handler.(pc := Dead))
    else Write(s, [Frame(req, Error(OtherError))])
  }

  function Exec(s: Server, steps: seq<Step>): Server
    decreases |steps|
  {
    if steps == [] then s else Exec(Next(s, steps[0]), steps[1..])
  }

  // ---------------------------------------------------------------- one task

  /** In the stop handler, before the StopResponse is out. */
  predicate Busy(pc: Pc) {
    pc.InStop? || pc.Outputs? || pc.Flushing? || pc.Confirming? || pc.Aborting? || pc.Failing?
  }

  /** In the stop handler, after the StopResponse is out. */
  predicate Closing(pc: Pc) {
    pc.Draining? || pc.Drained? || pc.Deciding? || pc.Announcing? || pc.Halting? || pc.Joining? || pc.Removing?
  }

  /** The handler's business with task `id`: its pc if it is at that task, else Idle (or Dead). */
  function Role(h: Handler, id: TaskId): Pc {
    if h.pc.Dead? || h.id == id then h.pc else Idle
  }

  /** The terminal event: who consumed, who observed first, who is about to write. */
  ghost predicate EventOk(l: Life, role: Pc, err: Outcome) {
    && (l.consumed <==> l.seen != [] || l.monitor.Consumed? || role.Drained?)
    && (l.announced == [] || (l.seen != [] && l.announced == [l.seen[0]]))
    && (l.monitor.Writing? ==> l.seen != [] && l.carried == l.seen[0] && l.announced == [])
    && (role.Announcing? ==> l.seen != [] && err == l.seen[0] && l.announced == [] && !l.monitor.Writing?)
    && (l.record.doneObserved <==> l.seen != [])
    && (l.seen != [] ==> l.record.doneErr == l.seen[0])
    && (l.record.eventSent <==> l.announced != [] || l.monitor.Writing? || role.Announcing?)
    && (l.seen != [] && !l.record.eventSent ==> l.monitor.Claiming? || role.Deciding?)
  }

  /** Where the task stands in its life: started, flushed, stopped, removed. */
  ghost predicate PhaseOk(l: Life, role: Pc) {
    && l.record.req == l.owner
    && (l.startAt.Never? <==> l.monitor.Absent?)
    && (l.startAt.Never? ==>
          && l.listed && l.seen == [] && l.stopAt.Never? && l.flushAt.Never? && l.eventAt.Never? && !l.metricless
          && (role.Dead? || role.Started?))
    && (role.Started? ==> l.startAt.Never?)
    && (Busy(role) ==> l.listed && l.stopAt.Never?)
    && (Closing(role) ==> l.listed && l.stopAt.Place?)
    && (l.stopAt.Place? && l.listed ==> Closing(role))
    && (l.record.monitorStopped && l.listed ==> role.Joining? || role.Removing?)
    && (role.Removing? ==> l.monitor.Exited?)
    && (!l.listed ==> l.monitor.Exited? && l.stopAt.Place?)
    && !(l.metricless && l.flushAt.Place?)
    && ((l.flushAt.Place? || l.metricless) && l.stopAt.Never? ==> role.Dead? || role.Confirming? || role.Failing?)
    && (role.Confirming? || l.stopAt.Place? ==> l.flushAt.Place? || l.metricless)
  }

  ghost predicate TaskOk(l: Life, h: Handler, id: TaskId) {
    EventOk(l, Role(h, id), h.err) && PhaseOk(l, Role(h, id))
  }

  /** Nothing recorded about a task is ever taken back. */
  ghost predicate Extends(l: Life, l': Life, n: nat) {
    && l'.owner == l.owner
    && (l'.startAt == l.startAt || (l.startAt.Never? && l'.startAt == Place(n)))
    && (l'.eventAt == l.eventAt || (l.announced == [] && l'.eventAt == Place(n)))
    && (l'.flushAt == l.flushAt || (l.flushAt.Never? && l'.flushAt == Place(n)))
    && (l'.stopAt == l.stopAt || (l.stopAt.Never? && l'.stopAt == Place(n)))
    && (l'.announced == l.announced || l.announced == [])
    && l.seen <= l'.seen
    && (l.consumed ==> l'.consumed)
    && (l.metricless ==> l'.metricless)
    && (l'.listed ==> l.listed)
  }

  /** The frame an effect writes at position `n` is the one its change of the task calls for. */
  ghost predicate EmitOk(l: Life, l': Life, id: TaskId, h: Handler, fs: seq<Frame>, n: nat, broken: bool) {
    && |fs| <= 1
    && (l'.startAt != l.startAt ==> fs == [Frame(l.owner, StartResponse(id))])
    && (l'.stopAt != l.stopAt ==> fs == [Frame(h.req, StopResponse)])
    && (l'.flushAt != l.flushAt ==> fs != [] && fs[0].req == l.owner && fs[0].body.MetricFlush?)
    && (l'.eventAt != l.eventAt ==>
          && l.announced == [] && l'.announced != [] && Marshals(l'.announced[0])
          && fs == [Frame(l.owner, Event(id, l'.announced[0]))])
    && (l'.announced != l.announced ==>
          && l.announced == [] && |l'.announced| == 1
          && (broken || !Marshals(l'.announced[0]) || l'.eventAt == Place(n)))
    && (fs != [] ==>
          match fs[0].body
          case StartResponse(i) => fs[0].req == l.owner && i == id && l'.startAt == Place(n)
          case StopResponse => fs[0].req == h.req && Busy(h.pc) && h.id == id && l'.stopAt == Place(n)
          case SetOutput(_, _) => fs[0].req == l.owner && l.startAt.Place? && l'.stopAt.Never?
          case MetricFlush(_) =>
            fs[0].req == l.owner && l.startAt.Place? && l'.stopAt.Never? && l'.flushAt == Place(n)
          case Event(i, c) =>
            fs[0].req == l.owner && i == id && l.startAt.Place? && l'.eventAt == Place(n) && l'.announced == [c]
          case _ => false)
  }

  lemma StartedOk(l: Life, h: Handler, n: nat, broken: bool)
    requires TaskOk(l, h, h.id) && h.pc.Started? && h.req == l.owner
    ensures var e := StartedAct(l, h, n, broken);
            TaskOk(e.life, e.handler, h.id) && Extends(l, e.life, n) && EmitOk(l, e.life, h.id, h, e.frames, n, broken)
  {
  }

  lemma StopActTask(l: Life, h: Handler, n: nat, broken: bool, a: StopStep)
    requires TaskOk(l, h, h.id)
    ensures var e := StopAct(l, h, n, broken, a); TaskOk(e.life, e.handler, h.id)
  {
    hide EventOk, PhaseOk;
    StopActEvent(l, h, n, broken, a);
    StopActPhase(l, h, n, broken, a);
  }

  lemma StopActEvent(l: Life, h: Handler, n: nat, broken: bool, a: StopStep)
    requires TaskOk(l, h, h.id)
    ensures var e := StopAct(l, h, n, broken, a); EventOk(e.life, Role(e.handler, h.id), e.handler.err)
  {
    hide EventOk, PhaseOk;
    var e := StopAct(l, h, n, broken, a);
    StopActAside(l, h, n, broken, a);
    EventAside(l, Role(h, h.id), h.err, e.life, Role(e.handler, h.id), e.handler.err);
  }

  /** The handler is not about the terminal event. */
  predicate Aside(role: Pc) {
    !role.Drained? && !role.Announcing? && !role.Deciding?
  }

  /** Nothing that concerns the terminal event differs. */
  predicate SameEvent(l: Life, l': Life) {
    && l'.consumed == l.consumed && l'.seen == l.seen && l'.announced == l.announced
    && l'.monitor == l.monitor && l'.carried == l.carried
    && l'.record.doneObserved == l.record.doneObserved && l'.record.doneErr == l.record.doneErr
    && l'.record.eventSent == l.record.eventSent
  }

  lemma StopActAside(l: Life, h: Handler, n: nat, broken: bool, a: StopStep)
    ensures var e := StopAct(l, h, n, broken, a); var role := Role(e.handler, h.id);
            && SameEvent(l, e.life) && e.handler.err == h.err && (role == Role(h, h.id) || (Aside(Role(h, h.id)) && Aside(role)))
  {
  }

  lemma EventAside(l: Life, role: Pc, err: Outcome, l': Life, role': Pc, err': Outcome)
    requires EventOk(l, role, err) && SameEvent(l, l') && err' == err && (role' == role || (Aside(role) && Aside(role')))
    ensures EventOk(l', role', err')
  {
  }

  lemma StopActPhase(l: Life, h: Handler, n: nat, broken: bool, a: StopStep)
    requires TaskOk(l, h, h.id)
    ensures var e := StopAct(l, h, n, broken, a); PhaseOk(e.life, Role(e.handler, h.id))
  {
    hide EventOk;
  }

  lemma StopActEmits(l: Life, h: Handler, n: nat, broken: bool, a: StopStep)
    requires TaskOk(l, h, h.id)
    ensures var e := StopAct(l, h, n, broken, a);
            Extends(l, e.life, n) && EmitOk(l, e.life, h.id, h, e.frames, n, broken)
  {
  }

  lemma CloseActTask(l: Life, h: Handler, n: nat, broken: bool, a: CloseStep)
    requires TaskOk(l, h, h.id)
    ensures var e := CloseAct(l, h, n, broken, a); TaskOk(e.life, e.handler, h.id)
  {
    hide EventOk, PhaseOk;
    CloseActEvent(l, h, n, broken, a);
    CloseActPhase(l, h, n, broken, a);
  }

  lemma CloseActEvent(l: Life, h: Handler, n: nat, broken: bool, a: CloseStep)
    requires TaskOk(l, h, h.id)
    ensures var e := CloseAct(l, h, n, broken, a); EventOk(e.life, Role(e.handler, h.id), e.handler.err)
  {
  }

  lemma CloseActPhase(l: Life, h: Handler, n: nat, broken: bool, a: CloseStep)
    requires TaskOk(l, h, h.id)
    ensures var e := CloseAct(l, h, n, broken, a); PhaseOk(e.life, Role(e.handler, h.id))
  {
  }

  lemma CloseActEmits(l: Life, h: Handler, n: nat, broken: bool, a: CloseStep)
    requires TaskOk(l, h, h.id)
    ensures var e := CloseAct(l, h, n, broken, a);
            Extends(l, e.life, n) && EmitOk(l, e.life, h.id, h, e.frames, n, broken)
  {
  }

  lemma MonitorActTask(l: Life, h: Handler, id: TaskId, n: nat, broken: bool, a: MonitorStep)
    requires TaskOk(l, h, id)
    ensures TaskOk(MonitorAct(l, id, n, broken, a).0, h, id)
  {
    hide EventOk, PhaseOk;
    MonitorActEvent(l, h, id, n, broken, a);
    MonitorActPhase(l, h, id, n, broken, a);
  }

  lemma MonitorActEvent(l: Life, h: Handler, id: TaskId, n: nat, broken: bool, a: MonitorStep)
    requires TaskOk(l, h, id)
    ensures EventOk(MonitorAct(l, id, n, broken, a).0, Role(h, id), h.err)
  {
  }

  lemma MonitorActPhase(l: Life, h: Handler, id: TaskId, n: nat, broken: bool, a: MonitorStep)
    requires TaskOk(l, h, id)
    ensures PhaseOk(MonitorAct(l, id, n, broken, a).0, Role(h, id))
  {
  }

  lemma MonitorActEmits(l: Life, h: Handler, id: TaskId, n: nat, broken: bool, a: MonitorStep)
    requires TaskOk(l, h, id)
    ensures var (l', fs) := MonitorAct(l, id, n, broken, a); Extends(l, l', n) && EmitOk(l, l', id, h, fs, n, broken)
  {
    hide Extends, EmitOk;
    MonitorActExtends(l, h, id, n, broken, a);
    MonitorActWrites(l, h, id, n, broken, a);
  }

  lemma MonitorActExtends(l: Life, h: Handler, id: TaskId, n: nat, broken: bool, a: MonitorStep)
    requires TaskOk(l, h, id)
    ensures Extends(l, MonitorAct(l, id, n, broken, a).0, n)
  {
    hide PhaseOk, Marshals;
  }

  lemma MonitorActWrites(l: Life, h: Handler, id: TaskId, n: nat, broken: bool, a: MonitorStep)
    requires TaskOk(l, h, id)
    ensures var (l', fs) := MonitorAct(l, id, n, broken, a); EmitOk(l, l', id, h, fs, n, broken)
  {
    hide Marshals;
  }

  // ------------------------------------------------------------- all together

  ghost predicate Ids(s: Server) {
    && (forall id :: id in s.lives <==> 0 < id <= s.next)
    && (forall id :: id in s.lives ==>
          s.lives[id].owner in s.spawned && s.spawned[s.lives[id].owner] == id && s.lives[id].owner in s.starts)
    && (forall r :: r in s.spawned ==> s.spawned[r] in s.lives && s.lives[s.spawned[r]].owner == r)
    && s.starts !! s.stops.Keys
  }

  /** The stop request names a task that was never issued, or one whose StopResponse is written. */
  ghost predicate Gone(s: Server, req: ReqId) {
    && req in s.stops
    && (req in s.strangers || (s.stops[req] in s.lives && s.lives[s.stops[req]].stopAt.Place?))
  }

  ghost predicate HandlerOk(s: Server) {
    var h := s.handler;
    && (h.pc.InStart? ==> h.req in s.starts && h.req !in s.spawned)
    && (h.pc.Started? ==> h.id in s.lives && s.lives[h.id].owner == h.req)
    && (h.pc.Reply? ==>
          && (h.req in s.starts || h.req in s.stops)
          && h.req !in s.replyAt
          && (h.req in s.stops && h.code.ConfigError? ==> Gone(s, h.req)))
    && (Busy(h.pc) ==> h.req in s.stops && s.stops[h.req] == h.id && h.req !in s.replyAt && h.id in s.lives)
    && (Closing(h.pc) ==> h.id in s.lives)
  }

  /** Every stop request has at most one frame, its reply, at the place recorded. */
  ghost predicate RepliesOk(s: Server) {
    && s.replyAt.Keys <= s.stops.Keys
    && (forall r :: r in s.replyAt ==>
          && s.replyAt[r] < |s.out| && s.out[s.replyAt[r]].req == r
          && (s.out[s.replyAt[r]].body.StopResponse? || s.out[s.replyAt[r]].body.Error?))
  }

  /** Which requests a frame can belong to. */
  ghost predicate FrameKind(s: Server, f: Frame, k: nat) {
    && (f.req in s.starts || f.req in s.stops)
    && (f.req in s.stops ==> f.req in s.replyAt && s.replyAt[f.req] == k)
    && (f.body.StopResponse? ==> f.req in s.stops)
    && !f.body.OtherBody?
  }

  /** What the frame `f` at position `k` says about the tasks. */
  ghost predicate FrameLife(s: Server, f: Frame, k: nat) {
    match f.body
    case StartResponse(i) => i in s.lives && s.lives[i].owner == f.req && s.lives[i].startAt == Place(k)
    case StopResponse =>
      f.req in s.stops && s.stops[f.req] in s.lives && s.lives[s.stops[f.req]].stopAt == Place(k)
    case Error(c) =>
      f.req in s.stops && c.ConfigError? ==>
        || f.req in s.strangers
        || (s.stops[f.req] in s.lives && s.lives[s.stops[f.req]].stopAt.Place?
            && s.lives[s.stops[f.req]].stopAt.k < k)
    case Event(i, c) => i in s.lives && EventAt(s.lives[i], f.req, c, k)
    case SetOutput(_, _) => f.req in s.spawned && s.spawned[f.req] in s.lives && Within(s.lives[s.spawned[f.req]], k)
    case MetricFlush(_) =>
      && f.req in s.spawned && s.spawned[f.req] in s.lives
      && Within(s.lives[s.spawned[f.req]], k)
      && s.lives[s.spawned[f.req]].flushAt == Place(k)
    case _ => true
  }

  ghost predicate EventAt(l: Life, req: ReqId, cause: Outcome, k: nat) {
    l.owner == req && l.eventAt == Place(k) && l.announced == [cause] && l.startAt.Place? && l.startAt.k < k
  }

  /** After the StartResponse, and before the StopResponse once there is one. */
  ghost predicate Within(l: Life, k: nat) {
    l.startAt.Place? && l.startAt.k < k && (l.stopAt.Place? ==> k < l.stopAt.k)
  }

  /** Recorded places point at the frames they name. */
  ghost predicate PlaceOk(l: Life, id: TaskId, out: seq<Frame>, stops: map<ReqId, TaskId>, broken: bool) {
    && (l.startAt.Place? ==> l.startAt.k < |out| && out[l.startAt.k] == Frame(l.owner, StartResponse(id)))
    && (l.stopAt.Place? ==>
          && l.stopAt.k < |out| && out[l.stopAt.k].body.StopResponse?
          && out[l.stopAt.k].req in stops && stops[out[l.stopAt.k].req] == id)
    && (l.flushAt.Place? ==>
          && l.flushAt.k < |out| && out[l.flushAt.k].req == l.owner
          && out[l.flushAt.k].body.MetricFlush?)
    && (l.eventAt.Place? ==>
          && l.eventAt.k < |out| && l.announced != [] && Marshals(l.announced[0])
          && out[l.eventAt.k] == Frame(l.owner, Event(id, l.announced[0])))
    && (l.announced != [] ==> broken || !Marshals(l.announced[0]) || l.eventAt.Place?)
  }

  ghost predicate Tasks(s: Server) {
    forall id :: id in s.lives ==> TaskOk(s.lives[id], s.handler, id)
  }

  ghost predicate Places(s: Server) {
    forall id :: id in s.lives ==> PlaceOk(s.lives[id], id, s.out, s.stops, s.broken)
  }

  ghost predicate Kinds(s: Server) {
    forall k :: 0 <= k < |s.out| ==> FrameKind(s, s.out[k], k)
  }

  ghost predicate Frames(s: Server) {
    forall k :: 0 <= k < |s.out| ==> FrameLife(s, s.out[k], k)
  }

  ghost predicate Inv(s: Server) {
    Ids(s) && HandlerOk(s) && RepliesOk(s) && Kinds(s) && Tasks(s) && Places(s) && Frames(s)
  }

  lemma InitInv()
    ensures Inv(INIT)
  {
  }

  predicate Quiet(pc: Pc) {
    pc.Idle? || pc.InStart? || pc.Reply?
  }

  /** A handler that keeps its business with the task, or had none and may die, leaves the task alone. */
  lemma OtherHandler(l: Life, h: Handler, h': Handler, id: TaskId)
    requires TaskOk(l, h, id)
    requires || (Role(h, id) == Role(h', id) && (Role(h, id).Announcing? ==> h.err == h'.err))
             || (Quiet(Role(h, id)) && (Quiet(Role(h', id)) || h'.pc.Dead?))
    ensures TaskOk(l, h', id)
  {
  }

  /** The effect is one of the acts above: it respects its task and says what it writes. */
  ghost predicate Good(s: Server, id: TaskId, e: Effect) {
    && id in s.lives
    && TaskOk(e.life, e.handler, id)
    && Extends(s.lives[id], e.life, |s.out|)
    && EmitOk(s.lives[id], e.life, id, s.handler, e.frames, |s.out|, s.broken)
    && (s.handler == e.handler || (s.handler.id == id && e.handler.id == id && !s.handler.pc.Dead?))
    && (s.handler.req == e.handler.req)
  }

  lemma ApplyTasks(s: Server, id: TaskId, e: Effect)
    requires Ids(s) && Tasks(s) && Good(s, id, e)
    ensures Tasks(Apply(s, id, e))
  {
    forall i | i in s.lives
      ensures TaskOk(Apply(s, id, e).lives[i], e.handler, i)
    {
      if i != id { OtherHandler(s.lives[i], s.handler, e.handler, i); }
    }
  }

  lemma PlaceGrows(l: Life, id: TaskId, out: seq<Frame>, fs: seq<Frame>, stops: map<ReqId, TaskId>, broken: bool)
    requires PlaceOk(l, id, out, stops, broken)
    ensures PlaceOk(l, id, out + fs, stops, broken)
  {
  }

  lemma OwnPlace(l: Life, l': Life, id: TaskId, h: Handler, out: seq<Frame>, fs: seq<Frame>,
                 stops: map<ReqId, TaskId>, broken: bool)
    requires PlaceOk(l, id, out, stops, broken)
    requires Extends(l, l', |out|) && EmitOk(l, l', id, h, fs, |out|, broken)
    requires Busy(h.pc) && h.id == id ==> h.req in stops && stops[h.req] == id
    ensures PlaceOk(l', id, out + fs, stops, broken)
  {
    assert fs != [] ==> (out + fs)[|out|] == fs[0];
  }

  lemma ApplyPlaces(s: Server, id: TaskId, e: Effect)
    requires HandlerOk(s) && Places(s) && Good(s, id, e)
    ensures Places(Apply(s, id, e))
  {
    var t := Apply(s, id, e);
    assert t.out == s.out + e.frames;
    forall i | i in s.lives
      ensures PlaceOk(t.lives[i], i, t.out, t.stops, t.broken)
    {
      if i == id {
        OwnPlace(s.lives[id], e.life, id, s.handler, s.out, e.frames, s.stops, s.broken);
      } else {
        PlaceGrows(s.lives[i], i, s.out, e.frames, s.stops, s.broken);
      }
    }
  }

  lemma KeepsFrameLife(s: Server, id: TaskId, l: Life, f: Frame, k: nat, t: Server)
    requires FrameLife(s, f, k) && id in s.lives && k < |s.out|
    requires Extends(s.lives[id], l, |s.out|)
    requires t.lives == s.lives[id := l] && t.stops == s.stops && t.spawned == s.spawned && t.strangers == s.strangers
    ensures FrameLife(t, f, k)
  {
  }

  lemma NewFrameLife(s: Server, id: TaskId, e: Effect, f: Frame)
    requires Ids(s) && HandlerOk(s) && Good(s, id, e) && e.frames == [f]
    requires PlaceOk(s.lives[id], id, s.out, s.stops, s.broken)
    ensures FrameLife(Apply(s, id, e), f, |s.out|)
  {
  }

  lemma ApplyFrames(s: Server, id: TaskId, e: Effect)
    requires Ids(s) && HandlerOk(s) && Frames(s) && Good(s, id, e)
    requires PlaceOk(s.lives[id], id, s.out, s.stops, s.broken)
    ensures Frames(Apply(s, id, e))
  {
    var t := Apply(s, id, e);
    assert t.out == s.out + e.frames;
    forall k | 0 <= k < |t.out|
      ensures FrameLife(t, t.out[k], k)
    {
      if k < |s.out| {
        KeepsFrameLife(s, id, e.life, s.out[k], k, t);
      } else {
        assert e.frames == [t.out[k]];
        NewFrameLife(s, id, e, t.out[k]);
      }
    }
  }

  /** Writing a frame keeps the reply book, as long as a reply is written once. */
  lemma WriteKinds(s: Server, s0: Server, fs: seq<Frame>)
    requires RepliesOk(s0) && Kinds(s0) && |fs| <= 1
    requires s.out == s0.out && s.replyAt == s0.replyAt && s.starts == s0.starts && s.stops == s0.stops
    requires fs != [] && fs[0].req in s.stops ==>
               fs[0].req !in s.replyAt && (fs[0].body.StopResponse? || fs[0].body.Error?)
    requires fs != [] ==>
               && (fs[0].req in s.starts || fs[0].req in s.stops)
               && (fs[0].body.StopResponse? ==> fs[0].req in s.stops) && !fs[0].body.OtherBody?
    ensures RepliesOk(Write(s, fs)) && Kinds(Write(s, fs))
  {
    var t := Write(s, fs);
    assert t.out == s.out + fs;
    assert forall k :: 0 <= k < |s.out| ==> t.out[k] == s.out[k];
    forall k | 0 <= k < |t.out|
      ensures FrameKind(t, t.out[k], k)
    {
      if k < |s.out| { assert FrameKind(s0, s0.out[k], k); }
    }
  }

  lemma ApplyKinds(s: Server, id: TaskId, e: Effect)
    requires Ids(s) && HandlerOk(s) && RepliesOk(s) && Kinds(s) && Good(s, id, e)
    ensures RepliesOk(Apply(s, id, e)) && Kinds(Apply(s, id, e))
  {
    WriteKinds(s.(lives := s.lives[id := e.life], handler := e.handler), s, e.frames);
  }

  lemma ApplyIds(s: Server, id: TaskId, e: Effect)
    requires Ids(s) && Good(s, id, e)
    ensures Ids(Apply(s, id, e))
  {
  }

  /** An effect whose handler is again in order keeps the server in order. */
  lemma ApplyKeeps(s: Server, id: TaskId, e: Effect)
    requires Inv(s) && Good(s, id, e)
    requires HandlerOk(Apply(s, id, e))
    ensures Inv(Apply(s, id, e))
  {
    ApplyIds(s, id, e);
    ApplyKinds(s, id, e);
    ApplyTasks(s, id, e);
    ApplyPlaces(s, id, e);
    ApplyFrames(s, id, e);
  }

  lemma StopKeeps(s: Server, a: StopStep)
    requires Inv(s)
    ensures Inv(Next(s, Stop(a)))
  {
    hide StopAct, Good, Apply, Ids, HandlerOk, RepliesOk, Kinds, Tasks, Places, Frames;
    var h := s.handler;
    if h.id in s.lives {
      StopGood(s, a);
      ApplyKeeps(s, h.id, StopAct(s.lives[h.id], h, |s.out|, s.broken, a));
    }
  }

  lemma StopGood(s: Server, a: StopStep)
    requires Ids(s) && HandlerOk(s) && Tasks(s) && s.handler.id in s.lives
    ensures var e := StopAct(s.lives[s.handler.id], s.handler, |s.out|, s.broken, a);
            Good(s, s.handler.id, e) && HandlerOk(Apply(s, s.handler.id, e))
  {
    hide TaskOk, Extends, EmitOk, HandlerOk;
    StopActTask(s.lives[s.handler.id], s.handler, |s.out|, s.broken, a);
    StopActEmits(s.lives[s.handler.id], s.handler, |s.out|, s.broken, a);
    StopHandler(s, a);
  }

  lemma StopHandler(s: Server, a: StopStep)
    requires Ids(s) && HandlerOk(s) && s.handler.id in s.lives
    ensures HandlerOk(Apply(s, s.handler.id, StopAct(s.lives[s.handler.id], s.handler, |s.out|, s.broken, a)))
  {
    hide StopAct, HandlerOk, Apply;
    StopActHandler(s.lives[s.handler.id], s.handler, |s.out|, s.broken, a);
    AdvancedHandler(s, StopAct(s.lives[s.handler.id], s.handler, |s.out|, s.broken, a));
  }

  /** The handler moves on inside the stop handler, out of it, or not at all. */
  ghost predicate Advances(l: Life, h: Handler, e: Effect) {
    && e.life.owner == l.owner && (l.stopAt.Place? ==> e.life.stopAt.Place?)
    && e.handler.id == h.id && e.handler.req == h.req
    && (|| e.handler == h
        || (Busy(h.pc)
            && (|| Busy(e.handler.pc) || Closing(e.handler.pc) || e.handler.pc.Dead?
                || (e.handler.pc.Reply? && !e.handler.code.ConfigError?)))
        || (Closing(h.pc) && (Closing(e.handler.pc) || e.handler.pc.Idle?)))
    && (e.frames != [] ==>
          e.frames[0].req == l.owner || (e.frames[0].req == h.req && Busy(h.pc) && Closing(e.handler.pc)))
  }

  lemma StopActHandler(l: Life, h: Handler, n: nat, broken: bool, a: StopStep)
    ensures Advances(l, h, StopAct(l, h, n, broken, a))
  {
  }

  lemma CloseActHandler(l: Life, h: Handler, n: nat, broken: bool, a: CloseStep)
    ensures Advances(l, h, CloseAct(l, h, n, broken, a))
  {
  }

  lemma AdvancedHandler(s: Server, e: Effect)
    requires Ids(s) && HandlerOk(s) && s.handler.id in s.lives && Advances(s.lives[s.handler.id], s.handler, e)
    ensures HandlerOk(Apply(s, s.handler.id, e))
  {
  }

  lemma CloseKeeps(s: Server, a: CloseStep)
    requires Inv(s)
    ensures Inv(Next(s, Close(a)))
  {
    hide CloseAct, Good, Apply, Ids, HandlerOk, RepliesOk, Kinds, Tasks, Places, Frames;
    var h := s.handler;
    if h.id in s.lives {
      CloseGood(s, a);
      ApplyKeeps(s, h.id, CloseAct(s.lives[h.id], h, |s.out|, s.broken, a));
    }
  }

  lemma CloseGood(s: Server, a: CloseStep)
    requires Ids(s) && HandlerOk(s) && Tasks(s) && s.handler.id in s.lives
    ensures var e := CloseAct(s.lives[s.handler.id], s.handler, |s.out|, s.broken, a);
            Good(s, s.handler.id, e) && HandlerOk(Apply(s, s.handler.id, e))
  {
    hide TaskOk, Extends, EmitOk, HandlerOk;
    CloseActTask(s.lives[s.handler.id], s.handler, |s.out|, s.broken, a);
    CloseActEmits(s.lives[s.handler.id], s.handler, |s.out|, s.broken, a);
    CloseHandler(s, a);
  }

  lemma CloseHandler(s: Server, a: CloseStep)
    requires Ids(s) && HandlerOk(s) && s.handler.id in s.lives
    ensures HandlerOk(Apply(s, s.handler.id, CloseAct(s.lives[s.handler.id], s.handler, |s.out|, s.broken, a)))
  {
    hide CloseAct, HandlerOk, Apply;
    CloseActHandler(s.lives[s.handler.id], s.handler, |s.out|, s.broken, a);
    AdvancedHandler(s, CloseAct(s.lives[s.handler.id], s.handler, |s.out|, s.broken, a));
  }

  /** An effect that leaves the handler alone and writes under the task's own start request. */
  lemma BesideHandler(s: Server, id: TaskId, l: Life, fs: seq<Frame>)
    requires Ids(s) && HandlerOk(s) && id in s.lives
    requires Extends(s.lives[id], l, |s.out|)
    requires fs != [] ==> fs[0].req == s.lives[id].owner
    ensures HandlerOk(Apply(s, id, Effect(l, s.handler, fs)))
  {
  }

  lemma MonitorKeeps(s: Server, id: TaskId, a: MonitorStep)
    requires Inv(s)
    ensures Inv(Next(s, Monitoring(id, a)))
  {
    hide MonitorAct, Good, Apply, Ids, HandlerOk, RepliesOk, Kinds, Tasks, Places, Frames;
    if id in s.lives {
      var (l', fs) := MonitorAct(s.lives[id], id, |s.out|, s.broken, a);
      MonitorGood(s, id, a);
      ApplyKeeps(s, id, Effect(l', s.handler, fs));
    }
  }

  lemma MonitorGood(s: Server, id: TaskId, a: MonitorStep)
    requires Ids(s) && HandlerOk(s) && Tasks(s) && id in s.lives
    ensures var (l', fs) := MonitorAct(s.lives[id], id, |s.out|, s.broken, a);
            Good(s, id, Effect(l', s.handler, fs)) && HandlerOk(Apply(s, id, Effect(l', s.handler, fs)))
  {
    var (l', fs) := MonitorAct(s.lives[id], id, |s.out|, s.broken, a);
    MonitorActTask(s.lives[id], s.handler, id, |s.out|, s.broken, a);
    MonitorActEmits(s.lives[id], s.handler, id, |s.out|, s.broken, a);
    BesideHandler(s, id, l', fs);
  }

  lemma DoneKeeps(s: Server, id: TaskId, a: DoneStep)
    requires Inv(s)
    ensures Inv(Next(s, Done(id, a)))
  {
    hide DoneAct, Good, Apply, Ids, HandlerOk, RepliesOk, Kinds, Tasks, Places, Frames;
    if id in s.lives {
      DoneGood(s, id, a);
      ApplyKeeps(s, id, Effect(DoneAct(s.lives[id], a), s.handler, []));
    }
  }

  lemma DoneGood(s: Server, id: TaskId, a: DoneStep)
    requires Ids(s) && HandlerOk(s) && Tasks(s) && id in s.lives
    ensures var e := Effect(DoneAct(s.lives[id], a), s.handler, []);
            Good(s, id, e) && HandlerOk(Apply(s, id, e))
  {
    DoneActOk(s.lives[id], s.handler, id, a, |s.out|, s.broken);
    hide DoneAct, TaskOk, Extends, EmitOk, HandlerOk, Apply;
    BesideHandler(s, id, DoneAct(s.lives[id], a), []);
  }

  lemma DoneActOk(l: Life, h: Handler, id: TaskId, a: DoneStep, n: nat, broken: bool)
    requires TaskOk(l, h, id)
    ensures var l' := DoneAct(l, a); TaskOk(l', h, id) && Extends(l, l', n) && EmitOk(l, l', id, h, [], n, broken)
  {
    hide TaskOk, Extends, EmitOk;
    ChanApart(l, DoneAct(l, a).chan, h, id, n, broken);
  }

  /** Nothing but the receivers looks into the channel. */
  lemma ChanApart(l: Life, chan: Chan, h: Handler, id: TaskId, n: nat, broken: bool)
    requires TaskOk(l, h, id)
    ensures var l' := l.(chan := chan); TaskOk(l', h, id) && Extends(l, l', n) && EmitOk(l, l', id, h, [], n, broken)
  {
  }

  /** Only the handler changes, and no task notices. */
  lemma HandlerMoves(s: Server, h: Handler)
    requires Inv(s) && HandlerOk(s.(handler := h))
    requires forall id :: id in s.lives ==> Quiet(Role(s.handler, id)) && (Quiet(Role(h, id)) || h.pc.Dead?)
    ensures Inv(s.(handler := h))
  {
    var t := s.(handler := h);
    SameTables(s, t);
    hide Ids, HandlerOk, RepliesOk, Kinds, Places, Frames, TaskOk, Role;
    forall id | id in t.lives
      ensures TaskOk(t.lives[id], h, id)
    {
      OtherHandler(s.lives[id], s.handler, h, id);
    }
    QuietStep(s, t);
  }

  lemma SameTables(s: Server, t: Server)
    requires Ids(s) && Places(s) && t == s.(handler := t.handler)
    ensures Ids(t) && Places(t) && Grown(s, t)
  {
  }

  /** `t` writes nothing and takes nothing back. */
  ghost predicate Grown(s: Server, t: Server) {
    && t.out == s.out && t.replyAt == s.replyAt
    && s.starts <= t.starts && t.starts !! t.stops.Keys && s.strangers <= t.strangers
    && (forall r :: r in s.stops ==> r in t.stops && t.stops[r] == s.stops[r])
    && (forall r :: r in s.spawned ==> r in t.spawned && t.spawned[r] == s.spawned[r])
    && (forall id :: id in s.lives ==> id in t.lives && SamePlaces(s.lives[id], t.lives[id]))
  }

  ghost predicate SamePlaces(l: Life, l': Life) {
    && l'.owner == l.owner && l'.startAt == l.startAt && l'.eventAt == l.eventAt
    && l'.flushAt == l.flushAt && l'.stopAt == l.stopAt && l'.announced == l.announced
  }

  lemma FrameSurvives(s: Server, t: Server, f: Frame, k: nat)
    requires Grown(s, t) && RepliesOk(s) && FrameKind(s, f, k) && FrameLife(s, f, k)
    ensures FrameKind(t, f, k) && FrameLife(t, f, k)
  {
  }

  lemma FramesSurvive(s: Server, t: Server)
    requires Grown(s, t) && RepliesOk(s) && Kinds(s) && Frames(s)
    ensures Kinds(t) && Frames(t)
  {
    forall k | 0 <= k < |t.out|
      ensures FrameKind(t, t.out[k], k) && FrameLife(t, t.out[k], k)
    {
      FrameSurvives(s, t, s.out[k], k);
    }
  }

  /** Enough for a quiet step: the new tables fit, the tasks and places are in order. */
  lemma QuietStep(s: Server, t: Server)
    requires Inv(s) && Grown(s, t)
    requires Ids(t) && HandlerOk(t) && Tasks(t) && Places(t)
    ensures Inv(t)
  {
    hide Ids, HandlerOk, Tasks, Places;
    FramesSurvive(s, t);
  }

  lemma ReadStartTables(s: Server, req: ReqId)
    requires Ids(s) && RepliesOk(s) && Places(s)
    ensures var t := ReadRequest(s, StartRequest(req)); t != s ==> Ids(t) && HandlerOk(t) && Places(t) && Grown(s, t)
  {
  }

  lemma ReadStartKeeps(s: Server, req: ReqId)
    requires Inv(s)
    ensures Inv(ReadRequest(s, StartRequest(req)))
  {
    var t := ReadRequest(s, StartRequest(req));
    if t != s {
      ReadStartTables(s, req);
      hide Ids, HandlerOk, RepliesOk, Kinds, Places, Frames, TaskOk;
      forall id | id in t.lives
        ensures TaskOk(t.lives[id], t.handler, id)
      {
        OtherHandler(s.lives[id], s.handler, t.handler, id);
      }
      QuietStep(s, t);
    }
  }

  lemma MarkStoppingOk(l: Life, h: Handler, req: ReqId, id: TaskId)
    requires TaskOk(l, h, id) && h.pc.Idle? && l.listed
    ensures TaskOk(l.(record := MarkStopping(l.record, true)), Handler(InStop, req, id, OtherError, Clean), id)
  {
  }

  lemma ReadStopTasks(s: Server, req: ReqId, id: TaskId)
    requires Ids(s) && Tasks(s)
    ensures Tasks(ReadRequest(s, StopRequest(req, id)))
  {
    var t := ReadRequest(s, StopRequest(req, id));
    if t != s {
      forall i | i in t.lives
        ensures TaskOk(t.lives[i], t.handler, i)
      {
        if i == id && s.lives[id].listed {
          MarkStoppingOk(s.lives[id], s.handler, req, id);
        } else {
          OtherHandler(s.lives[i], s.handler, t.handler, i);
        }
      }
    }
  }

  lemma PlaceSurvives(l: Life, l': Life, id: TaskId, out: seq<Frame>, stops: map<ReqId, TaskId>,
                      stops': map<ReqId, TaskId>, broken: bool)
    requires PlaceOk(l, id, out, stops, broken) && SamePlaces(l, l')
    requires forall r :: r in stops ==> r in stops' && stops'[r] == stops[r]
    ensures PlaceOk(l', id, out, stops', broken)
  {
  }

  lemma ReadStopPlaces(s: Server, req: ReqId, id: TaskId)
    requires Ids(s) && Places(s)
    ensures Places(ReadRequest(s, StopRequest(req, id)))
  {
    hide PlaceOk, SamePlaces, MarkStopping;
    var t := ReadRequest(s, StopRequest(req, id));
    if t != s {
      forall i | i in t.lives
        ensures PlaceOk(t.lives[i], i, t.out, t.stops, t.broken)
      {
        ReadStopLife(s, req, id, i);
        PlaceSurvives(s.lives[i], t.lives[i], i, s.out, s.stops, t.stops, s.broken);
      }
    }
  }

  lemma ReadStopIds(s: Server, req: ReqId, id: TaskId)
    requires Ids(s)
    ensures Ids(ReadRequest(s, StopRequest(req, id)))
  {
  }

  lemma ReadStopHandler(s: Server, req: ReqId, id: TaskId)
    requires HandlerOk(s) && RepliesOk(s)
    requires id in s.lives ==> TaskOk(s.lives[id], s.handler, id)
    ensures HandlerOk(ReadRequest(s, StopRequest(req, id)))
  {
  }

  lemma ReadStopGrows(s: Server, req: ReqId, id: TaskId)
    requires Ids(s)
    ensures var t := ReadRequest(s, StopRequest(req, id)); t == s || Grown(s, t)
  {
    var t := ReadRequest(s, StopRequest(req, id));
    ReadStopBooks(s, req, id);
    hide SamePlaces, ReadRequest, Ids;
    forall i | i in s.lives
      ensures i in t.lives && SamePlaces(s.lives[i], t.lives[i])
    {
      ReadStopLife(s, req, id, i);
    }
  }

  lemma ReadStopBooks(s: Server, req: ReqId, id: TaskId)
    requires Ids(s)
    ensures var t := ReadRequest(s, StopRequest(req, id));
            t == s || (&& t.out == s.out && t.replyAt == s.replyAt && t.starts == s.starts && t.spawned == s.spawned
                       && s.strangers <= t.strangers && req !in s.starts && req !in s.stops && t.stops == s.stops[req := id])
  {
  }

  /** Reading a stop request changes at most the stopping flag of its task. */
  lemma ReadStopLife(s: Server, req: ReqId, id: TaskId, i: TaskId)
    requires i in s.lives
    ensures var t := ReadRequest(s, StopRequest(req, id));
            i in t.lives && SamePlaces(s.lives[i], t.lives[i])
  {
  }

  lemma ReadStopTable(s: Server, req: ReqId, id: TaskId)
    requires Ids(s) && HandlerOk(s) && RepliesOk(s) && Tasks(s)
    ensures var t := ReadRequest(s, StopRequest(req, id)); Ids(t) && HandlerOk(t) && (t == s || Grown(s, t))
  {
    hide Ids, HandlerOk, RepliesOk, ReadRequest, TaskOk, Grown;
    ReadStopIds(s, req, id);
    ReadStopHandler(s, req, id);
    ReadStopGrows(s, req, id);
  }

  lemma ReadStopKeeps(s: Server, req: ReqId, id: TaskId)
    requires Inv(s)
    ensures Inv(ReadRequest(s, StopRequest(req, id)))
  {
    hide Ids, HandlerOk, RepliesOk, Kinds, Tasks, Places, Frames, ReadRequest, Grown;
    ReadStopTable(s, req, id);
    ReadStopTasks(s, req, id);
    ReadStopPlaces(s, req, id);
    if ReadRequest(s, StopRequest(req, id)) != s { QuietStep(s, ReadRequest(s, StopRequest(req, id))); }
  }

  lemma StoreTables(s: Server)
    requires Ids(s) && HandlerOk(s) && s.handler.pc.InStart?
    ensures Ids(StoreTask(s)) && HandlerOk(StoreTask(s)) && Grown(s, StoreTask(s))
  {
    StoreIds(s);
    StoreGrown(s);
    hide Ids, Grown;
  }

  lemma StoreIds(s: Server)
    requires Ids(s) && HandlerOk(s) && s.handler.pc.InStart?
    ensures Ids(StoreTask(s))
  {
  }

  lemma StoreGrown(s: Server)
    requires Ids(s) && s.handler.req !in s.spawned
    ensures Grown(s, StoreTask(s))
  {
  }

  lemma StoreTasks(s: Server)
    requires Ids(s) && Tasks(s) && s.handler.pc.InStart?
    ensures Tasks(StoreTask(s))
  {
    var t := StoreTask(s);
    forall id | id in t.lives
      ensures TaskOk(t.lives[id], t.handler, id)
    {
      if id in s.lives { OtherHandler(s.lives[id], s.handler, t.handler, id); }
    }
  }

  lemma StoreTaskKeeps(s: Server)
    requires Inv(s) && s.handler.pc.InStart?
    ensures Inv(StoreTask(s))
  {
    StoreTables(s);
    StoreTasks(s);
    QuietStep(s, StoreTask(s));
  }

  /** A frame that belongs to no task in particular. */
  lemma WriteKeeps(s: Server, f: Frame)
    requires Inv(s) && !s.broken
    requires f.req in s.stops ==> f.req !in s.replyAt && f.body.Error?
    requires f.req in s.starts || f.req in s.stops
    requires f.body.Error? || f.body.Artifact?
    requires FrameLife(Write(s, [f]), f, |s.out|) && HandlerOk(Write(s, [f]))
    ensures Inv(Write(s, [f]))
  {
    var t := Write(s, [f]);
    assert t.out == s.out + [f];
    WriteKinds(s, s, [f]);
    forall id | id in t.lives
      ensures PlaceOk(t.lives[id], id, t.out, t.stops, t.broken)
    {
      PlaceGrows(s.lives[id], id, s.out, [f], s.stops, s.broken);
    }
    forall k | 0 <= k < |t.out|
      ensures FrameLife(t, t.out[k], k)
    {
      if k < |s.out| { assert FrameLife(s, s.out[k], k); }
    }
  }

  lemma WriteErrorKeeps(s: Server)
    requires Inv(s) && s.handler.pc.Reply?
    ensures Inv(WriteError(s))
  {
    hide Inv, FrameLife;
    var h := s.handler;
    ReplyHandler(s);
    if s.broken {
      HandlerMoves(s, h.(pc := Dead));
    } else {
      HandlerMoves(s, h.(pc := Idle));
      ReplyLife(s);
      WriteKeeps(s.(handler := h.(pc := Idle)), Frame(h.req, Error(h.code)));
    }
  }

  lemma ReplyHandler(s: Server)
    requires Inv(s) && s.handler.pc.Reply?
    ensures var h := s.handler;
            && HandlerOk(s.(handler := h.(pc := Dead))) && HandlerOk(s.(handler := h.(pc := Idle)))
            && (h.req in s.starts || h.req in s.stops) && h.req !in s.replyAt
            && (forall id :: id in s.lives ==> Quiet(Role(h, id)) && Quiet(Role(h.(pc := Idle), id)))
            && HandlerOk(Write(s.(handler := h.(pc := Idle)), [Frame(h.req, Error(h.code))]))
  {
    hide Ids, RepliesOk, Kinds, Tasks, Places, Frames;
  }

  lemma ReplyLife(s: Server)
    requires Inv(s) && s.handler.pc.Reply?
    ensures var f := Frame(s.handler.req, Error(s.handler.code));
            FrameLife(Write(s.(handler := s.handler.(pc := Idle)), [f]), f, |s.out|)
  {
    var h := s.handler;
    hide Ids, RepliesOk, Kinds, Tasks, Frames;
    if h.req in s.stops && h.code.ConfigError? && h.req !in s.strangers {
      assert PlaceOk(s.lives[s.stops[h.req]], s.stops[h.req], s.out, s.stops, s.broken);
    }
  }

  lemma StartedKeeps(s: Server)
    requires Inv(s) && s.handler.pc.Started?
    ensures Inv(Next(s, Start(WriteStarted)))
  {
    hide Ids, HandlerOk, RepliesOk, Kinds, Tasks, Places, Frames, StartedAct, Good, Apply;
    StartedGood(s);
    ApplyKeeps(s, s.handler.id, StartedAct(s.lives[s.handler.id], s.handler, |s.out|, s.broken));
  }

  lemma StartedGood(s: Server)
    requires Ids(s) && HandlerOk(s) && Tasks(s) && s.handler.pc.Started?
    ensures s.handler.id in s.lives
    ensures var e := StartedAct(s.lives[s.handler.id], s.handler, |s.out|, s.broken);
            Good(s, s.handler.id, e) && HandlerOk(Apply(s, s.handler.id, e))
  {
    StartedOk(s.lives[s.handler.id], s.handler, |s.out|, s.broken);
  }

  lemma StartFailsKeeps(s: Server, code: Code)
    requires Inv(s) && s.handler.pc.InStart?
    ensures Inv(s.(handler := s.handler.(pc := Reply, code := code)))
  {
    HandlerMoves(s, s.handler.(pc := Reply, code := code));
  }

  lemma StartKeeps(s: Server, a: StartStep)
    requires Inv(s)
    ensures Inv(Next(s, Start(a)))
  {
    hide Ids, RepliesOk, Kinds, Tasks, Places, Frames, ReadRequest, StoreTask, WriteError, StartedAct, Apply;
    match a
    case Read(StartRequest(req)) => ReadStartKeeps(s, req);
    case Read(StopRequest(req, id)) => ReadStopKeeps(s, req, id);
    case Eof => if s.handler.pc.Idle? { HandlerMoves(s, s.handler.(pc := Dead)); }
    case StartFails(code) => if s.handler.pc.InStart? { StartFailsKeeps(s, code); }
    case StartSucceeds => if s.handler.pc.InStart? { StoreTaskKeeps(s); }
    case WriteStarted => if s.handler.pc.Started? { StartedKeeps(s); }
    case WriteReply => if s.handler.pc.Reply? { WriteErrorKeeps(s); }
    case ReplyFails => if s.handler.pc.Reply? { HandlerMoves(s, s.handler.(pc := Dead)); }
  }

  lemma BreakKeeps(s: Server)
    requires Inv(s)
    ensures Inv(s.(broken := true))
  {
    hide Ids, HandlerOk, RepliesOk, Kinds, Tasks, Places, Frames, Grown;
    BreakTables(s);
    QuietStep(s, s.(broken := true));
  }

  lemma BreakTables(s: Server)
    requires Ids(s) && HandlerOk(s) && Tasks(s) && Places(s)
    ensures var t := s.(broken := true); Grown(s, t) && Ids(t) && HandlerOk(t) && Tasks(t) && Places(t)
  {
    hide TaskOk;
  }

  lemma RefuseKeeps(s: Server, req: ReqId)
    requires Inv(s)
    ensures Inv(Refuse(s, req))
  {
    hide Kinds, Tasks, Places, Frames;
    if s.handler.pc.Idle? && req in s.starts {
      if s.broken {
        HandlerMoves(s, s.handler.(pc := Dead));
      } else {
        WriteKeeps(s, Frame(req, Error(OtherError)));
      }
    }
  }

  lemma NextKeeps(s: Server, step: Step)
    requires Inv(s)
    ensures Inv(Next(s, step))
  {
    match step
    case Start(a) => StartKeeps(s, a);
    case Stop(a) => StopKeeps(s, a);
    case Close(a) => CloseKeeps(s, a);
    case Monitoring(id, a) => MonitorKeeps(s, id, a);
    case Done(id, a) => DoneKeeps(s, id, a);
    case PluginArtifact(req, payload) =>
      if req in s.starts && !s.broken { WriteKeeps(s, Frame(req, Artifact(payload))); }
    case Unsupported(req) => RefuseKeeps(s, req);
    case Break => BreakKeeps(s);
  }

  lemma {:induction false} ExecKeeps(s: Server, steps: seq<Step>)
    requires Inv(s)
    ensures Inv(Exec(s, steps))
    decreases |steps|
  {
    if steps != [] {
      NextKeeps(s, steps[0]);
      ExecKeeps(Next(s, steps[0]), steps[1..]);
    }
  }
}
