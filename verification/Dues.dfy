/**
  What the plugin server writes, told from what its plugin and its pipe do: the
  outcome of each start and stop decides the reply, and every output, flush and
  artifact is written with its payload. Terminal events are the matter of Receipts.
 */
module Dues {
  import opened Outcomes
  import opened Wire
  import opened ServerTasks
  import opened ServerMachine

  /** What the plugin's answers so far make of the request being served: the error code due, and whether the stop failed. */
  datatype Verdict = Verdict(code: Code, trouble: bool)

  predicate Accepted(s: Server, r: Request) {
    s.handler.pc.Idle? && r.req !in s.starts && r.req !in s.stops
  }

  /** A stop request is for a task that is still in the table. */
  predicate Known(s: Server, r: Request) {
    r.StopRequest? && r.task in s.lives && s.lives[r.task].listed
  }

  /** Stop itself, collecting outputs or collecting metrics fails. */
  predicate Troubles(pc: Pc, a: StopStep) {
    (a.StopFails? && pc.InStop?) || (a.OutputFails? && pc.Outputs?) || (a.FlushFails? && pc.Flushing?)
  }

  function Judge(s: Server, step: Step, v: Verdict): Verdict {
    match step
    case Start(Read(r)) =>
      if Accepted(s, r) then Verdict(if r.StopRequest? && !Known(s, r) then ConfigError else OtherError, false) else v
    case Start(StartFails(code)) => if s.handler.pc.InStart? then Verdict(code, false) else v
    case Stop(a) => if Troubles(s.handler.pc, a) then Verdict(RunError, true) else v
    case _ => v
  }

  /** The frames a step must write, events aside. A stop is confirmed only if nothing about it failed. */
  function Due(s: Server, step: Step, v: Verdict): seq<Frame> {
    var h := s.handler;
    if s.broken then []
    else
      match step
      case Start(WriteStarted) => if h.pc.Started? then [Frame(h.req, StartResponse(h.id))] else []
      case Start(WriteReply) => if h.pc.Reply? then [Frame(h.req, Error(v.code))] else []
      case Stop(WriteOutput(name, value)) =>
        if h.pc.Outputs? && h.id in s.lives then [Frame(s.lives[h.id].owner, SetOutput(name, value))] else []
      case Stop(WriteFlush(snapshots)) =>
        if h.pc.Flushing? && h.id in s.lives then [Frame(s.lives[h.id].owner, MetricFlush(snapshots))] else []
      case Stop(Confirm) => if h.pc.Confirming? && !v.trouble then [Frame(h.req, StopResponse)] else []
      case PluginArtifact(req, payload) => if req in s.starts then [Frame(req, Artifact(payload))] else []
      case Unsupported(req) => if h.pc.Idle? && req in s.starts then [Frame(req, Error(OtherError))] else []
      case _ => []
  }

  function DueIn(s: Server, steps: seq<Step>, v: Verdict): seq<Frame>
    decreases |steps|
  {
    if steps == [] then [] else Due(s, steps[0], v) + DueIn(Next(s, steps[0]), steps[1..], Judge(s, steps[0], v))
  }

  function WithoutEvents(frames: seq<Frame>): seq<Frame> {
    if frames == [] then []
    else
      var n := |frames| - 1;
      WithoutEvents(frames[..n]) + (if frames[n].body.Event? then [] else [frames[n]])
  }

  /** The handler replies what is due, and confirms no stop that failed. */
  ghost predicate Judged(s: Server, v: Verdict) {
    && (s.handler.pc.Reply? ==> s.broken || s.handler.code == v.code)
    && (s.handler.pc.Aborting? ==> s.broken || v == Verdict(RunError, true))
    && (s.handler.pc.InStop? || s.handler.pc.Outputs? || s.handler.pc.Flushing? || s.handler.pc.Confirming? ==> !v.trouble)
  }

  lemma StepJudged(s: Server, step: Step, v: Verdict)
    requires Judged(s, v) && HandlerOk(s)
    ensures Judged(Next(s, step), Judge(s, step, v))
  {
    hide Judged, Judge;
    match step {
      case Start(a) => StartJudged(s, a, v);
      case Stop(a) => if s.handler.id in s.lives { StopJudged(s, a, v); } else { NoneJudged(s, step, v); }
      case Close(a) => if s.handler.id in s.lives { CloseJudged(s, a, v); } else { NoneJudged(s, step, v); }
      case Monitoring(id, a) => OthersJudged(s, step, v);
      case Done(id, a) => OthersJudged(s, step, v);
      case PluginArtifact(_, _) => OthersJudged(s, step, v);
      case Unsupported(_) => OthersJudged(s, step, v);
      case Break => OthersJudged(s, step, v);
    }
  }

  /** A handler with no listed task stops none. */
  lemma NoneJudged(s: Server, step: Step, v: Verdict)
    requires Judged(s, v) && HandlerOk(s) && (step.Stop? || step.Close?) && s.handler.id !in s.lives
    ensures Judged(Next(s, step), Judge(s, step, v))
  {
  }

  lemma StartJudged(s: Server, a: StartStep, v: Verdict)
    requires Judged(s, v)
    ensures Judged(Next(s, Start(a)), Judge(s, Start(a), v))
  {
    hide MarkStopping, NewLife;
  }

  lemma StopJudged(s: Server, a: StopStep, v: Verdict)
    requires Judged(s, v) && s.handler.id in s.lives
    ensures Judged(Next(s, Stop(a)), Judge(s, Stop(a), v))
  {
    hide MarkStopping;
  }

  lemma CloseJudged(s: Server, a: CloseStep, v: Verdict)
    requires Judged(s, v) && s.handler.id in s.lives
    ensures Judged(Next(s, Close(a)), Judge(s, Close(a), v))
  {
    hide WriteEvent, Observed, Take, ClaimRecord, HaltRecord, Emits;
  }

  lemma OthersJudged(s: Server, step: Step, v: Verdict)
    requires Judged(s, v) && !step.Start? && !step.Stop? && !step.Close?
    ensures Judged(Next(s, step), Judge(s, step, v))
  {
    hide MonitorAct, DoneAct;
  }

  // ------------------------------------------------------------------ one step

  lemma NoEventsMore(frames: seq<Frame>, f: Frame)
    ensures WithoutEvents(frames + [f]) == WithoutEvents(frames) + (if f.body.Event? then [] else [f])
  {
    assert (frames + [f])[..|frames|] == frames;
  }

  /** What a write adds to the frames that are no events. */
  lemma WriteAdds(s: Server, s0: Server, frames: seq<Frame>, due: seq<Frame>)
    requires s.out == s0.out && (frames == [] ==> due == [])
    requires frames != [] ==> |frames| == 1 && due == (if frames[0].body.Event? then [] else frames)
    ensures WithoutEvents(Write(s, frames).out) == WithoutEvents(s0.out) + due
  {
    hide WithoutEvents;
    if frames == [] {
      assert WithoutEvents(s0.out) + [] == WithoutEvents(s0.out);
    } else {
      NoEventsMore(s0.out, frames[0]);
      assert frames == [frames[0]];
    }
  }

  lemma StartDue(s: Server, a: StartStep, v: Verdict)
    requires Judged(s, v) && HandlerOk(s)
    ensures WithoutEvents(Next(s, Start(a)).out) == WithoutEvents(s.out) + Due(s, Start(a), v)
  {
    hide MarkStopping, NewLife, Gone, Known, WithoutEvents;
    var h := s.handler;
    var none: seq<Frame> := [];
    assert WithoutEvents(s.out) + none == WithoutEvents(s.out);
    match a {
      case WriteStarted =>
        if h.pc.Started? {
          var e := StartedAct(s.lives[h.id], h, |s.out|, s.broken);
          WriteAdds(s.(lives := s.lives[h.id := e.life], handler := e.handler), s, e.frames, Due(s, Start(a), v));
        }
      case WriteReply =>
        if h.pc.Reply? && !s.broken {
          WriteAdds(s.(handler := h.(pc := Idle)), s, [Frame(h.req, Error(h.code))], Due(s, Start(a), v));
        }
      case _ =>
    }
  }

  lemma StopDue(s: Server, a: StopStep, v: Verdict)
    requires Judged(s, v) && HandlerOk(s)
    ensures WithoutEvents(Next(s, Stop(a)).out) == WithoutEvents(s.out) + Due(s, Stop(a), v)
  {
    hide MarkStopping, Gone, WithoutEvents;
    var h := s.handler;
    if h.id in s.lives {
      var e := StopAct(s.lives[h.id], h, |s.out|, s.broken, a);
      WriteAdds(s.(lives := s.lives[h.id := e.life], handler := e.handler), s, e.frames, Due(s, Stop(a), v));
    } else {
      assert WithoutEvents(s.out) + [] == WithoutEvents(s.out);
    }
  }

  lemma CloseDue(s: Server, a: CloseStep)
    ensures WithoutEvents(Next(s, Close(a)).out) == WithoutEvents(s.out)
  {
    hide WithoutEvents, Observed, Take, Emits, Marshals;
    var h := s.handler;
    if h.id in s.lives {
      var e := CloseAct(s.lives[h.id], h, |s.out|, s.broken, a);
      WriteAdds(s.(lives := s.lives[h.id := e.life], handler := e.handler), s, e.frames, []);
      assert WithoutEvents(s.out) + [] == WithoutEvents(s.out);
    }
  }

  lemma MonitorDue(s: Server, id: TaskId, a: MonitorStep)
    ensures WithoutEvents(Next(s, Monitoring(id, a)).out) == WithoutEvents(s.out)
  {
    hide WithoutEvents, Observed, Take, Emits, Marshals;
    if id in s.lives {
      var (l, fs) := MonitorAct(s.lives[id], id, |s.out|, s.broken, a);
      WriteAdds(s.(lives := s.lives[id := l], handler := s.handler), s, fs, []);
      assert WithoutEvents(s.out) + [] == WithoutEvents(s.out);
    }
  }

  lemma StepDue(s: Server, step: Step, v: Verdict)
    requires Judged(s, v) && HandlerOk(s)
    ensures WithoutEvents(Next(s, step).out) == WithoutEvents(s.out) + Due(s, step, v)
  {
    hide Judged, HandlerOk, WithoutEvents, StartNext, StopAct, CloseAct, MonitorAct, DoneAct;
    assert WithoutEvents(s.out) + [] == WithoutEvents(s.out);
    match step {
      case Start(a) => StartDue(s, a, v);
      case Stop(a) => StopDue(s, a, v);
      case Close(a) => CloseDue(s, a);
      case Monitoring(id, a) => MonitorDue(s, id, a);
      case Done(id, a) =>
      case PluginArtifact(req, payload) =>
        if req in s.starts && !s.broken { WriteAdds(s, s, [Frame(req, Artifact(payload))], Due(s, step, v)); }
      case Unsupported(req) =>
        if s.handler.pc.Idle? && req in s.starts && !s.broken { WriteAdds(s, s, [Frame(req, Error(OtherError))], Due(s, step, v)); }
      case Break =>
    }
  }

  // ------------------------------------------------------------------- every run

  lemma {:induction false} RunDue(s: Server, steps: seq<Step>, v: Verdict)
    requires Inv(s) && Judged(s, v)
    ensures WithoutEvents(Exec(s, steps).out) == WithoutEvents(s.out) + DueIn(s, steps, v)
    decreases |steps|
  {
    hide Inv, Judged, WithoutEvents, Next, Due, Judge;
    if steps == [] {
      assert WithoutEvents(s.out) + [] == WithoutEvents(s.out);
    } else {
      NextKeeps(s, steps[0]);
      HandlerFacts(s);
      StepJudged(s, steps[0], v);
      StepDue(s, steps[0], v);
      RunDue(Next(s, steps[0]), steps[1..], Judge(s, steps[0], v));
    }
  }

  lemma HandlerFacts(s: Server)
    requires Inv(s)
    ensures HandlerOk(s)
  {
  }

  const NO_VERDICT := Verdict(OtherError, false)

  /**
    In every run, the frames written, events aside, are those due, in order: every
    output, flush and artifact with its payload, and for each request the reply its
    outcome calls for.
   */
  lemma WritesWhatIsDue(steps: seq<Step>)
    ensures WithoutEvents(Exec(INIT, steps).out) == DueIn(INIT, steps, NO_VERDICT)
  {
    InitInv();
    RunDue(INIT, steps, NO_VERDICT);
    hide DueIn, Exec, Inv;
    assert [] + DueIn(INIT, steps, NO_VERDICT) == DueIn(INIT, steps, NO_VERDICT);
  }
}
