/**
  Engine.Run of benchkit/kernel/kernel.go: validating, planning and running the
  units of a graph in order, with background tasks, their monitors, shutdown and
  output cleanup on every way out.

  The variables Run shares with its closures and goroutines are one record, the
  State. The environment is a tape of choices: whenever Run waits for a unit, for
  a task or for the clock, the next choice says what the monitors and the units
  did meanwhile and how the wait ended. Every tape is a run, and every run is one.
 */
module Engine {
  import opened Outcomes
  import opened Ordering

  datatype Status = Completed | ConfigFailed | PlanFailed | WorkerFailed

  /** The errors joined into the one that Run returns. */
  datatype Cause =
    | Validating(unit: string, text: string)
    | Planning(unit: string, text: string)
    | Starting(unit: string, text: string)
    | Running(unit: string, text: string)
    | Background(unit: string, text: string)
    | Overdue(unit: string)
    | Stopping(unit: string, text: string)

  /** `cleanup` lists the ports whose Close failed. */
  datatype UnitResult = UnitResult(status: Status, errors: seq<string>, cleanup: seq<string>)

  /** A monitor waits at Done, holds the error it took, or is gone; a task without Done has none. */
  datatype Monitor = Unmonitored | Waiting | Holding(text: string) | Gone

  datatype Failure = Failure(unit: string, text: string)

  datatype Event =
    | Validated(unit: string) | Planned(unit: string) | Entered(unit: string)
    | Started(unit: string) | Ran(unit: string)
    | Stopped(unit: string) | Closed(unit: string, port: string)

  /** What may happen while Run waits. */
  datatype Act = Takes(unit: string, outcome: Outcome) | Sends(unit: string) | Sets(unit: string, port: string, closeable: bool)

  datatype Choice = Choice(acts: seq<Act>, outcome: Outcome, context: Outcome, late: bool, monitored: bool)

  /** What Run waits for: a call to a unit, a task or an output, or a task's monitor. */
  datatype Query =
    | ToValidate(unit: string) | ToPlan(unit: string) | ToEnter(unit: string)
    | ToStop(unit: string) | ToJoin(unit: string) | ToClose(unit: string, port: string)

  /** The choice that answered a wait, and the failures in the error channel after it. */
  datatype Answer = Answer(query: Query, choice: Choice, pending: seq<Failure>)

  /**
    `queue` is the error channel with room for `room` failures; `sent` and `taken`
    record everything monitors ever sent and took. `outputs` says of each port a
    unit has set whether its value is closeable. `asked` records every wait and
    its answer: the choices of the tape, one by one.
   */
  datatype State = State(
    active: seq<string>,
    monitors: map<string, Monitor>,
    queue: seq<Failure>,
    room: nat,
    sent: seq<Failure>,
    taken: set<Failure>,
    fatal: map<string, string>,
    results: map<string, UnitResult>,
    outputs: map<string, map<string, bool>>,
    log: seq<Event>,
    tape: seq<Choice>,
    asked: seq<Answer>)

  // --------------------------------------------------------------- environment

  function TakeDone(s: State, u: string, outcome: Outcome): State {
    if u !in s.monitors || !s.monitors[u].Waiting? then s
    else
      match outcome
      case Clean => s.(monitors := s.monitors[u := Gone])
      case Failed(text) => s.(monitors := s.monitors[u := Holding(text)], taken := s.taken + {Failure(u, text)})
  }

  /** A send waits while the channel is full. */
  function SendError(s: State, u: string): State {
    if u !in s.monitors || !s.monitors[u].Holding? || |s.queue| >= s.room then s
    else
      var f := Failure(u, s.monitors[u].text);
      s.(monitors := s.monitors[u := Gone], queue := s.queue + [f], sent := s.sent + [f])
  }

  /** Outputs are set by the unit at work and by background tasks. */
  function SetOutput(s: State, current: set<string>, unit: string, port: string, closeable: bool): State {
    if unit !in current && unit !in s.active then s
    else
      var ports := if unit in s.outputs then s.outputs[unit] else map[];
      s.(outputs := s.outputs[unit := ports[port := closeable]])
  }

  function Apply(s: State, current: set<string>, act: Act): State {
    match act
    case Takes(u, outcome) => TakeDone(s, u, outcome)
    case Sends(u) => SendError(s, u)
    case Sets(unit, port, closeable) => SetOutput(s, current, unit, port, closeable)
  }

  function Disturb(s: State, current: set<string>, acts: seq<Act>): State
    decreases |acts|
  {
    if acts == [] then s else Disturb(Apply(s, current, acts[0]), current, acts[1..])
  }

  /** A tape that has run out goes on with nothing happening and everything going well. */
  function ChoiceAt(tape: seq<Choice>, i: nat): Choice {
    if i < |tape| then tape[i] else Choice([], Clean, Clean, false, true)
  }

  function NextChoice(s: State): Choice {
    ChoiceAt(s.tape, |s.asked|)
  }

  function CallOf(query: Query): seq<Event> {
    match query
    case ToValidate(u) => [Validated(u)]
    case ToPlan(u) => [Planned(u)]
    case ToEnter(u) => [Entered(u)]
    case ToStop(u) => [Stopped(u)]
    case ToJoin(u) => []
    case ToClose(u, port) => [Closed(u, port)]
  }

  /**
    What happens during a wait. A monitor that is waited for takes what it can
    still take and sends what it holds; closing an output disturbs nothing.
   */
  function Deeds(query: Query, choice: Choice): seq<Act> {
    match query
    case ToClose(_, _) => []
    case ToJoin(u) => choice.acts + [Takes(u, choice.outcome), Sends(u)]
    case _ => choice.acts
  }

  /** The unit at work. */
  function Current(query: Query): set<string> {
    if query.ToEnter? then {query.unit} else {}
  }

  function Called(s: State, query: Query): State {
    s.(log := s.log + CallOf(query))
  }

  function Answered(s: State, query: Query, choice: Choice): State {
    s.(asked := s.asked + [Answer(query, choice, s.queue)])
  }

  /** Make the call and wait for the answer. */
  function Ask(s: State, query: Query): State {
    var choice := NextChoice(s);
    Answered(Disturb(Called(s, query), Current(query), Deeds(query, choice)), query, choice)
  }

  // ------------------------------------------------------------ what stays true

  /** The failures Run has received from the channel. */
  function Drained(s: State): seq<Failure>
    requires |s.queue| <= |s.sent|
  {
    s.sent[..|s.sent| - |s.queue|]
  }

  /** Every monitor sends at most once, and what it took is sent or still in its hands. */
  ghost predicate SentOk(s: State) {
    && (forall k :: 0 <= k < |s.sent| ==> s.sent[k].unit in s.monitors && s.monitors[s.sent[k].unit].Gone?)
    && (forall j, k :: 0 <= j < k < |s.sent| ==> s.sent[j].unit != s.sent[k].unit)
    && (forall f :: f in s.taken <==> f in s.sent || (f.unit in s.monitors && s.monitors[f.unit] == Holding(f.text)))
  }

  /** The channel holds the last failures sent; those received before are on record. */
  ghost predicate QueueOk(s: State) {
    && |s.queue| <= |s.sent| && s.queue == s.sent[|s.sent| - |s.queue|..]
    && (forall f :: f in Drained(s) ==> f.unit in s.fatal)
  }

  ghost predicate Balanced(s: State) {
    && Distinct(s.active) && |s.active| <= s.room
    && (forall u :: u in s.monitors <==> u in s.active)
    && SentOk(s) && QueueOk(s)
  }

  /** Nobody watches the task any more. */
  predicate Settled(s: State, u: string) {
    u in s.monitors && (s.monitors[u].Gone? || s.monitors[u].Unmonitored?)
  }

  /** What time alone cannot change. */
  ghost predicate Later(s: State, current: set<string>, t: State) {
    && t.active == s.active && t.room == s.room && t.fatal == s.fatal && t.results == s.results && t.log == s.log
    && t.tape == s.tape && t.monitors.Keys == s.monitors.Keys
    && (forall u :: Settled(s, u) ==> t.monitors[u] == s.monitors[u])
    && |s.queue| <= |s.sent| && |t.queue| <= |t.sent| && Drained(t) == Drained(s) && s.sent <= t.sent
    && (forall k :: |s.sent| <= k < |t.sent| ==> !Settled(s, t.sent[k].unit))
    && (forall u :: u in t.outputs ==> u in s.outputs || u in current || u in s.active)
  }

  lemma {:induction false} FewerThan(a: seq<string>, b: seq<string>)
    requires Distinct(a) && forall x :: x in a ==> x in b
    ensures |a| <= |b|
  {
    if a != [] {
      assert a[0] in a && a[0] in b;
      var i :| 0 <= i < |b| && b[i] == a[0];
      var rest := b[..i] + b[i + 1..];
      forall x | x in a[1..]
        ensures x in rest
      {
        assert x in a && x in b;
        var j :| 0 <= j < |b| && b[j] == x;
        assert rest[if j < i then j else j - 1] == x;
      }
      FewerThan(a[1..], rest);
    }
  }

  /** A monitor with an error in hand always finds room in the channel. */
  lemma NeverBlocks(s: State, u: string)
    requires Balanced(s) && u in s.monitors && s.monitors[u].Holding?
    ensures |s.queue| < s.room
  {
    var a := seq(|s.sent|, k requires 0 <= k < |s.sent| => s.sent[k].unit) + [u];
    FewerThan(a, s.active);
  }

  lemma TakeSteady(s: State, u: string, outcome: Outcome)
    requires Balanced(s)
    ensures Balanced(TakeDone(s, u, outcome)) && forall current :: Later(s, current, TakeDone(s, u, outcome))
  {
    TakeSent(s, u, outcome);
    hide SentOk;
  }

  lemma TakeSent(s: State, u: string, outcome: Outcome)
    requires SentOk(s)
    ensures SentOk(TakeDone(s, u, outcome))
  {
  }

  lemma SendSteady(s: State, u: string)
    requires Balanced(s)
    ensures Balanced(SendError(s, u)) && forall current :: Later(s, current, SendError(s, u))
  {
    var t := SendError(s, u);
    if t != s {
      var n := |s.sent| - |s.queue|;
      assert t.sent[..n] == s.sent[..n] && t.sent[n..] == s.sent[n..] + [t.sent[|s.sent|]];
    }
  }

  lemma SetSteady(s: State, current: set<string>, unit: string, port: string, closeable: bool)
    requires Balanced(s)
    ensures Balanced(SetOutput(s, current, unit, port, closeable))
    ensures Later(s, current, SetOutput(s, current, unit, port, closeable))
  {
  }

  lemma LaterItself(s: State, current: set<string>)
    requires Balanced(s)
    ensures Later(s, current, s)
  {
  }

  lemma LaterThen(s: State, current: set<string>, t: State, u: State)
    requires Later(s, current, t) && Later(t, current, u)
    ensures Later(s, current, u)
  {
  }

  lemma {:induction false} DisturbSteady(s: State, current: set<string>, acts: seq<Act>)
    requires Balanced(s)
    ensures Balanced(Disturb(s, current, acts)) && Later(s, current, Disturb(s, current, acts))
    decreases |acts|
  {
    LaterItself(s, current);
    hide Balanced, Later, TakeDone, SendError, SetOutput;
    if acts != [] {
      var t := Apply(s, current, acts[0]);
      match acts[0] {
        case Takes(u, outcome) => TakeSteady(s, u, outcome);
        case Sends(u) => SendSteady(s, u);
        case Sets(unit, port, closeable) => SetSteady(s, current, unit, port, closeable);
      }
      DisturbSteady(t, current, acts[1..]);
      LaterThen(s, current, t, Disturb(t, current, acts[1..]));
    }
  }

  // ----------------------------------------------------- what the answers say

  /** What the answer says the tasks and units did; the end of a wait for a monitor is the last it can take. */
  function DeedsOf(a: Answer): seq<Act> {
    if a.query.ToClose? then []
    else a.choice.acts + (if a.query.ToJoin? then [Takes(a.query.unit, a.choice.outcome)] else [])
  }

  function DeedsIn(answers: seq<Answer>): seq<Act> {
    if answers == [] then []
    else DeedsIn(answers[..|answers| - 1]) + DeedsOf(answers[|answers| - 1])
  }

  /** What a monitor waiting for `u` takes: the first outcome its task comes up with. */
  function FirstTake(acts: seq<Act>, u: string): Option<Outcome>
    decreases |acts|
  {
    if acts == [] then None
    else if acts[0].Takes? && acts[0].unit == u then Some(acts[0].outcome)
    else FirstTake(acts[1..], u)
  }

  function Either<T>(a: Option<T>, b: Option<T>): Option<T> {
    if a.Some? then a else b
  }

  /** What a port was last set to. */
  function LastSet(acts: seq<Act>, u: string, port: string): Option<bool>
    decreases |acts|
  {
    if acts == [] then None
    else
      Either(LastSet(acts[1..], u, port),
             if acts[0].Sets? && acts[0].unit == u && acts[0].port == port then Some(acts[0].closeable) else None)
  }

  function PortOf(outputs: map<string, map<string, bool>>, u: string, port: string): Option<bool> {
    if u in outputs && port in outputs[u] then Some(outputs[u][port]) else None
  }

  /** The calls among the events of a log: all but the successes. */
  function CallsIn(log: seq<Event>): seq<Event> {
    if log == [] then []
    else
      var n := |log| - 1;
      CallsIn(log[..n]) + (if log[n].Started? || log[n].Ran? then [] else [log[n]])
  }

  function CallsOf(answers: seq<Answer>): seq<Event> {
    if answers == [] then []
    else CallsOf(answers[..|answers| - 1]) + CallOf(answers[|answers| - 1].query)
  }

  /** The monitor of `u`, if it has one, took this from Done, and no other error of `u` was ever taken. */
  ghost predicate Took(s: State, u: string, monitored: bool, took: Option<Outcome>) {
    && u in s.monitors
    && (!monitored ==> s.monitors[u].Unmonitored?)
    && (monitored && took.None? ==> s.monitors[u].Waiting?)
    && (monitored && took == Some(Clean) ==> s.monitors[u].Gone?)
    && (monitored && took.Some? && took.value.Failed? ==> s.monitors[u] == Holding(took.value.text) || s.monitors[u].Gone?)
    && (forall text :: Failure(u, text) in s.taken <==> monitored && took == Some(Failed(text)))
  }

  /** The answers in which the outputs of a unit may be set: while it is at work, and afterwards if it is a task. */
  function Span(s: State, p: nat): seq<Answer>
    requires p < |s.asked| && s.asked[p].query.ToEnter?
  {
    if s.asked[p].query.unit in s.active then s.asked[p..] else [s.asked[p]]
  }

  /** A unit's outputs are what it last set them to, and its monitor took the first thing it could. */
  ghost predicate UnitOk(s: State, p: nat)
    requires p < |s.asked| && s.asked[p].query.ToEnter?
  {
    var u := s.asked[p].query.unit;
    && (forall port :: PortOf(s.outputs, u, port) == LastSet(DeedsIn(Span(s, p)), u, port))
    && (u in s.active ==> Took(s, u, s.asked[p].choice.monitored, FirstTake(DeedsIn(s.asked[p + 1..]), u)))
  }

  ghost predicate Played(s: State) {
    forall i :: 0 <= i < |s.asked| ==> s.asked[i].choice == ChoiceAt(s.tape, i)
  }

  ghost predicate Once(asked: seq<Answer>) {
    forall p, q :: 0 <= p < q < |asked| && asked[p].query.ToEnter? ==> asked[q].query != asked[p].query
  }

  ghost predicate Entrances(s: State) {
    forall u :: u in s.active || u in s.outputs ==> exists p :: 0 <= p < |s.asked| && s.asked[p].query == ToEnter(u)
  }

  ghost predicate Units(s: State) {
    forall p: nat :: p < |s.asked| && s.asked[p].query.ToEnter? ==> UnitOk(s, p)
  }

  /** The answers are the choices of the tape, one for each call in the log, and account for what monitors and units did. */
  ghost predicate Accounted(s: State) {
    Played(s) && CallsOf(s.asked) == CallsIn(s.log) && Once(s.asked) && Entrances(s) && Units(s)
  }

  /** A unit is entered once. */
  ghost predicate Fresh(s: State, query: Query) {
    query.ToEnter? ==>
      && query.unit !in s.active && query.unit !in s.outputs
      && forall p :: 0 <= p < |s.asked| ==> s.asked[p].query != query
  }

  lemma {:induction false} FirstTakeJoin(a: seq<Act>, b: seq<Act>, u: string)
    ensures FirstTake(a + b, u) == Either(FirstTake(a, u), FirstTake(b, u))
    decreases |a|
  {
    if a == [] {
      assert a + b == b;
    } else {
      assert (a + b)[1..] == a[1..] + b;
      FirstTakeJoin(a[1..], b, u);
    }
  }

  lemma {:induction false} LastSetJoin(a: seq<Act>, b: seq<Act>, u: string, port: string)
    ensures LastSet(a + b, u, port) == Either(LastSet(b, u, port), LastSet(a, u, port))
    decreases |a|
  {
    if a == [] {
      assert a + b == b;
    } else {
      assert (a + b)[1..] == a[1..] + b;
      LastSetJoin(a[1..], b, u, port);
    }
  }

  lemma ApplyTakes(s: State, current: set<string>, act: Act, u: string, monitored: bool, took: Option<Outcome>)
    requires Took(s, u, monitored, took)
    ensures Took(Apply(s, current, act), u, monitored,
                 Either(took, if act.Takes? && act.unit == u then Some(act.outcome) else None))
  {
  }

  lemma {:induction false} DisturbTakes(s: State, current: set<string>, acts: seq<Act>, u: string, monitored: bool, took: Option<Outcome>)
    requires Took(s, u, monitored, took)
    ensures Took(Disturb(s, current, acts), u, monitored, Either(took, FirstTake(acts, u)))
    decreases |acts|
  {
    hide Took, Apply;
    if acts != [] {
      var next := Either(took, if acts[0].Takes? && acts[0].unit == u then Some(acts[0].outcome) else None);
      ApplyTakes(s, current, acts[0], u, monitored, took);
      DisturbTakes(Apply(s, current, acts[0]), current, acts[1..], u, monitored, next);
    }
  }

  lemma ApplySets(s: State, current: set<string>, act: Act, u: string, port: string)
    ensures var t := Apply(s, current, act);
            && t.active == s.active
            && PortOf(t.outputs, u, port)
               == Either(if (u in current || u in s.active) && act.Sets? && act.unit == u && act.port == port
                         then Some(act.closeable) else None,
                         PortOf(s.outputs, u, port))
  {
  }

  lemma {:induction false} DisturbSets(s: State, current: set<string>, acts: seq<Act>, u: string, port: string)
    ensures PortOf(Disturb(s, current, acts).outputs, u, port)
            == Either(if u in current || u in s.active then LastSet(acts, u, port) else None, PortOf(s.outputs, u, port))
    decreases |acts|
  {
    hide Apply, PortOf;
    if acts != [] {
      ApplySets(s, current, acts[0], u, port);
      DisturbSets(Apply(s, current, acts[0]), current, acts[1..], u, port);
    }
  }

  /** Sending takes and sets nothing. */
  lemma DeedsSame(a: Answer, u: string, port: string)
    ensures FirstTake(Deeds(a.query, a.choice), u) == FirstTake(DeedsOf(a), u)
    ensures LastSet(Deeds(a.query, a.choice), u, port) == LastSet(DeedsOf(a), u, port)
  {
    var acts := a.choice.acts;
    if a.query.ToJoin? {
      var take, send := [Takes(a.query.unit, a.choice.outcome)], [Sends(a.query.unit)];
      assert Deeds(a.query, a.choice) == acts + take + send;
      FirstTakeJoin(acts + take, send, u);
      LastSetJoin(acts + take, send, u, port);
      assert FirstTake(send, u) == None && LastSet(send, u, port) == None;
    } else if !a.query.ToClose? {
      assert acts + [] == acts;
    }
  }

  lemma DeedsMore(answers: seq<Answer>, a: Answer)
    ensures DeedsIn(answers + [a]) == DeedsIn(answers) + DeedsOf(a)
    ensures CallsOf(answers + [a]) == CallsOf(answers) + CallOf(a.query)
  {
    assert (answers + [a])[..|answers|] == answers;
  }

  lemma CallsMore(log: seq<Event>, e: Event)
    ensures CallsIn(log + [e]) == CallsIn(log) + (if e.Started? || e.Ran? then [] else [e])
  {
    assert (log + [e])[..|log|] == log;
  }

  /** A wait changes neither the tasks nor the records of Run, but for the call and its answer. */
  ghost predicate Asks(s: State, query: Query, t: State) {
    && t.active == s.active && t.room == s.room && t.fatal == s.fatal && t.results == s.results && t.tape == s.tape
    && t.log == s.log + CallOf(query)
    && t.asked == s.asked + [Answer(query, NextChoice(s), t.queue)]
  }

  lemma {:induction false} DisturbFrame(s: State, current: set<string>, acts: seq<Act>)
    ensures var t := Disturb(s, current, acts);
            && t.active == s.active && t.room == s.room && t.fatal == s.fatal && t.results == s.results
            && t.tape == s.tape && t.log == s.log && t.asked == s.asked
    decreases |acts|
  {
    if acts != [] { DisturbFrame(Apply(s, current, acts[0]), current, acts[1..]); }
  }

  lemma AskFrame(s: State, query: Query)
    ensures Asks(s, query, Ask(s, query))
  {
    hide Deeds, CallOf, Disturb, Current, NextChoice;
    DisturbFrame(Called(s, query), Current(query), Deeds(query, NextChoice(s)));
  }

  lemma AskPaired(s: State, query: Query, t: State)
    requires CallsOf(s.asked) == CallsIn(s.log) && Asks(s, query, t)
    ensures CallsOf(t.asked) == CallsIn(t.log)
  {
    hide CallsOf, CallsIn, DeedsIn, DeedsOf, NextChoice;
    DeedsMore(s.asked, t.asked[|s.asked|]);
    if query.ToJoin? {
      assert s.log + CallOf(query) == s.log;
    } else {
      CallsMore(s.log, CallOf(query)[0]);
    }
  }

  lemma AskTook(s: State, query: Query, u: string, monitored: bool, took: Option<Outcome>)
    requires Took(s, u, monitored, took)
    ensures Took(Ask(s, query), u, monitored, Either(took, FirstTake(Deeds(query, NextChoice(s)), u)))
  {
    hide Took, Disturb, Deeds, NextChoice, FirstTake, Either;
    var c := Called(s, query);
    TookSame(s, c, u, monitored, took);
    DisturbTakes(c, Current(query), Deeds(query, NextChoice(s)), u, monitored, took);
    var d := Disturb(c, Current(query), Deeds(query, NextChoice(s)));
    TookSame(d, Ask(s, query), u, monitored, Either(took, FirstTake(Deeds(query, NextChoice(s)), u)));
  }

  lemma TookSame(s: State, t: State, u: string, monitored: bool, took: Option<Outcome>)
    requires Took(s, u, monitored, took) && t.monitors == s.monitors && t.taken == s.taken
    ensures Took(t, u, monitored, took)
  {
  }

  lemma AskSets(s: State, query: Query, u: string, port: string)
    ensures PortOf(Ask(s, query).outputs, u, port)
            == Either(if u in Current(query) || u in s.active then LastSet(Deeds(query, NextChoice(s)), u, port) else None,
                      PortOf(s.outputs, u, port))
  {
    hide Disturb, Deeds, NextChoice, LastSet, Either, PortOf, Current, CallOf;
    DisturbSets(Called(s, query), Current(query), Deeds(query, NextChoice(s)), u, port);
  }

  lemma SpanMore(s: State, p: nat, t: State, a: Answer)
    requires p < |s.asked| && s.asked[p].query.ToEnter? && t.asked == s.asked + [a] && t.active == s.active
    ensures s.asked[p].query.unit in s.active ==> Span(t, p) == Span(s, p) + [a] && t.asked[p + 1..] == s.asked[p + 1..] + [a]
    ensures s.asked[p].query.unit !in s.active ==> Span(t, p) == Span(s, p)
  {
  }

  /** What was so of a unit entered earlier is so after one more wait. */
  lemma AskUnit(s: State, query: Query, p: nat)
    requires p < |s.asked| && s.asked[p].query.ToEnter? && UnitOk(s, p) && query != s.asked[p].query
    ensures Asks(s, query, Ask(s, query)) && UnitOk(Ask(s, query), p)
  {
    AskFrame(s, query);
    var u, t := s.asked[p].query.unit, Ask(s, query);
    var a := t.asked[|s.asked|];
    hide Ask, Took, Deeds, DeedsOf, NextChoice, LastSet, FirstTake, PortOf, DeedsIn, Span;
    SpanMore(s, p, t, a);
    assert u !in Current(query);
    forall port
      ensures PortOf(t.outputs, u, port) == LastSet(DeedsIn(Span(t, p)), u, port)
    {
      AskSets(s, query, u, port);
      DeedsMore(Span(s, p), a);
      DeedsSame(a, u, port);
      LastSetJoin(DeedsIn(Span(s, p)), DeedsOf(a), u, port);
    }
    if u in s.active {
      var took := FirstTake(DeedsIn(s.asked[p + 1..]), u);
      AskTook(s, query, u, s.asked[p].choice.monitored, took);
      DeedsMore(s.asked[p + 1..], a);
      DeedsSame(a, u, "");
      FirstTakeJoin(DeedsIn(s.asked[p + 1..]), DeedsOf(a), u);
    }
  }

  /** A unit entered now has set what it set during this wait. */
  lemma AskNewUnit(s: State, query: Query)
    requires query.ToEnter? && Fresh(s, query)
    ensures Asks(s, query, Ask(s, query)) && UnitOk(Ask(s, query), |s.asked|)
  {
    AskFrame(s, query);
    var u, t := query.unit, Ask(s, query);
    var a := t.asked[|s.asked|];
    hide Ask, Took, Deeds, DeedsOf, NextChoice, LastSet, FirstTake, DeedsIn;
    assert Span(t, |s.asked|) == [a];
    forall port
      ensures PortOf(t.outputs, u, port) == LastSet(DeedsIn([a]), u, port)
    {
      AskSets(s, query, u, port);
      DeedsMore([], a);
      assert [] + [a] == [a];
      DeedsSame(a, u, port);
      assert DeedsIn([]) == [] by { NoDeeds(); }
      assert [] + DeedsOf(a) == DeedsOf(a);
    }
  }

  lemma NoDeeds()
    ensures DeedsIn([]) == []
  {
  }

  lemma {:induction false} DisturbOutputs(s: State, current: set<string>, acts: seq<Act>)
    ensures forall u :: u in Disturb(s, current, acts).outputs ==> u in s.outputs || u in current || u in s.active
    decreases |acts|
  {
    if acts != [] { DisturbOutputs(Apply(s, current, acts[0]), current, acts[1..]); }
  }

  lemma AskEntrances(s: State, query: Query)
    requires Entrances(s)
    ensures Entrances(Ask(s, query))
  {
    var t := Ask(s, query);
    AskFrame(s, query);
    DisturbOutputs(Called(s, query), Current(query), Deeds(query, NextChoice(s)));
    hide Deeds, Disturb, NextChoice, CallOf;
    forall u | u in t.active || u in t.outputs
      ensures exists p :: 0 <= p < |t.asked| && t.asked[p].query == ToEnter(u)
    {
      if u in s.active || u in s.outputs {
        var p :| 0 <= p < |s.asked| && s.asked[p].query == ToEnter(u);
        assert t.asked[p].query == ToEnter(u);
      } else {
        assert t.asked[|s.asked|].query == ToEnter(u);
      }
    }
  }

  lemma AskAccounted(s: State, query: Query)
    requires Accounted(s) && Fresh(s, query)
    ensures Accounted(Ask(s, query))
  {
    hide CallsOf, CallsIn, UnitOk;
    var t := Ask(s, query);
    AskFrame(s, query);
    hide Ask;
    AskPaired(s, query, t);
    assert Played(t) by { hide ChoiceAt; }
    assert Once(t.asked);
    AskEntrances(s, query);
    forall p: nat | p < |t.asked| && t.asked[p].query.ToEnter?
      ensures UnitOk(t, p)
    {
      if p < |s.asked| {
        AskUnit(s, query, p);
      } else {
        AskNewUnit(s, query);
      }
    }
  }

  /** Errors received, results and successes leave the account as it is. */
  lemma AccountedSame(s: State, t: State)
    requires Accounted(s)
    requires t == s.(queue := t.queue, fatal := t.fatal, results := t.results, log := t.log)
    requires CallsIn(t.log) == CallsIn(s.log)
    ensures Accounted(t)
  {
    hide CallsOf, CallsIn, Played, Once, Entrances;
    assert Played(t) && Once(t.asked) && Entrances(t) by { AccountParts(s, t); }
    forall p: nat | p < |t.asked| && t.asked[p].query.ToEnter?
      ensures UnitOk(t, p)
    {
      assert UnitOk(s, p);
      UnitSame(s, t, p);
    }
  }

  lemma AccountParts(s: State, t: State)
    requires Played(s) && Once(s.asked) && Entrances(s)
    requires t.asked == s.asked && t.tape == s.tape && t.active == s.active && t.outputs == s.outputs
    ensures Played(t) && Once(t.asked) && Entrances(t)
  {
  }

  lemma UnitSame(s: State, t: State, p: nat)
    requires p < |s.asked| && s.asked[p].query.ToEnter? && UnitOk(s, p)
    requires t.asked == s.asked && t.active == s.active && t.outputs == s.outputs
    requires t.monitors == s.monitors && t.taken == s.taken
    ensures UnitOk(t, p)
  {
    hide LastSet, FirstTake, DeedsIn, PortOf;
    assert Span(t, p) == Span(s, p);
  }

}
