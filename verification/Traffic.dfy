/**
  The paced, bounded-concurrency send loop of units/traffic/send/unit.go and its
  index arithmetic. Times are integer nanoseconds, the rate is a real. The
  environment is a tape of moments: the clock, the sends that finish, what a
  select finds ready. When the tape ends, so does the context.
 */
module Traffic {
  import opened Outcomes

  const SECOND: int := 1_000_000_000

  /** math.Round: half away from zero. */
  function Round(x: real): int {
    if x >= 0.0 then (x + 0.5).Floor else -((-x + 0.5).Floor)
  }

  function TotalMessages(rate: real, seconds: real): (total: int)
    ensures total >= 1
    ensures rate * seconds >= 0.5 ==> -0.5 < total as real - rate * seconds <= 0.5
  {
    var total := Round(rate * seconds);
    if total < 1 then 1 else total
  }

  /** The earliest instant of a message, truncated to a nanosecond. */
  function ScheduledStart(start: int, rate: real, index: nat): int {
    if rate <= 0.0 then start else start + (SECOND as real * index as real / rate).Floor
  }

  datatype SendResult = SendResult(index: nat, failed: bool, canceled: bool, messageId: string)

  /** What a blocked select finds first. */
  datatype Ready = ResultReady | TimerFired | ContextDone

  /** One turn of the loop: the clock, the sends in flight that finish, the branch a select takes. */
  datatype Moment = Moment(now: int, finished: seq<SendResult>, ready: Ready, later: int)

  /**
    `flying` are the sends under way, `results` the channel, `applied` the results
    taken from it and `launches` the instants of the launches, by message index.
   */
  datatype Loop = Loop(
    launched: nat,
    completed: nat,
    inFlight: int,
    ok: nat,
    errors: nat,
    attempts: nat,
    lastMessage: string,
    flying: set<nat>,
    results: seq<SendResult>,
    applied: seq<SendResult>,
    launches: seq<int>)

  const IDLE := Loop(0, 0, 0, 0, 0, 0, "", {}, [], [], [])

  /** The context ended in a select, a result carried the ended context's error, or the tape ran out. */
  datatype Ending = Finished | ContextEnded | ResultCanceled | TapeEnded

  /** Sends finish while there is room in the channel; a send that finds none stays blocked. */
  function Finish(l: Loop, finished: seq<SendResult>, max: nat): Loop
    decreases |finished|
  {
    if finished == [] then l
    else
      var r := finished[0];
      var l' := if r.index in l.flying && |l.results| < max
                then l.(flying := l.flying - {r.index}, results := l.results + [r])
                else l;
      Finish(l', finished[1..], max)
  }

  function Launch(l: Loop, now: int): Loop {
    l.(launched := l.launched + 1, inFlight := l.inFlight + 1, attempts := l.attempts + 1,
       flying := l.flying + {l.launched}, launches := l.launches + [now])
  }

  function ApplyResult(l: Loop): Loop
    requires l.results != []
  {
    var r := l.results[0];
    l.(results := l.results[1..], applied := l.applied + [r], completed := l.completed + 1, inFlight := l.inFlight - 1,
       ok := if r.failed then l.ok else l.ok + 1,
       errors := if r.failed then l.errors + 1 else l.errors,
       lastMessage := if r.failed then l.lastMessage else r.messageId)
  }

  // ------------------------------------------------------------------- conservation

  function Failures(rs: seq<SendResult>): nat {
    if rs == [] then 0 else Failures(rs[..|rs| - 1]) + (if rs[|rs| - 1].failed then 1 else 0)
  }

  function LastId(rs: seq<SendResult>): string {
    if rs == [] then "" else if rs[|rs| - 1].failed then LastId(rs[..|rs| - 1]) else rs[|rs| - 1].messageId
  }

  predicate Indexed(rs: seq<SendResult>, i: nat) {
    exists k :: 0 <= k < |rs| && rs[k].index == i
  }

  /** Each launched message is in exactly one place: under way, in the channel, or applied. */
  ghost predicate Conserved(l: Loop) {
    var all := l.applied + l.results;
    && (forall j, k :: 0 <= j < k < |all| ==> all[j].index != all[k].index)
    && (forall i :: i in l.flying ==> !Indexed(all, i))
    && (forall i: nat :: i < l.launched <==> i in l.flying || Indexed(all, i))
  }

  ghost predicate Counted(l: Loop) {
    && l.inFlight == |l.flying| + |l.results| && l.completed == |l.applied|
    && l.launched == l.completed + l.inFlight && l.launched == l.attempts == |l.launches|
    && l.errors == Failures(l.applied) && l.ok + l.errors == l.completed
    && l.lastMessage == LastId(l.applied)
  }

  ghost predicate Paced(l: Loop, start: int, rate: real) {
    forall i :: 0 <= i < |l.launches| ==> l.launches[i] >= ScheduledStart(start, rate, i)
  }

  ghost predicate Valid(l: Loop, start: int, rate: real, max: nat, total: nat) {
    Conserved(l) && Counted(l) && Paced(l, start, rate) && l.inFlight <= max && l.launched <= total
  }

  /** A send that finishes always finds room in the channel. */
  lemma NeverBlocks(l: Loop, start: int, rate: real, max: nat, total: nat, i: nat)
    requires Valid(l, start, rate, max, total) && i in l.flying
    ensures |l.results| < max
  {
    assert l.flying == (l.flying - {i}) + {i};
  }

  lemma FinishOne(l: Loop, r: SendResult)
    requires Conserved(l) && Counted(l) && r.index in l.flying
    ensures var l' := l.(flying := l.flying - {r.index}, results := l.results + [r]); Conserved(l') && Counted(l')
  {
    var l' := l.(flying := l.flying - {r.index}, results := l.results + [r]);
    var all := l.applied + l.results;
    assert l'.applied + l'.results == all + [r];
    IndexedMore(all, r);
    forall k | 0 <= k < |all|
      ensures all[k].index != r.index
    {
      assert Indexed(all, all[k].index);
    }
    hide Indexed, Failures, LastId;
  }

  lemma IndexedMore(rs: seq<SendResult>, r: SendResult)
    ensures forall i :: Indexed(rs + [r], i) <==> Indexed(rs, i) || i == r.index
  {
    var all := rs + [r];
    assert all[|rs|] == r;
    forall i | Indexed(rs, i)
      ensures Indexed(all, i)
    {
      var k :| 0 <= k < |rs| && rs[k].index == i;
      assert all[k].index == i;
    }
  }

  lemma {:induction false} FinishValid(l: Loop, finished: seq<SendResult>, start: int, rate: real, max: nat, total: nat)
    requires Valid(l, start, rate, max, total)
    ensures Valid(Finish(l, finished, max), start, rate, max, total)
    ensures var t := Finish(l, finished, max); t.launched == l.launched && t.completed == l.completed && t.inFlight == l.inFlight
    decreases |finished|
  {
    if finished != [] {
      var r := finished[0];
      var l' := if r.index in l.flying && |l.results| < max
                then l.(flying := l.flying - {r.index}, results := l.results + [r])
                else l;
      if r.index in l.flying && |l.results| < max {
        FinishOne(l, r);
      }
      hide Conserved, Counted;
      FinishValid(l', finished[1..], start, rate, max, total);
    }
  }

  lemma LaunchConserved(l: Loop, now: int)
    requires Conserved(l) && Counted(l)
    ensures Conserved(Launch(l, now)) && Counted(Launch(l, now))
  {
    var all := l.applied + l.results;
    assert l.launched !in l.flying && !Indexed(all, l.launched);
  }

  lemma LaunchValid(l: Loop, now: int, start: int, rate: real, max: nat, total: nat)
    requires Valid(l, start, rate, max, total) && l.inFlight < max && l.launched < total
    requires now >= ScheduledStart(start, rate, l.launched)
    ensures Valid(Launch(l, now), start, rate, max, total)
  {
    LaunchConserved(l, now);
    hide Conserved, ScheduledStart;
  }

  lemma ApplyValid(l: Loop, start: int, rate: real, max: nat, total: nat)
    requires Valid(l, start, rate, max, total) && l.results != []
    ensures Valid(ApplyResult(l), start, rate, max, total)
  {
    var l' := ApplyResult(l);
    assert l'.applied + l'.results == l.applied + l.results;
    assert l'.applied[..|l.applied|] == l.applied;
    hide ScheduledStart;
  }

  /** What the unit reports about the whole run. */
  ghost predicate AllSent(l: Loop, total: nat) {
    && l.completed == total && l.ok + l.errors == l.attempts == total
    && l.flying == {} && l.results == []
    && (forall i: nat :: i < total <==> Indexed(l.applied, i))
    && (forall j, k :: 0 <= j < k < |l.applied| ==> l.applied[j].index != l.applied[k].index)
  }

  lemma FinishedMeansAllSent(l: Loop, start: int, rate: real, max: nat, total: nat)
    requires Valid(l, start, rate, max, total) && l.completed >= total
    ensures AllSent(l, total)
  {
    assert l.inFlight == 0;
    assert l.applied + l.results == l.applied;
  }

  // ------------------------------------------------------------------------ one turn

  /** What the loop is run with. */
  datatype Limits = Limits(start: int, rate: real, max: nat, total: nat)

  /** There is a message left to launch and room for one more under way. */
  predicate MayLaunch(l: Loop, c: Limits) {
    l.launched < c.total && l.inFlight < c.max
  }

  predicate Due(l: Loop, c: Limits, now: int) {
    ScheduledStart(c.start, c.rate, l.launched) <= now
  }

  /** The next message is due, or becomes due before a result or the end of the context. */
  predicate Launches(l: Loop, c: Limits, m: Moment) {
    MayLaunch(l, c) && (Due(l, c, m.now) || (l.inFlight > 0 && m.ready.TimerFired?))
  }

  /** The turn blocks in a select or in the wait for the schedule, and the context ends there. */
  predicate ContextEnds(l: Loop, c: Limits, m: Moment) {
    m.ready.ContextDone? && !(MayLaunch(l, c) && Due(l, c, m.now))
  }

  /** The turn receives the oldest result: nothing may be launched, or a result arrives before the next one is due. */
  predicate Receives(l: Loop, c: Limits, m: Moment) {
    && l.results != [] && !m.ready.ContextDone?
    && (MayLaunch(l, c) ==> !Due(l, c, m.now) && l.inFlight > 0 && m.ready.ResultReady?)
  }

  predicate Cancels(l: Loop, c: Limits, m: Moment) {
    Receives(l, c, m) && l.results[0].canceled
  }

  /** One turn that does not end the loop: some sends finish, then one message is launched or one result applied, or neither. */
  ghost predicate TurnOk(l: Loop, c: Limits, m: Moment, l': Loop) {
    var f := Finish(l, m.finished, c.max);
    && l.completed < c.total && !ContextEnds(f, c, m) && !Cancels(f, c, m)
    && (if Launches(f, c, m)
        then && l'.launches != []
             && var now := l'.launches[|l'.launches| - 1];
                && l' == Launch(f, now) && Due(f, c, now) && (Due(f, c, m.now) ==> now == m.now)
        else l' == if Receives(f, c, m) then ApplyResult(f) else f)
  }

  /** `trace` holds the states between the turns. */
  ghost predicate TurnsOk(trace: seq<Loop>, c: Limits, tape: seq<Moment>) {
    && 0 < |trace| <= |tape| + 1 && trace[0] == IDLE
    && forall k :: 0 <= k < |trace| - 1 ==> TurnOk(trace[k], c, tape[k], trace[k + 1])
  }

  /** How the loop ended: after its last full turn, or within one more. */
  ghost predicate EndsAs(ending: Ending, trace: seq<Loop>, c: Limits, tape: seq<Moment>, l: Loop) {
    && 0 < |trace| <= |tape| + 1
    && var n := |trace| - 1;
       match ending
       case Finished => l == trace[n] && l.completed >= c.total
       case TapeEnded => l == trace[n] && l.completed < c.total && n == |tape|
       case ContextEnded =>
         && n < |tape| && trace[n].completed < c.total
         && l == Finish(trace[n], tape[n].finished, c.max) && ContextEnds(l, c, tape[n])
       case ResultCanceled =>
         && n < |tape| && trace[n].completed < c.total
         && l == Finish(trace[n], tape[n].finished, c.max) && Cancels(l, c, tape[n])
  }

  lemma LaunchAt(l: Loop, now: int)
    ensures var launches := Launch(l, now).launches; launches != [] && launches[|launches| - 1] == now
  {
  }

  lemma TurnsMore(trace: seq<Loop>, c: Limits, tape: seq<Moment>, l: Loop)
    requires TurnsOk(trace, c, tape) && |trace| <= |tape| && TurnOk(trace[|trace| - 1], c, tape[|trace| - 1], l)
    ensures TurnsOk(trace + [l], c, tape)
  {
    hide TurnOk;
  }

  /** The sends that finish put their results in the channel. */
  lemma {:induction false} FinishDelivers(l: Loop, finished: seq<SendResult>, c: Limits, k: nat)
    requires Valid(l, c.start, c.rate, c.max, c.total) && k < |finished| && finished[k].index in l.flying
    requires forall j :: 0 <= j < k ==> finished[j].index != finished[k].index
    ensures var t := Finish(l, finished, c.max); finished[k] in t.results && finished[k].index !in t.flying
    decreases |finished|
  {
    var r := finished[0];
    var l' := if r.index in l.flying && |l.results| < c.max
              then l.(flying := l.flying - {r.index}, results := l.results + [r])
              else l;
    FinishValid(l, [r], c.start, c.rate, c.max, c.total);
    assert Finish(l', [], c.max) == l' && [r][1..] == [];
    if k == 0 {
      NeverBlocks(l, c.start, c.rate, c.max, c.total, r.index);
      FinishKeeps(l', finished[1..], c.max, r);
    } else {
      FinishDelivers(l', finished[1..], c, k - 1);
    }
  }

  lemma {:induction false} FinishKeeps(l: Loop, finished: seq<SendResult>, max: nat, r: SendResult)
    requires r in l.results && r.index !in l.flying
    ensures r in Finish(l, finished, max).results && r.index !in Finish(l, finished, max).flying
    decreases |finished|
  {
    if finished != [] {
      var first := finished[0];
      FinishKeeps(if first.index in l.flying && |l.results| < max
                  then l.(flying := l.flying - {first.index}, results := l.results + [first])
                  else l, finished[1..], max, r);
    }
  }

  lemma InFlightIsNat(l: Loop, c: Limits)
    requires Valid(l, c.start, c.rate, c.max, c.total)
    ensures l.inFlight >= 0
  {
    hide Paced;
  }

  /** The body of the loop: a select or a launch, or the end of the loop. */
  method Turn(l: Loop, c: Limits, m: Moment) returns (l': Loop, ending: Option<Ending>)
    requires Valid(l, c.start, c.rate, c.max, c.total) && l.completed < c.total
    ensures Valid(l', c.start, c.rate, c.max, c.total)
    ensures ending.None? ==> TurnOk(l, c, m, l')
    ensures ending.Some? ==> l' == Finish(l, m.finished, c.max)
    ensures ending.Some? ==> match ending.value
                             case ContextEnded => ContextEnds(l', c, m)
                             case ResultCanceled => Cancels(l', c, m)
                             case _ => false
  {
    hide Valid, ScheduledStart, Finish, Launch, ApplyResult;
    FinishValid(l, m.finished, c.start, c.rate, c.max, c.total);
    l' := Finish(l, m.finished, c.max);
    InFlightIsNat(l', c);
    if l'.launched < c.total && l'.inFlight < c.max {
      var now := m.now;
      var wait := ScheduledStart(c.start, c.rate, l'.launched) - now;
      if wait > 0 {
        if l'.inFlight == 0 {
          return l', if m.ready.ContextDone? then Some(ContextEnded) else None;
        }
        match m.ready {
          case ResultReady =>
            l', ending := Receive(l', c);
            return;
          case TimerFired =>
            now := if m.later >= now + wait then m.later else now + wait;
          case ContextDone =>
            return l', Some(ContextEnded);
        }
      }
      LaunchValid(l', now, c.start, c.rate, c.max, c.total);
      LaunchAt(l', now);
      return Launch(l', now), None;
    }
    if m.ready.ContextDone? { return l', Some(ContextEnded); }
    l', ending := Receive(l', c);
  }

  /** Apply the oldest result, if there is one, unless it carries the error of the ended context. */
  method Receive(l: Loop, c: Limits) returns (l': Loop, ending: Option<Ending>)
    requires Valid(l, c.start, c.rate, c.max, c.total)
    ensures Valid(l', c.start, c.rate, c.max, c.total)
    ensures if l.results == [] then l' == l && ending == None
            else if l.results[0].canceled then l' == l && ending == Some(ResultCanceled)
            else l' == ApplyResult(l) && ending == None
  {
    if l.results == [] { return l, None; }
    if l.results[0].canceled { return l, Some(ResultCanceled); }
    ApplyValid(l, c.start, c.rate, c.max, c.total);
    return ApplyResult(l), None;
  }

  /** `spec.MaxInFlight` of zero or less counts as one. */
  method Run(start: int, rate: real, seconds: real, maxInFlight: int, tape: seq<Moment>)
    returns (ending: Ending, l: Loop, total: nat, ghost trace: seq<Loop>)
    ensures total == TotalMessages(rate, seconds)
    ensures Valid(l, start, rate, if maxInFlight <= 0 then 1 else maxInFlight, total)
    ensures ending.Finished? ==> AllSent(l, total)
    ensures var c := Limits(start, rate, if maxInFlight <= 0 then 1 else maxInFlight, total);
            TurnsOk(trace, c, tape) && EndsAs(ending, trace, c, tape, l)
  {
    hide Valid, AllSent, TurnOk, Finish, ContextEnds, Cancels;
    total := TotalMessages(rate, seconds);
    var c := Limits(start, rate, if maxInFlight <= 0 then 1 else maxInFlight, total);
    l := IDLE;
    IdleValid(start, rate, c.max, total);
    trace := [IDLE];
    var turns := 0;
    assert TurnsOk(trace, c, tape);
    hide TurnsOk;
    while l.completed < total
      invariant turns <= |tape| && Valid(l, start, rate, c.max, total)
      invariant |trace| == turns + 1 && trace[turns] == l && TurnsOk(trace, c, tape)
      decreases |tape| - turns
    {
      if turns == |tape| { return TapeEnded, l, total, trace; }
      var over;
      l, over := Turn(l, c, tape[turns]);
      if over.Some? { return over.value, l, total, trace; }
      TurnsMore(trace, c, tape, l);
      turns, trace := turns + 1, trace + [l];
    }
    FinishedMeansAllSent(l, start, rate, c.max, total);
    return Finished, l, total, trace;
  }

  /** Whenever a message is left, fewer than the limit are under way, and it is due, it is launched there and then. */
  lemma LaunchesWhenDue(trace: seq<Loop>, c: Limits, tape: seq<Moment>, k: nat)
    requires TurnsOk(trace, c, tape) && k + 1 < |trace|
    requires var f := Finish(trace[k], tape[k].finished, c.max);
             f.launched < c.total && f.inFlight < c.max && ScheduledStart(c.start, c.rate, f.launched) <= tape[k].now
    ensures trace[k + 1].launched == trace[k].launched + 1
    ensures trace[k + 1].launches == trace[k].launches + [tape[k].now]
  {
    assert TurnOk(trace[k], c, tape[k], trace[k + 1]);
    FinishCounts(trace[k], tape[k].finished, c.max);
    hide Finish, ScheduledStart;
  }

  lemma {:induction false} FinishCounts(l: Loop, finished: seq<SendResult>, max: nat)
    ensures var t := Finish(l, finished, max); t.launched == l.launched && t.launches == l.launches
    decreases |finished|
  {
    if finished != [] {
      var r := finished[0];
      FinishCounts(if r.index in l.flying && |l.results| < max
                   then l.(flying := l.flying - {r.index}, results := l.results + [r])
                   else l, finished[1..], max);
    }
  }

  /** A context that ends while the loop waits, for a result or for the schedule, ends the loop. */
  lemma ContextEndsTheLoop(ending: Ending, trace: seq<Loop>, c: Limits, tape: seq<Moment>, l: Loop, k: nat)
    requires TurnsOk(trace, c, tape) && EndsAs(ending, trace, c, tape, l)
    requires k < |trace| && k < |tape| && trace[k].completed < c.total && tape[k].ready.ContextDone?
    requires var f := Finish(trace[k], tape[k].finished, c.max);
             f.launched >= c.total || f.inFlight >= c.max || ScheduledStart(c.start, c.rate, f.launched) > tape[k].now
    ensures ending == ContextEnded && |trace| == k + 1
  {
    hide Finish, ScheduledStart;
    assert k + 1 < |trace| ==> TurnOk(trace[k], c, tape[k], trace[k + 1]);
  }

  lemma IdleValid(start: int, rate: real, max: nat, total: nat)
    ensures Valid(IDLE, start, rate, max, total)
  {
  }

  // -------------------------------------------------------------------------- pacing

  /** How many of the launches happened at or before `t`. */
  function LaunchedBy(launches: seq<int>, t: int): nat {
    if launches == [] then 0
    else LaunchedBy(launches[..|launches| - 1], t) + (if launches[|launches| - 1] <= t then 1 else 0)
  }

  /** A message is due in the very nanosecond in which the rate comes to allow it. */
  lemma DueWithRate(start: int, rate: real, index: nat, t: int)
    requires rate > 0.0
    ensures ScheduledStart(start, rate, index) <= t <==> SECOND as real * index as real < rate * (t - start + 1) as real
  {
    var due := SECOND as real * index as real / rate;
    assert due * rate == SECOND as real * index as real;
    if ScheduledStart(start, rate, index) <= t {
      IndexBounded(start, rate, index, t);
    } else {
      assert due >= due.Floor as real >= (t - start + 1) as real;
      Scaled(rate, (t - start + 1) as real, due);
    }
  }

  lemma Scaled(rate: real, x: real, y: real)
    requires rate > 0.0 && x <= y
    ensures rate * x <= rate * y
  {
  }

  /** A message launched by `t` has an index the rate allows by then. */
  lemma IndexBounded(start: int, rate: real, index: nat, t: int)
    requires rate > 0.0 && ScheduledStart(start, rate, index) <= t
    ensures SECOND as real * index as real < rate * (t - start + 1) as real
  {
    var due := SECOND as real * index as real / rate;
    assert due < due.Floor as real + 1.0;
    assert due.Floor <= t - start;
    assert due < (t - start + 1) as real;
    assert due * rate == SECOND as real * index as real;
  }

  lemma {:induction false} LaunchedByPrefix(start: int, rate: real, launches: seq<int>, t: int, bound: nat)
    requires forall i :: 0 <= i < |launches| && launches[i] <= t ==> i < bound
    ensures LaunchedBy(launches, t) <= bound && LaunchedBy(launches, t) <= |launches|
  {
    if launches != [] {
      var n := |launches| - 1;
      if launches[n] <= t {
        LaunchedByLength(launches[..n], t);
      } else {
        LaunchedByPrefix(start, rate, launches[..n], t, bound);
      }
    }
  }

  lemma {:induction false} LaunchedByLength(launches: seq<int>, t: int)
    ensures LaunchedBy(launches, t) <= |launches|
  {
    if launches != [] { LaunchedByLength(launches[..|launches| - 1], t); }
  }

  /** By instant `t`, no more messages have been launched than the rate allows, plus the first one. */
  lemma RateKept(l: Loop, start: int, rate: real, t: int)
    requires rate > 0.0 && Paced(l, start, rate) && t >= start
    ensures LaunchedBy(l.launches, t) <= (rate * (t - start + 1) as real / SECOND as real).Floor + 1
  {
    var allowed := rate * (t - start + 1) as real / SECOND as real;
    assert allowed >= 0.0;
    var bound: nat := allowed.Floor + 1;
    forall i | 0 <= i < |l.launches| && l.launches[i] <= t
      ensures i < bound
    {
      IndexBounded(start, rate, i, t);
      Divided(i as real, rate * (t - start + 1) as real);
    }
    LaunchedByPrefix(start, rate, l.launches, t, bound);
  }

  lemma Divided(x: real, y: real)
    requires SECOND as real * x < y
    ensures x < y / SECOND as real
  {
  }

  // ------------------------------------------------------------------------ rotation

  /** The target of a message, and how many messages that target had before it. */
  function TargetIndex(message: nat, targets: nat): nat
    requires targets > 0
  {
    message % targets
  }

  function TargetSend(message: nat, targets: nat): nat
    requires targets > 0
  {
    message / targets
  }

  /** pickSender: in turn under round_robin, else always the first. */
  function PickSender(senders: nat, roundRobin: bool, send: nat): nat
    requires senders > 0
  {
    if roundRobin then send % senders else 0
  }

  /** How many of the first `n` messages go to target `a`. */
  function Uses(n: nat, targets: nat, a: nat): nat
    requires targets > 0
  {
    if n == 0 then 0 else Uses(n - 1, targets, a) + (if TargetIndex(n - 1, targets) == a then 1 else 0)
  }

  /** How many of the first `n` messages sender `b` sends to target `a`, which has `senders` of them. */
  function SenderUses(n: nat, targets: nat, a: nat, senders: nat, b: nat): nat
    requires targets > 0 && senders > 0
  {
    if n == 0 then 0
    else
      SenderUses(n - 1, targets, a, senders, b)
      + (if TargetIndex(n - 1, targets) == a && PickSender(senders, true, TargetSend(n - 1, targets)) == b then 1 else 0)
  }

  /** One more message: either the remainder grows, or a round is complete. */
  lemma NextDivMod(n: nat, d: nat)
    requires d > 0
    ensures if n % d + 1 < d then (n + 1) / d == n / d && (n + 1) % d == n % d + 1
            else (n + 1) / d == n / d + 1 && (n + 1) % d == 0
  {
    var q, r := n / d, n % d;
    assert n + 1 == q * d + (r + 1);
    if r + 1 < d {
      DivModUnique(n + 1, d, q, r + 1);
    } else {
      assert n + 1 == (q + 1) * d + 0;
      DivModUnique(n + 1, d, q + 1, 0);
    }
  }

  lemma {:induction false} Monotone(a: nat, b: nat, d: nat)
    requires a <= b
    ensures a * d <= b * d
  {
    if a < b { Monotone(a, b - 1, d); }
  }

  lemma SameQuotient(d: nat, q: nat, r: nat, q': nat, r': nat)
    requires q * d + r == q' * d + r' && r < d && r' < d
    ensures q == q'
  {
    if q < q' { Monotone(q + 1, q', d); }
    if q' < q { Monotone(q' + 1, q, d); }
  }

  lemma DivModUnique(n: nat, d: nat, q: nat, r: nat)
    requires d > 0 && n == q * d + r && r < d
    ensures n / d == q && n % d == r
  {
    SameQuotient(d, q, r, n / d, n % d);
  }

  /** A target's share after `n` messages, exactly. */
  lemma {:induction false} ShareExact(n: nat, targets: nat, a: nat)
    requires a < targets
    ensures Uses(n, targets, a) == n / targets + (if a < n % targets then 1 else 0)
  {
    if n > 0 {
      ShareExact(n - 1, targets, a);
      NextDivMod(n - 1, targets);
    }
  }

  /** After any number of launches the targets' counts differ by at most one. */
  lemma TargetsShareEvenly(n: nat, targets: nat, a: nat, b: nat)
    requires a < targets && b < targets
    ensures Uses(n, targets, a) <= Uses(n, targets, b) + 1
  {
    ShareExact(n, targets, a);
    ShareExact(n, targets, b);
  }

  /** A target's sends are numbered without gaps, so its senders take turns on them. */
  lemma {:induction false} SenderShare(n: nat, targets: nat, a: nat, senders: nat, b: nat)
    requires a < targets && b < senders
    ensures SenderUses(n, targets, a, senders, b) == Uses(Uses(n, targets, a), senders, b)
  {
    if n > 0 {
      SenderShare(n - 1, targets, a, senders, b);
      ShareExact(n - 1, targets, a);
    }
  }

  /** Under round_robin, each target's senders have sent it equally often, give or take one. */
  lemma SendersShareEvenly(n: nat, targets: nat, a: nat, senders: nat, b: nat, c: nat)
    requires a < targets && b < senders && c < senders
    ensures SenderUses(n, targets, a, senders, b) <= SenderUses(n, targets, a, senders, c) + 1
  {
    SenderShare(n, targets, a, senders, b);
    SenderShare(n, targets, a, senders, c);
    TargetsShareEvenly(Uses(n, targets, a), senders, b, c);
  }
}
