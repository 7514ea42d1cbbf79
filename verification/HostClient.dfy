/**
  The host client's objects (benchkit/pluginhost/stdio_client.go): the waiters,
  the background tasks and the maps that find them, updated in place.
 */
module HostClient {
  import opened Outcomes
  import opened Wire
  import opened HostTables
  import A = Artifacts

  class RequestWaiter {
    var results: seq<Item>
    var done: bool
    ghost var queued: seq<Item>
    /** The request this waiter was registered for. */
    ghost const req: ReqId

    constructor (ghost req: ReqId)
      ensures results == [] && !done && queued == [] && this.req == req
    {
      this.req := req;
      results, done, queued := [], false, [];
    }

    /** One waiter's share of failAllWaiters: an error result if there is room, then done. */
    method Fail()
      modifies this
      ensures Waiter(false, results, done, queued) == FailOne(Waiter(true, old(results), old(done), old(queued)))
    {
      if |results| < QUEUE_CAPACITY {
        results := results + [Broke];
        queued := queued + [Broke];
      }
      done := true;
    }
  }

  class RemoteBackgroundTask {
    const startRequest: ReqId
    const artifacts: A.RunArtifactState
    var taskId: TaskId
    var completed: bool
    var doneCompleted: bool
    var done: seq<Outcome>
    var closes: nat
    ghost var offers: seq<Outcome>

    constructor (startRequest: ReqId, artifacts: A.RunArtifactState)
      ensures this.startRequest == startRequest && this.artifacts == artifacts && taskId == 0 && !completed && !doneCompleted
      ensures done == [] && closes == 0 && offers == []
    {
      this.startRequest, this.artifacts := startRequest, artifacts;
      taskId, completed, doneCompleted, done, closes, offers := 0, false, false, [], 0, [];
    }

    /** The task as the tables see it; what its environment has applied is not kept here. */
    ghost function View(listed: bool): Task
      reads this
    {
      Task(taskId, listed, completed, doneCompleted, offers, done, closes, [], false, false, false)
    }

    /** completeOnce: the first cause goes into Done, later ones are ignored. */
    method CompleteDone(cause: Outcome)
      modifies this`doneCompleted, this`done, this`closes, this`offers
      ensures forall listed :: View(listed) == CompleteTask(old(View(listed)), cause)
      ensures taskId == old(taskId) && completed == old(completed)
    {
      offers := offers + [cause];
      if !doneCompleted {
        doneCompleted := true;
        done := done + [cause];
        closes := closes + 1;
      }
    }
  }

  /** What a waiter map says about one waiter object. */
  ghost function WaiterView(waiters: map<ReqId, RequestWaiter>, r: ReqId, w: RequestWaiter): Waiter
    reads w
  {
    Waiter(r in waiters && waiters[r] == w, w.results, w.done, w.queued)
  }

  /** Fail the waiters just taken out of the map, one after the other. */
  method FailEach(batch: map<ReqId, RequestWaiter>)
    requires forall r :: r in batch ==> batch[r].req == r
    modifies batch.Values
    ensures forall r :: r in batch ==>
              Waiter(false, batch[r].results, batch[r].done, batch[r].queued) == FailOne(old(WaiterView(batch, r, batch[r])))
  {
    hide FailOne;
    var todo := batch.Keys;
    while todo != {}
      invariant todo <= batch.Keys
      invariant forall r :: r in todo ==> unchanged(batch[r])
      invariant forall r :: r in batch && r !in todo ==>
                  Waiter(false, batch[r].results, batch[r].done, batch[r].queued) == FailOne(old(WaiterView(batch, r, batch[r])))
      decreases |todo|
    {
      var r :| r in todo;
      batch[r].Fail();
      todo := todo - {r};
    }
  }

  ghost function NamesOf(tasks: map<TaskId, RemoteBackgroundTask>): map<TaskId, ReqId> {
    map id | id in tasks :: tasks[id].startRequest
  }

  lemma NamesWith(tasks: map<TaskId, RemoteBackgroundTask>, id: TaskId, task: RemoteBackgroundTask)
    ensures NamesOf(tasks[id := task]) == NamesOf(tasks)[id := task.startRequest]
  {
  }

  lemma NamesWithout(tasks: map<TaskId, RemoteBackgroundTask>, id: TaskId)
    ensures NamesOf(tasks - {id}) == NamesOf(tasks) - {id}
  {
  }

  class StdioClient {
    var nextSeq: ReqId
    var waiters: map<ReqId, RequestWaiter>
    var bgTasks: map<TaskId, RemoteBackgroundTask>
    var bgStarts: map<ReqId, RemoteBackgroundTask>
    /** Every waiter and every task there ever was, by request. */
    ghost var issued: map<ReqId, RequestWaiter>
    ghost var made: map<ReqId, RemoteBackgroundTask>

    ghost predicate WaitersOk()
      reads this`nextSeq, this`waiters, this`issued, issued.Values
    {
      && (forall r :: r in issued ==> 0 < r <= nextSeq && issued[r].req == r)
      && (forall r :: r in waiters ==> r in issued && waiters[r] == issued[r] && !waiters[r].done)
    }

    ghost predicate TasksOk()
      reads this`bgTasks, this`bgStarts, this`made, made.Values
    {
      && (forall h :: h in made ==> made[h].startRequest == h)
      && (forall h :: h in bgStarts ==> h in made && bgStarts[h] == made[h] && !bgStarts[h].completed)
      && (forall id :: id in bgTasks ==>
            && bgTasks[id].startRequest in made && bgTasks[id] == made[bgTasks[id].startRequest]
            && bgTasks[id].taskId == id && id != 0 && !bgTasks[id].completed)
    }

    ghost predicate Valid()
      reads this, issued.Values, made.Values
    {
      WaitersOk() && TasksOk()
    }

    ghost function Waiters(): map<ReqId, Waiter>
      reads this`waiters, this`issued, issued.Values
    {
      map r | r in issued :: WaiterView(waiters, r, issued[r])
    }

    ghost function Tasks(): map<ReqId, Task>
      reads this`bgStarts, this`made, made.Values
    {
      map h | h in made :: made[h].View(h in bgStarts)
    }

    ghost function Names(): map<TaskId, ReqId>
      reads this`bgTasks
    {
      NamesOf(bgTasks)
    }

    /** Enough to know when one task changed and no other. */
    twostate lemma OneTask(h: ReqId)
      requires made == old(made) && h in made
      requires forall i :: i in made && i != h ==> unchanged(made[i]) && (i in bgStarts <==> i in old(bgStarts))
      ensures Tasks() == old(Tasks())[h := made[h].View(h in bgStarts)]
    {
    }

    /** Shrinking the maps breaks nothing. */
    twostate lemma Kept()
      requires old(TasksOk()) && made == old(made) && forall h :: h in made ==> made[h].taskId == old(made[h].taskId)
      requires (forall h :: h in bgStarts ==> !bgStarts[h].completed) && (forall id :: id in bgTasks ==> !bgTasks[id].completed)
      requires bgStarts.Keys <= old(bgStarts).Keys && forall h :: h in bgStarts ==> bgStarts[h] == old(bgStarts)[h]
      requires bgTasks.Keys <= old(bgTasks).Keys && forall id :: id in bgTasks ==> bgTasks[id] == old(bgTasks)[id]
      ensures TasksOk()
    {
    }

    constructor ()
      ensures Valid() && nextSeq == 0 && Waiters() == map[] && Tasks() == map[] && Names() == map[]
    {
      nextSeq, waiters, bgTasks, bgStarts, issued, made := 0, map[], map[], map[], map[], map[];
    }

    method NextRequestId() returns (r: ReqId)
      requires Valid()
      modifies this`nextSeq
      ensures Valid() && r == nextSeq == old(nextSeq) + 1 && r !in issued
    {
      nextSeq := nextSeq + 1;
      r := nextSeq;
    }

    method RegisterWaiter(r: ReqId) returns (w: RequestWaiter)
      requires Valid() && 0 < r <= nextSeq && r !in issued
      modifies this`waiters, this`issued
      ensures Valid() && fresh(w) && issued == old(issued)[r := w]
      ensures Waiters() == old(Waiters())[r := NewWaiter()]
    {
      hide TasksOk;
      w := new RequestWaiter(r);
      waiters, issued := waiters[r := w], issued[r := w];
    }

    method UnregisterWaiter(r: ReqId)
      requires Valid()
      modifies this`waiters, waiters.Values
      ensures Valid()
      ensures Waiters() == if r in issued then old(Waiters())[r := UnregisterOne(old(Waiters())[r])] else old(Waiters())
    {
      hide TasksOk;
      if r in waiters {
        var w := waiters[r];
        waiters := waiters - {r};
        w.done := true;
      }
    }

    /** Hand a frame to a waiter found in the map earlier; it may be unregistered by now. */
    method DeliverWaiterResult(r: ReqId, w: RequestWaiter, f: Frame, keep: bool) returns (d: Delivery)
      requires Valid() && r in issued && issued[r] == w
      modifies w
      ensures Valid()
      ensures Waiters() == old(Waiters())[r := Deliver(old(Waiters())[r], f, keep).0]
      ensures d == Deliver(old(Waiters())[r], f, keep).1
    {
      hide TasksOk;
      if |w.results| < QUEUE_CAPACITY && (keep || !w.done) {
        w.results := w.results + [Got(f)];
        w.queued := w.queued + [Got(f)];
        return Delivered;
      }
      return if w.done then Dropped else Overflowed;
    }

    method FailAllWaiters()
      requires Valid()
      modifies this`waiters, waiters.Values
      ensures Valid() && waiters == map[]
      ensures forall r :: r in issued ==> Waiters()[r] == FailOne(old(Waiters()[r]))
    {
      hide TasksOk;
      var batch := waiters;
      waiters := map[];
      FailEach(batch);
    }

    method RegisterBackgroundTask(task: RemoteBackgroundTask)
      requires Valid() && task.startRequest !in made && task !in made.Values
      requires task.View(true) == NewTask(false)
      modifies this`bgStarts, this`made
      ensures Valid() && made == old(made)[task.startRequest := task]
      ensures Tasks() == old(Tasks())[task.startRequest := NewTask(false)] && Names() == old(Names())
    {
      hide WaitersOk;
      bgStarts := bgStarts[task.startRequest := task];
      made := made[task.startRequest := task];
    }

    method RegisterBackgroundTaskId(task: RemoteBackgroundTask, id: TaskId)
      requires Valid() && task in made.Values && task.taskId == 0 && id != 0
      modifies this`bgTasks, task`taskId
      ensures Valid()
      ensures var h := task.startRequest; var t := old(Tasks())[h];
              Tasks() == old(Tasks())[h := NameTask(t, id)] && Names() == NameIn(old(Names()), t, h, id)
    {
      hide WaitersOk, TasksOk;
      Own(task);
      if task.completed { return; }
      NamesWith(bgTasks, id, task);
      task.taskId := id;
      bgTasks := bgTasks[id := task];
      NamedOk(task);
      OneTask(task.startRequest);
    }

    /** A task without an id gets one, and its entry in bgTasks. */
    twostate lemma NamedOk(task: RemoteBackgroundTask)
      requires old(TasksOk()) && made == old(made) && bgStarts == old(bgStarts)
      requires task in made.Values && old(task.taskId) == 0 && task.taskId != 0 && !task.completed
      requires forall i :: i in made && made[i] != task ==> unchanged(made[i])
      requires bgTasks == old(bgTasks)[task.taskId := task]
      ensures TasksOk()
    {
    }

    method UnregisterBackgroundTask(task: RemoteBackgroundTask)
      requires Valid() && task in made.Values
      modifies this`bgTasks, this`bgStarts, task`completed
      ensures Valid()
      ensures var h := task.startRequest; var t := old(Tasks())[h];
              Tasks() == old(Tasks())[h := CleanTask(t)] && Names() == NameOut(old(Names()), t, h)
    {
      assert made[task.startRequest] == task;
      hide WaitersOk, TasksOk, NameOut, CleanTask;
      DropId(task);
      Unlist(task);
    }

    method Unlist(task: RemoteBackgroundTask)
      requires Valid() && task in made.Values && task !in bgTasks.Values
      modifies this`bgStarts, task`completed
      ensures Valid() && task.startRequest in made
      ensures Tasks() == old(Tasks())[task.startRequest := CleanTask(old(Tasks())[task.startRequest])]
    {
      hide WaitersOk, TasksOk;
      Own(task);
      Entries();
      task.completed := true;
      if task.startRequest in bgStarts && bgStarts[task.startRequest] == task {
        bgStarts := bgStarts - {task.startRequest};
      }
      Kept();
      OneTask(task.startRequest);
    }

    method DropId(task: RemoteBackgroundTask)
      requires Valid() && task in made.Values
      modifies this`bgTasks
      ensures Valid() && task !in bgTasks.Values
      ensures Tasks() == old(Tasks())
      ensures Names() == NameOut(old(Names()), task.View(task.startRequest in bgStarts), task.startRequest)
    {
      hide WaitersOk;
      NamesWithout(bgTasks, task.taskId);
      if task.taskId != 0 && task.taskId in bgTasks && bgTasks[task.taskId] == task {
        bgTasks := bgTasks - {task.taskId};
      }
    }

    /** cleanupOnce: out of the tables and all artifacts closed, the first time. */
    method CleanUp(task: RemoteBackgroundTask)
      requires Valid() && task in made.Values && task.artifacts.Valid()
      modifies this`bgTasks, this`bgStarts, task`completed, task.artifacts
      ensures Valid() && task.artifacts.Valid()
      ensures old(task.completed) ==> unchanged(task.artifacts)
      ensures !old(task.completed) ==>
                && task.artifacts.writers == map[]
                && A.AllClosed(old(task.artifacts.writers), old(task.artifacts.files), task.artifacts.files)
      ensures var h := task.startRequest; var t := old(Tasks())[h];
              Tasks() == old(Tasks())[h := CleanTask(t)] && Names() == NameOut(old(Names()), t, h)
    {
      hide WaitersOk, TasksOk, NameOut, CleanTask, A.AllClosed;
      if task.completed {
        GoneAlready(task);
      } else {
        UnregisterBackgroundTask(task);
        task.artifacts.CloseAll();
      }
    }

    /** finish: clean up once, then the cause into Done unless one is there already. */
    method Finish(task: RemoteBackgroundTask, cause: Outcome)
      requires Valid() && task in made.Values && task.artifacts.Valid()
      modifies this`bgTasks, this`bgStarts, task, task.artifacts
      ensures Valid() && task.artifacts.Valid()
      ensures old(task.completed) ==> unchanged(task.artifacts)
      ensures !old(task.completed) ==>
                && task.artifacts.writers == map[]
                && A.AllClosed(old(task.artifacts.writers), old(task.artifacts.files), task.artifacts.files)
      ensures var h := task.startRequest; var t := old(Tasks())[h];
              Tasks() == old(Tasks())[h := CompleteTask(CleanTask(t), cause)] && Names() == NameOut(old(Names()), t, h)
    {
      hide WaitersOk, TasksOk, NameOut, CleanTask, CompleteTask, A.AllClosed;
      Own(task);
      CleanUp(task);
      Settle(task, cause);
    }

    /** completeDone, as the tables see it. */
    method Settle(task: RemoteBackgroundTask, cause: Outcome)
      requires Valid() && task in made.Values
      modifies task`doneCompleted, task`done, task`closes, task`offers
      ensures Valid()
      ensures var h := task.startRequest;
              h in old(Tasks()) && Tasks() == old(Tasks())[h := CompleteTask(old(Tasks())[h], cause)]
    {
      hide WaitersOk, TasksOk, CompleteTask;
      Own(task);
      Entries();
      task.CompleteDone(cause);
      Kept();
      OneTask(task.startRequest);
    }

    /** Taking a completed task out of the tables again changes nothing. */
    lemma GoneAlready(task: RemoteBackgroundTask)
      requires TasksOk() && task in made.Values && task.completed
      ensures var h := task.startRequest;
              && h in Tasks() && CleanTask(Tasks()[h]) == Tasks()[h] && Tasks()[h := Tasks()[h]] == Tasks()
              && NameOut(Names(), Tasks()[h], h) == Names()
    {
    }

    /** What the tables list is not completed, and stands under its own request. */
    lemma Entries()
      requires TasksOk()
      ensures forall h :: h in bgStarts ==> h in made && bgStarts[h] == made[h] && made[h].startRequest == h && !bgStarts[h].completed
      ensures forall id :: id in bgTasks ==> !bgTasks[id].completed
    {
    }

    lemma Own(task: RemoteBackgroundTask)
      requires TasksOk() && task in made.Values
      ensures task.startRequest in made && made[task.startRequest] == task
    {
    }

    method BackgroundTaskForEvent(f: Frame) returns (task: RemoteBackgroundTask?)
      requires Valid() && f.body.Event?
      ensures task != null ==>
                task in made.Values
                && task.startRequest == (if f.body.task in Names() then Names()[f.body.task] else f.req)
      ensures task == null <==> f.body.task !in Names() && !(f.req in Tasks() && Tasks()[f.req].listed)
    {
      var id := f.body.task;
      if id != 0 && id in bgTasks { return bgTasks[id]; }
      if f.req in bgStarts { return bgStarts[f.req]; }
      return null;
    }
  }
}
