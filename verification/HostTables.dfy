/**
  What the host client keeps per request and per background task
  (benchkit/pluginhost/stdio_client.go), and what each critical section guarded
  by `reqMu`, each channel operation and each sync.Once does to it.
 */
module HostTables {
  import opened Outcomes
  import opened Wire

  /** One delivery to a waiting request: a frame, or the news that the pump gave up. */
  datatype Item = Got(frame: Frame) | Broke

  /**
    `registered`: the waiter is in the waiters map; `closed`: its done channel is
    closed. `queued` records everything that ever went into its queue.
   */
  datatype Waiter = Waiter(registered: bool, queue: seq<Item>, closed: bool, queued: seq<Item>)

  const QUEUE_CAPACITY: nat := 64

  function NewWaiter(): Waiter {
    Waiter(true, [], false, [])
  }

  function UnregisterOne(w: Waiter): Waiter {
    if w.registered then w.(registered := false, closed := true) else w
  }

  function Enqueue(w: Waiter, i: Item): Waiter {
    w.(queue := w.queue + [i], queued := w.queued + [i])
  }

  /** failAllWaiters, as one waiter sees it: an error result if there is room, then done. */
  function FailOne(w: Waiter): Waiter {
    if w.registered
    then (if |w.queue| < QUEUE_CAPACITY then Enqueue(w, Broke) else w).(registered := false, closed := true)
    else w
  }

  datatype Delivery = Delivered | Dropped | Overflowed

  /**
    The three-way select of deliverWaiterResult. With both room and a closed done
    channel either case may be chosen; `keep` is that choice.
   */
  function Deliver(w: Waiter, f: Frame, keep: bool): (Waiter, Delivery) {
    if |w.queue| < QUEUE_CAPACITY && (keep || !w.closed) then (Enqueue(w, Got(f)), Delivered)
    else if w.closed then (w, Dropped)
    else (w, Overflowed)
  }

  /**
    One background task. Its identity is its start request. `listed` is its entry
    in bgStarts; `offers` records every cause offered to completeDone, `done` what
    went into the Done channel and `closes` how often that channel was closed.
    `applied` records the published bodies applied to the environment. `rejected`:
    the environment refused one of the task's frames; `lost`: a publication found
    nobody to take it; `strayed`: one was read by Start.
   */
  datatype Task = Task(
    id: TaskId,
    listed: bool,
    completed: bool,
    doneCompleted: bool,
    offers: seq<Outcome>,
    done: seq<Outcome>,
    closes: nat,
    applied: seq<Body>,
    rejected: bool,
    lost: bool,
    strayed: bool)

  function NewTask(strayed: bool): Task {
    Task(0, true, false, false, [], [], 0, [], false, false, strayed)
  }

  function NameTask(t: Task, id: TaskId): Task {
    if t.completed then t else t.(id := id)
  }

  function CleanTask(t: Task): Task {
    t.(completed := true, listed := false)
  }

  function CompleteTask(t: Task, cause: Outcome): Task {
    if t.doneCompleted then t.(offers := t.offers + [cause])
    else t.(offers := t.offers + [cause], doneCompleted := true, done := t.done + [cause], closes := t.closes + 1)
  }

  /** The bgTasks map after one task registered its id, or left. */
  function NameIn(names: map<TaskId, ReqId>, t: Task, h: ReqId, id: TaskId): map<TaskId, ReqId> {
    if t.completed then names else names[id := h]
  }

  function NameOut(names: map<TaskId, ReqId>, t: Task, h: ReqId): map<TaskId, ReqId> {
    if t.id != 0 && t.id in names && names[t.id] == h then names - {t.id} else names
  }
}
