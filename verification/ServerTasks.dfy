/**
  The plugin server's task table (sdk/go/wkbench/plugin/server.go): what each
  critical section guarded by `taskMu` does to it, first as functions on values
  and then as the methods of the object that holds it.
 */
module ServerTasks {
  import opened Outcomes
  import opened Wire

  datatype Record = Record(
    req: ReqId,
    doneObserved: bool,
    doneErr: Outcome,
    eventSent: bool,
    monitorStopped: bool,
    stopping: bool)

  datatype Table = Table(next: TaskId, recs: map<TaskId, Record>)

  function Fresh(req: ReqId): Record {
    Record(req, false, Clean, false, false, false)
  }

  function MarkStopping(r: Record, on: bool): Record {
    r.(stopping := on)
  }

  function HaltRecord(r: Record): Record {
    r.(monitorStopped := true)
  }

  function ObserveRecord(r: Record, err: Outcome): Record {
    if r.doneObserved then r else r.(doneObserved := true, doneErr := err)
  }

  predicate Emits(r: Record) {
    r.doneObserved && !r.eventSent
  }

  function ClaimRecord(r: Record): Record {
    if Emits(r) then r.(eventSent := true) else r
  }

  function Store(t: Table, req: ReqId): Table {
    Table(t.next + 1, t.recs[t.next + 1 := Fresh(req)])
  }

  /** Replace a record that is still in the table; a deleted one stays deleted. */
  function Update(t: Table, id: TaskId, f: Record -> Record): Table {
    if id in t.recs then t.(recs := t.recs[id := f(t.recs[id])]) else t
  }

  function Remove(t: Table, id: TaskId): Table {
    t.(recs := t.recs - {id})
  }

  /** One background task record; its identity is the object, its id never changes. */
  class TaskRecord {
    const id: TaskId
    const req: ReqId
    var doneObserved: bool
    var doneErr: Outcome
    var eventSent: bool
    var monitorStopped: bool
    var stopping: bool

    constructor (id: TaskId, req: ReqId)
      ensures this.id == id && View() == Fresh(req)
    {
      this.id, this.req := id, req;
      doneObserved, doneErr, eventSent, monitorStopped, stopping := false, Clean, false, false, false;
    }

    ghost function View(): Record
      reads this
    {
      Record(req, doneObserved, doneErr, eventSent, monitorStopped, stopping)
    }
  }

  class PluginServer {
    var nextTask: TaskId
    var tasks: map<TaskId, TaskRecord>
    /** Every record this server ever stored, including the deleted ones. */
    ghost var stored: map<TaskId, TaskRecord>

    ghost predicate Valid()
      reads this, stored.Values
    {
      && (forall id :: id in stored ==> stored[id].id == id && 0 < id <= nextTask)
      && (forall id :: id in tasks ==> id in stored && tasks[id] == stored[id])
    }

    /** `record` was stored by this server, possibly long ago. */
    ghost predicate Issued(record: TaskRecord)
      reads this, record
    {
      record.id in stored && stored[record.id] == record
    }

    ghost function View(): Table
      requires Valid()
      reads this, stored.Values
    {
      Table(nextTask, map id | id in tasks :: tasks[id].View())
    }

    constructor ()
      ensures Valid() && stored == map[] && View() == Table(0, map[])
    {
      nextTask, tasks, stored := 0, map[], map[];
    }

    method StoreBackgroundTask(req: ReqId) returns (record: TaskRecord)
      requires Valid()
      modifies this
      ensures Valid() && Issued(record) && fresh(record)
      ensures stored == old(stored)[record.id := record]
      ensures View() == Store(old(View()), req) && record.id == View().next
    {
      nextTask := nextTask + 1;
      record := new TaskRecord(nextTask, req);
      stored := stored[nextTask := record];
      tasks := tasks[nextTask := record];
    }

    method BeginStop(id: TaskId) returns (record: TaskRecord?)
      requires Valid()
      modifies tasks.Values
      ensures Valid() && tasks == old(tasks) && stored == old(stored)
      ensures record != null <==> id in old(View()).recs
      ensures record != null ==> Issued(record) && record.id == id
      ensures View() == Update(old(View()), id, r => MarkStopping(r, true))
    {
      if id !in tasks { return null; }
      record := tasks[id];
      record.stopping := true;
    }

    method AbortStop(record: TaskRecord)
      requires Valid() && Issued(record)
      modifies record
      ensures Valid() && View() == Update(old(View()), record.id, r => MarkStopping(r, false))
    {
      if record.id in tasks && tasks[record.id] == record {
        record.stopping := false;
      }
    }

    /** First critical section of completeBackgroundTaskStop: ask the monitor to leave. */
    method HaltMonitor(record: TaskRecord) returns (active: bool, closeSignal: bool)
      requires Valid() && Issued(record)
      modifies record
      ensures Valid() && View() == Update(old(View()), record.id, HaltRecord)
      ensures active <==> record.id in old(View()).recs
      ensures closeSignal <==> active && !old(View()).recs[record.id].monitorStopped
    {
      active := record.id in tasks && tasks[record.id] == record;
      closeSignal := active && !record.monitorStopped;
      if closeSignal {
        record.monitorStopped := true;
      }
    }

    /** Second critical section of completeBackgroundTaskStop: forget the record. */
    method Forget(record: TaskRecord)
      requires Valid() && Issued(record)
      modifies this
      ensures Valid() && stored == old(stored) && View() == Remove(old(View()), record.id)
    {
      if record.id in tasks && tasks[record.id] == record {
        tasks := tasks - {record.id};
      }
    }

    method ObserveDone(record: TaskRecord, err: Outcome)
      requires Valid() && Issued(record)
      modifies record
      ensures Valid() && View() == Update(old(View()), record.id, r => ObserveRecord(r, err))
    {
      if !(record.id in tasks && tasks[record.id] == record) || record.doneObserved { return; }
      record.doneObserved := true;
      record.doneErr := err;
    }

    /** The critical section of emitObservedBackgroundEvent: decide who writes the event. */
    method ClaimEvent(record: TaskRecord) returns (shouldEmit: bool, err: Outcome)
      requires Valid() && Issued(record)
      modifies record
      ensures Valid() && View() == Update(old(View()), record.id, ClaimRecord)
      ensures shouldEmit <==> record.id in old(View()).recs && Emits(old(View()).recs[record.id])
      ensures shouldEmit ==> err == old(View()).recs[record.id].doneErr
    {
      var active := record.id in tasks && tasks[record.id] == record;
      shouldEmit := active && record.doneObserved && !record.eventSent;
      err := record.doneErr;
      if shouldEmit {
        record.eventSent := true;
      }
    }
  }
}
