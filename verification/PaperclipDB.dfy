// paperclip/db.py: the five SQLite tables, one method per statement, and the transaction boundary.

module Database {
  import opened Basics
  import opened StateMachine
  import opened Records
  import opened Worlds

  datatype AuditRow = AuditRow(taskId: Id, event: Event)

  datatype Tables = Tables(
    tasks: map<Id, Task>,
    queue: map<Id, Row>,
    results: map<Id, RunResult>,
    audit: seq<AuditRow>,
    keys: map<Key, Id>)

  function Lookup<V>(m: map<Id, V>, id: Id): Option<V> {
    if id in m then Some(m[id]) else None
  }

  // SELECT ... FROM audit_events WHERE task_id = ? ORDER BY id
  function EventsOf(audit: seq<AuditRow>, id: Id): seq<Event> {
    if audit == [] then [] else
      var earlier, last := EventsOf(audit[..|audit| - 1], id), audit[|audit| - 1];
      if last.taskId == id then earlier + [last.event] else earlier
  }

  // DELETE FROM audit_events WHERE task_id = ?
  function EventsWithout(audit: seq<AuditRow>, id: Id): seq<AuditRow> {
    if audit == [] then [] else
      var earlier, last := EventsWithout(audit[..|audit| - 1], id), audit[|audit| - 1];
      if last.taskId == id then earlier else earlier + [last]
  }

  lemma EventsOfSnoc(audit: seq<AuditRow>, row: AuditRow, id: Id)
    ensures EventsOf(audit + [row], id) == EventsOf(audit, id) + if row.taskId == id then [row.event] else []
  {
    assert (audit + [row])[..|audit|] == audit;
  }

  lemma {:induction false} DeletedEvents(audit: seq<AuditRow>, id: Id, i: Id)
    ensures EventsOf(EventsWithout(audit, id), i) == if i == id then [] else EventsOf(audit, i)
  {
    if audit != [] {
      var init, last := audit[..|audit| - 1], audit[|audit| - 1];
      DeletedEvents(init, id, i);
      EventsOfSnoc(EventsWithout(init, id), last, i);
    }
  }

  // What the tables hold about one task.
  function RecordIn(t: Tables, id: Id): Record {
    Record(Lookup(t.tasks, id), Lookup(t.queue, id), Lookup(t.results, id), EventsOf(t.audit, id))
  }

  // The tables hold exactly what the store says.
  ghost predicate Represents(t: Tables, s: Store) {
    (forall id :: RecordIn(t, id) == Rec(s, id)) && t.keys == s.keys
  }

  // `t'` differs from `t` at most in the record of one task.
  ghost predicate Changes(t: Tables, t': Tables, id: Id, r: Record) {
    RecordIn(t', id) == r && (forall i :: i != id ==> RecordIn(t', i) == RecordIn(t, i))
  }

  class PaperclipDB {
    var tasks: map<Id, Task>
    var queue: map<Id, Row>
    var results: map<Id, RunResult>
    var audit: seq<AuditRow>
    var keys: map<Key, Id>

    // What another process would read: the tables as of the last commit.
    var disk: Tables

    function Rows(): Tables
      reads this
    {
      Tables(tasks, queue, results, audit, keys)
    }

    function RecordOf(id: Id): Record
      reads this
    {
      RecordIn(Rows(), id)
    }

    constructor ()
      ensures Represents(Rows(), EMPTY_STORE) && Represents(disk, EMPTY_STORE)
    {
      tasks, queue, results, audit, keys := map[], map[], map[], [], map[];
      disk := Tables(map[], map[], map[], [], map[]);
    }

    function GetTask(id: Id): (task: Option<Task>)
      reads this
      ensures task == RecordOf(id).task
    {
      Lookup(tasks, id)
    }

    function GetQueueItem(id: Id): (row: Option<Row>)
      reads this
      ensures row == RecordOf(id).row
    {
      Lookup(queue, id)
    }

    function GetResult(id: Id): (result: Option<RunResult>)
      reads this
      ensures result == RecordOf(id).result
    {
      Lookup(results, id)
    }

    function GetIdempotentTaskId(key: Key): Option<Id>
      reads this
    {
      if key in keys then Some(keys[key]) else None
    }

    // The INSERT fails when the id is taken.
    method CreateTask(id: Id, task: Task) returns (ok: bool)
      modifies this`tasks
      ensures ok <==> old(RecordOf(id)).task.None?
      ensures ok ==> Changes(old(Rows()), Rows(), id, old(RecordOf(id)).(task := Some(task)))
      ensures !ok ==> Rows() == old(Rows())
    {
      ok := id !in tasks;
      if ok {
        tasks := tasks[id := task];
      }
    }

    method UpdateTaskState(id: Id, to: State, at: Seconds, approval: Option<ApprovalStatus>)
      modifies this`tasks
      ensures Changes(old(Rows()), Rows(), id, SetState(old(RecordOf(id)), to, at, approval))
    {
      if id in tasks {
        var t := tasks[id];
        if approval.None? {
          tasks := tasks[id := t.(state := to, updatedAt := at)];
        } else {
          tasks := tasks[id := t.(state := to, approval := approval.value, updatedAt := at)];
        }
      }
    }

    method AddAuditEvent(id: Id, event: Event)
      modifies this`audit
      ensures Changes(old(Rows()), Rows(), id, Say(old(RecordOf(id)), event))
    {
      forall i {
        EventsOfSnoc(audit, AuditRow(id, event), i);
      }
      audit := audit + [AuditRow(id, event)];
    }

    // INSERT OR REPLACE: a row that was there is forgotten.
    method EnqueueTask(id: Id, maxAttempts: int, at: Seconds)
      modifies this`queue
      ensures Changes(old(Rows()), Rows(), id, old(RecordOf(id)).(row := Some(FreshRow(maxAttempts, at))))
    {
      queue := queue[id := Row(RowQueued, 0, maxAttempts, at, None, None, None, None)];
    }

    // UPDATE task_queue SET ... WHERE task_id = ?, for any of the columns.
    method UpdateRow(id: Id, row: Row)
      modifies this`queue
      ensures Changes(old(Rows()), Rows(), id, SetRow(old(RecordOf(id)), row))
    {
      if id in queue {
        queue := queue[id := row];
      }
    }

    method ClaimQueueItem(id: Id, worker: Worker, leaseExpiresAt: Seconds)
      modifies this`queue
      ensures var r := old(RecordOf(id));
              Changes(old(Rows()), Rows(), id,
                  SetRow(r, RowOf(r).(worker := Some(worker), leaseExpiresAt := Some(leaseExpiresAt))))
    {
      UpdateRow(id, RowOf(RecordOf(id)).(worker := Some(worker), leaseExpiresAt := Some(leaseExpiresAt)));
    }

    method MarkQueueRunning(id: Id, startedAt: Seconds, timeoutAt: Seconds)
      modifies this`queue
      ensures var r := old(RecordOf(id));
              Changes(old(Rows()), Rows(), id,
                      SetRow(r, RowOf(r).(status := RowRunning, startedAt := Some(startedAt),
                          timeoutAt := Some(timeoutAt))))
    {
      UpdateRow(id, RowOf(RecordOf(id)).(status := RowRunning, startedAt := Some(startedAt),
          timeoutAt := Some(timeoutAt)));
    }

    method MarkQueueDispatched(id: Id)
      modifies this`queue
      ensures var r := old(RecordOf(id)); Changes(old(Rows()), Rows(), id,
          SetRow(r, RowOf(r).(status := RowDispatched)))
    {
      UpdateRow(id, RowOf(RecordOf(id)).(status := RowDispatched));
    }

    method MarkQueueTimedOut(id: Id)
      modifies this`queue
      ensures var r := old(RecordOf(id)); Changes(old(Rows()), Rows(), id, SetRow(r, RowOf(r).(status := RowTimedOut)))
    {
      UpdateRow(id, RowOf(RecordOf(id)).(status := RowTimedOut));
    }

    method MarkQueueCancelled(id: Id)
      modifies this`queue
      ensures var r := old(RecordOf(id)); Changes(old(Rows()), Rows(), id, SetRow(r, RowOf(r).(status := RowCancelled)))
    {
      UpdateRow(id, RowOf(RecordOf(id)).(status := RowCancelled));
    }

    method MarkQueueRetry(id: Id, attempts: int, nextAttemptAt: Seconds)
      modifies this`queue
      ensures var r := old(RecordOf(id));
              Changes(old(Rows()), Rows(), id,
                      SetRow(r, RowOf(r).(status := RowQueued, attempts := attempts, nextAttemptAt := nextAttemptAt)))
    {
      UpdateRow(id, RowOf(RecordOf(id)).(status := RowQueued, attempts := attempts, nextAttemptAt := nextAttemptAt));
    }

    method MarkQueueDeadLetter(id: Id, attempts: int)
      modifies this`queue
      ensures var r := old(RecordOf(id));
              Changes(old(Rows()), Rows(), id, SetRow(r, RowOf(r).(status := RowDeadLetter, attempts := attempts)))
    {
      UpdateRow(id, RowOf(RecordOf(id)).(status := RowDeadLetter, attempts := attempts));
    }

    method ResetQueueToQueued(id: Id)
      modifies this`queue
      ensures var r := old(RecordOf(id));
              Changes(old(Rows()), Rows(), id,
                      SetRow(r, RowOf(r).(status := RowQueued, worker := None, leaseExpiresAt := None,
                          startedAt := None, timeoutAt := None)))
    {
      UpdateRow(id, RowOf(RecordOf(id)).(status := RowQueued, worker := None, leaseExpiresAt := None, startedAt := None,
          timeoutAt := None));
    }

    // INSERT OR REPLACE into task_results.
    method StoreResult(id: Id, result: RunResult)
      modifies this`results
      ensures Changes(old(Rows()), Rows(), id, old(RecordOf(id)).(result := Some(result)))
    {
      results := results[id := result];
    }

    // The INSERT fails when the key is taken.
    method CreateIdempotencyRecord(key: Key, id: Id) returns (ok: bool)
      modifies this`keys
      ensures ok <==> key !in old(keys)
      ensures keys == if ok then old(keys)[key := id] else old(keys)
    {
      ok := key !in keys;
      if ok {
        keys := keys[key := id];
      }
    }

    // The statements of delete_task_data.
    method DeleteTaskRows(id: Id)
      modifies this`tasks, this`queue, this`results, this`audit, this`keys
      ensures Changes(old(Rows()), Rows(), id, BLANK)
      ensures keys == KeysAfter(old(keys), id, Erase)
    {
      keys := map k | k in keys && keys[k] != id :: keys[k];
      results := results - {id};
      queue := queue - {id};
      forall i {
        DeletedEvents(audit, id, i);
      }
      audit := EventsWithout(audit, id);
      tasks := tasks - {id};
    }

    // Leaving `with self.conn`: everything pending becomes durable.
    method CommitTransaction()
      modifies this`disk
      ensures disk == Rows()
    {
      disk := Rows();
    }

    // A new connection after the process died.
    method Reconnect()
      modifies this
      ensures Rows() == old(disk) && disk == old(disk)
    {
      tasks, queue, results, audit, keys := disk.tasks, disk.queue, disk.results, disk.audit, disk.keys;
    }
  }
}
