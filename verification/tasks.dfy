/**
 The registry of long-running tasks (internal/server/tasks.go:96-127). Every operation prunes first; the readings of the
 clock and the random ids are inputs.
 */
module Tasks {
  import opened Clock
  import opened Wrappers

  const TASK_TTL: int := 3600 * SECOND

  datatype Task = Task(jobId: int, tool: string, methodName: string, target: string, createdAt: int)

  function Pruned(tasks: map<string, Task>, now: int): map<string, Task> {
    map id | id in tasks && !(tasks[id].createdAt < now - TASK_TTL) :: tasks[id]
  }

  function Find(tasks: map<string, Task>, id: string): Option<Task> {
    if id in tasks then Some(tasks[id]) else None
  }

  class TaskRegistry {
    var tasks: map<string, Task>

    constructor ()
      ensures tasks == map[]
    {
      tasks := map[];
    }

    /** add: `id` is the id minted, `now` the reading of the pruning, `createdAt` the one after it. */
    method Add(id: string, entry: Task, now: int, createdAt: int)
      modifies this
      ensures tasks == Pruned(old(tasks), now)[id := entry.(createdAt := createdAt)]
    {
      Prune(now);
      tasks := tasks[id := entry.(createdAt := createdAt)];
    }

    method Get(id: string, now: int) returns (found: Option<Task>)
      modifies this
      ensures tasks == Pruned(old(tasks), now) && found == Find(tasks, id)
    {
      Prune(now);
      found := if id in tasks then Some(tasks[id]) else None;
    }

    method Prune(now: int)
      modifies this
      ensures tasks == Pruned(old(tasks), now)
    {
      var cutoff := now - TASK_TTL;
      ghost var before := tasks;
      var left := tasks.Keys;
      while left != {}
        invariant left <= before.Keys
        invariant tasks == map id | id in before && (id in left || !(before[id].createdAt < cutoff)) :: before[id]
        decreases |left|
      {
        var id :| id in left;
        left := left - {id};
        if tasks[id].createdAt < cutoff {
          tasks := tasks - {id};
        }
      }
    }
  }

  // ----- what the registry answers after any sequence of operations -----

  datatype Operation =
    | Added(id: string, entry: Task, now: int, createdAt: int)
    | Got(id: string, now: int)

  /** The registry after the operations, in the order in which they took the lock. */
  function After(log: seq<Operation>): map<string, Task> {
    if log == [] then map[]
    else
      var last := log[|log| - 1];
      var kept := Pruned(After(log[..|log| - 1]), last.now);
      if last.Added? then kept[last.id := last.entry.(createdAt := last.createdAt)] else kept
  }

  /** Operation `k` added the id, and none after it did. */
  predicate LastAdded(log: seq<Operation>, k: nat, id: string) {
    && k < |log| && log[k].Added? && log[k].id == id
    && forall j | k < j < |log| && log[j].Added? :: log[j].id != id
  }

  predicate OutlivesReadings(log: seq<Operation>, k: nat) {
    k < |log| && log[k].Added? && forall j | k < j < |log| :: log[j].now - log[k].createdAt <= TASK_TTL
  }

  /** Whatever the clock does, a task is in the registry exactly when it was added and no reading since was more than
      its time to live after its creation. */
  lemma {:induction false} KeptIff(log: seq<Operation>, id: string, task: Task)
    ensures Find(After(log), id) == Some(task) <==>
            exists k: nat :: LastAdded(log, k, id) && OutlivesReadings(log, k) && Stamped(log, k) == task
  {
    if log != [] {
      var n := |log| - 1;
      var before, last := log[..n], log[n];
      KeptIff(before, id, task);
      if last.Added? && last.id == id {
        assert LastAdded(log, n, id) && OutlivesReadings(log, n);
        assert forall k: nat | LastAdded(log, k, id) :: k == n;
      } else {
        forall k: nat | k < n
          ensures LastAdded(log, k, id) == LastAdded(before, k, id)
          ensures OutlivesReadings(log, k) ==
                  (OutlivesReadings(before, k) && last.now - log[k].createdAt <= TASK_TTL)
        {
        }
      }
    }
  }

  function Stamped(log: seq<Operation>, k: nat): (t: Task)
    requires k < |log| && log[k].Added?
  {
    log[k].entry.(createdAt := log[k].createdAt)
  }

  /** The readings of one clock that does not run backwards, in lock order. */
  predicate Ordered(log: seq<Operation>) {
    forall i, j | 0 <= i < j < |log| :: log[i].now <= log[j].now
  }

  /** On such a clock pruning is invisible: get finds a task exactly when it was added and is not older than the TTL. */
  lemma FoundIff(log: seq<Operation>, id: string, now: int, task: Task)
    requires Ordered(log + [Got(id, now)])
    ensures Find(After(log + [Got(id, now)]), id) == Some(task) <==>
            exists k: nat :: LastAdded(log, k, id) && Stamped(log, k) == task && now - task.createdAt <= TASK_TTL
  {
    var full := log + [Got(id, now)];
    KeptIff(full, id, task);
    forall k: nat | k < |log|
      ensures LastAdded(full, k, id) == LastAdded(log, k, id)
      ensures log[k].Added? ==> (OutlivesReadings(full, k) <==> now - log[k].createdAt <= TASK_TTL)
    {
      assert full[|log|] == Got(id, now);
      assert forall j | k < j < |full| :: full[j].now <= full[|log|].now;
    }
  }

  /** On a clock that may run backwards it shows: a task young enough now is gone, because a later reading pruned it. */
  lemma BackwardClockLosesTask(entry: Task)
    ensures exists log, now, k: nat ::
      && LastAdded(log, k, "id") && now - Stamped(log, k).createdAt <= TASK_TTL
      && Find(After(log + [Got("id", now)]), "id").None?
  {
    var log := [Added("id", entry, 0, 0), Got("other", TASK_TTL + 1)];
    var full := log + [Got("id", 0)];
    assert log[..1] == [Added("id", entry, 0, 0)] && full[..2] == log;
    assert log[..1][..0] == [];
    assert "id" !in After(log);
    assert LastAdded(log, 0, "id");
  }
}
