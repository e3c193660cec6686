/** internal/adapter/repo/postgres/repo.go over migrations/001_init.sql: the two tables, the
    meaning of every writing transaction, and the repository methods that loop. */
module Store {
  import opened Domain
  import opened Dag
  import Ranking

  /** The rows of `tasks` by id, and the (task_id, depends_on) rows of `task_dependencies`. */
  datatype Db = Db(tasks: map<TaskId, Task>, deps: set<(TaskId, TaskId)>)

  const TWO31: int := 0x8000_0000
  const TWO32: int := 0x1_0000_0000

  /** Go's int32(x) on the way into an INT column. */
  function Int32(x: int): (r: int)
    ensures -TWO31 <= r < TWO31
    ensures -TWO31 <= x < TWO31 ==> r == x
  {
    if -TWO31 <= x < TWO31 then x else (x + TWO31) % TWO32 - TWO31
  }

  /** It is the 32-bit two's complement truncation. */
  lemma Int32Wraps(x: int)
    ensures -0x8000_0000 <= Int32(x) < 0x8000_0000
    ensures Int32(x) % 0x1_0000_0000 == x % 0x1_0000_0000
  {
  }

  function Stored(t: Task): Task {
    t.(attemptCount := Int32(t.attemptCount), retryLimit := Int32(t.retryLimit))
  }

  /** The writing transactions. */
  datatype Op =
    | Skip
    | Insert(id: TaskId, task: Task, on: seq<TaskId>)
    | Mark(batch: seq<TaskId>, at: int)
    | Beat(id: TaskId, worker: string, at: int)
    | Reset(cutoff: int, at: int)
    | Update(id: TaskId, mutation: Mutation, at: int)
    | Purge(cutoff: int)

  predicate KeyTaken(db: Db, key: string) {
    key != "" && exists x :: x in db.tasks && db.tasks[x].key == key
  }

  /** Primary keys, the UNIQUE key, the CHECK on priority and both foreign keys let the
      INSERTs of Create through.  The new row itself already satisfies a foreign key. */
  predicate Insertable(db: Db, id: TaskId, t: Task, on: seq<TaskId>) {
    && id !in db.tasks
    && t.priority <= 10
    && !KeyTaken(db, t.key)
    && Distinct(on)
    && (forall d :: d in on ==> d in db.tasks || d == id)
  }

  /** The constraints of the schema, in its own columns. */
  lemma InsertableIff(db: Db, id: TaskId, t: Task, on: seq<TaskId>)
    ensures Insertable(db, id, t, on) <==>
            && id !in db.tasks && t.priority <= 10
            && (t.key != "" ==> forall x :: x in db.tasks ==> db.tasks[x].key != t.key)
            && (forall i, j :: 0 <= i < j < |on| ==> on[i] != on[j])
            && (forall i :: 0 <= i < |on| ==> on[i] in db.tasks || on[i] == id)
  {
    assert (forall i :: 0 <= i < |on| ==> on[i] in db.tasks || on[i] == id) <==>
           (forall d :: d in on ==> d in db.tasks || d == id);
  }

  function Edges(id: TaskId, on: seq<TaskId>): set<(TaskId, TaskId)> {
    set d | d in on :: (id, d)
  }

  predicate Expired(t: Task, cutoff: int) {
    Terminal(t.status) && t.updatedAt < cutoff
  }

  function Apply(db: Db, op: Op): Db {
    match op
    case Skip => db
    case Insert(id, t, on) =>
      if Insertable(db, id, t, on)
      then Db(db.tasks[id := Stored(t)], db.deps + Edges(id, on))
      else db
    case Mark(batch, at) =>
      db.(tasks := map x | x in db.tasks ::
        if x in batch then db.tasks[x].(status := Running, updatedAt := at) else db.tasks[x])
    case Beat(id, worker, at) =>
      if id in db.tasks && db.tasks[id].status.Running?
      then db.(tasks := db.tasks[id := db.tasks[id].(updatedAt := at, workerId := worker)])
      else db
    case Reset(cutoff, at) =>
      db.(tasks := map x | x in db.tasks :: ResetRow(db.tasks[x], cutoff, at))
    case Update(id, m, at) =>
      if id in db.tasks && Mutate(db.tasks[id], m, at).Some?
      then db.(tasks := db.tasks[id := Stored(Mutate(db.tasks[id], m, at).value)])
      else db
    case Purge(cutoff) =>
      Db(map x | x in db.tasks && !Expired(db.tasks[x], cutoff) :: db.tasks[x],
         set e | e in db.deps && !Gone(db, e.0, cutoff) && !Gone(db, e.1, cutoff))
  }

  /** Deleted by the cleanup, so both cascades apply to its edges. */
  predicate Gone(db: Db, id: TaskId, cutoff: int) {
    id in db.tasks && Expired(db.tasks[id], cutoff)
  }

  function ResetRow(t: Task, cutoff: int, at: int): Task {
    if t.status.Running? && t.updatedAt < cutoff
    then t.(status := Pending, workerId := "", updatedAt := at)
    else t
  }

  /** The WHERE clause of PickAndMarkRunning, with the rows other transactions hold skipped. */
  predicate Eligible(db: Db, locked: set<TaskId>, now: int, id: TaskId) {
    && id in db.tasks
    && id !in locked
    && db.tasks[id].status.Pending?
    && db.tasks[id].scheduledAt <= now
    && (forall e :: e in db.deps && e.0 == id && e.1 in db.tasks ==> db.tasks[e.1].status.Completed?)
  }

  /** ORDER BY priority DESC, scheduled_at ASC over the eligible rows. */
  function PickKeys(db: Db, locked: set<TaskId>, now: int): Ranking.Keys {
    map x | x in db.tasks && Eligible(db, locked, now, x) :: (0 - db.tasks[x].priority, db.tasks[x].scheduledAt)
  }

  datatype Error = NotFound | InvalidTransition | Constraint

  /** The repository object; `tasks` and `edges` are the committed tables. */
  class Repo {
    var tasks: map<TaskId, Task>
    var edges: set<(TaskId, TaskId)>

    ghost function Value(): Db
      reads this
    {
      Db(tasks, edges)
    }

    constructor ()
      ensures Value() == Db(map[], {})
    {
      tasks, edges := map[], {};
    }

    /** One transaction: the row, then one dependency row per listed id.  A violated
        constraint anywhere rolls everything back. */
    method Create(id: TaskId, t: Task, on: seq<TaskId>) returns (err: Option<Error>)
      modifies this
      ensures err.None? <==> Insertable(old(Value()), id, t, on)
      ensures Value() == Apply(old(Value()), Insert(id, t, on))
      ensures err.None? <==>
              && id !in old(tasks) && t.priority <= 10
              && (t.key != "" ==> forall x :: x in old(tasks) ==> old(tasks)[x].key != t.key)
              && (forall i, j :: 0 <= i < j < |on| ==> on[i] != on[j])
              && (forall i :: 0 <= i < |on| ==> on[i] in old(tasks) || on[i] == id)
      ensures err.Some? ==> tasks == old(tasks) && edges == old(edges)
      ensures err.None? ==>
                && tasks ==
                   old(tasks)[id := t.(attemptCount := Int32(t.attemptCount), retryLimit := Int32(t.retryLimit))]
                && forall e :: e in edges <==> e in old(edges) || (e.0 == id && e.1 in on)
    {
      InsertableIff(Value(), id, t, on);
      if id in tasks || t.priority > 10 || KeyTaken(Db(tasks, edges), t.key) {
        return Some(Constraint);
      }
      var work := tasks[id := Stored(t)];
      var added: set<(TaskId, TaskId)> := {};
      for i := 0 to |on|
        invariant unchanged(this)
        invariant added == Edges(id, on[..i])
        invariant Distinct(on[..i])
        invariant forall d :: d in on[..i] ==> d in work
      {
        if on[i] !in work || (id, on[i]) in added {
          assert on[i] in on;
          assert (id, on[i]) in added ==> on[i] in on[..i];
          return Some(Constraint);
        }
        assert on[..i + 1] == on[..i] + [on[i]];
        added := added + {(id, on[i])};
      }
      assert on[..|on|] == on;
      tasks, edges := work, edges + added;
      return None;
    }

    /** SELECT ... FOR UPDATE, the closure on the loaded row, UPDATE; rolled back when the
        closure refuses. */
    method UpdateTask(id: TaskId, m: Mutation, now: int) returns (err: Option<Error>)
      modifies this
      ensures err == if id !in old(tasks) then Some(NotFound)
                     else if Mutate(old(tasks)[id], m, now).None? then Some(InvalidTransition)
                     else None
      ensures Value() == Apply(old(Value()), Update(id, m, now))
      ensures edges == old(edges) && (err.Some? ==> tasks == old(tasks))
      ensures err == Some(NotFound) <==> id !in old(tasks)
      ensures err.None? <==>
              && id in old(tasks)
              && var st := old(tasks)[id].status;
                 match m
                 case Complete(_, _) => st == Running
                 case Fail(_) => st == Running
                 case Cancel => st == Pending
                 case _ => st == Running || st == Failed
      ensures err.None? ==>
                var t := old(tasks)[id];
                var n, l := Int32(t.attemptCount), Int32(t.retryLimit);
                match m
                case Complete(res, worker) =>
                  tasks == old(tasks)[id := t.(status := Completed, updatedAt := now, result := res, workerId := worker,
                                               attemptCount := n, retryLimit := l)]
                case Retry(attempt, error, nextAt) =>
                  tasks == old(tasks)[id := t.(status := Pending, updatedAt := now, lastError := error,
                                               scheduledAt := nextAt, workerId := "",
                                               attemptCount := Int32(attempt), retryLimit := l)]
                case Fail(error) =>
                  tasks == old(tasks)[id := t.(status := Failed, updatedAt := now, lastError := error, workerId := "",
                                               attemptCount := n, retryLimit := l)]
                case Cancel =>
                  tasks == old(tasks)[id := t.(status := Cancelled, updatedAt := now,
                                               attemptCount := n, retryLimit := l)]
                case Republish =>
                  tasks == old(tasks)[id := t.(status := Pending, updatedAt := now, lastError := "", attemptCount := 0,
                                               retryLimit := l)]
    {
      if id !in tasks {
        return Some(NotFound);
      }
      var t := new TaskRecord(tasks[id]);
      var ok := t.Apply(m, now);
      if !ok {
        return Some(InvalidTransition);
      }
      tasks := tasks[id := tasks[id].(
        status := t.status,
        attemptCount := Int32(t.attemptCount),
        retryLimit := Int32(t.retryLimit),
        scheduledAt := t.scheduledAt,
        updatedAt := t.updatedAt,
        workerId := t.workerId,
        lastError := t.lastError,
        result := t.result)];
      return None;
    }

    /** The second half of PickAndMarkRunning: `rows` is what the locking SELECT returned.
        Each row is marked in the table and in the returned slice. */
    method MarkRunning(rows: seq<TaskId>, now: int) returns (picked: seq<Task>)
      requires forall x :: x in rows ==> x in tasks
      modifies this
      ensures Value() == Apply(old(Value()), Mark(rows, now))
      ensures edges == old(edges) && tasks.Keys == old(tasks).Keys
      ensures forall x :: x in tasks ==>
                tasks[x] == if x in rows then old(tasks)[x].(status := Running, updatedAt := now) else old(tasks)[x]
      ensures |picked| == |rows|
      ensures forall i :: 0 <= i < |rows| ==> picked[i] == tasks[rows[i]]
    {
      picked := [];
      for i := 0 to |rows|
        invariant edges == old(edges)
        invariant tasks == Apply(old(Value()), Mark(rows[..i], now)).tasks
        invariant |picked| == i
        invariant forall j :: 0 <= j < i ==> picked[j] == old(tasks)[rows[j]].(status := Running, updatedAt := now)
      {
        var t := tasks[rows[i]].(status := Running, updatedAt := now);
        assert rows[..i + 1] == rows[..i] + [rows[i]];
        tasks := tasks[rows[i] := t];
        picked := picked + [t];
      }
      assert rows[..|rows|] == rows;
    }

    /** SELECT by idempotency key; the UNIQUE constraint makes the answer unique. */
    method FindByIdempotencyKey(key: string) returns (r: Option<TaskId>)
      ensures r.Some? ==> r.value in tasks && tasks[r.value].key == key && key != ""
      ensures r.None? ==> key == "" || forall x :: x in tasks ==> tasks[x].key != key
    {
      if x :| x in tasks && tasks[x].key == key && key != "" {
        return Some(x);
      }
      return None;
    }

    /** UPDATE of a running row's time and worker; false is ErrNotFound. */
    method Heartbeat(id: TaskId, worker: string, now: int) returns (found: bool)
      modifies this
      ensures Value() == Apply(old(Value()), Beat(id, worker, now))
      ensures found <==> id in old(tasks) && old(tasks)[id].status == Running
      ensures edges == old(edges)
      ensures tasks == if found then old(tasks)[id := old(tasks)[id].(updatedAt := now, workerId := worker)]
              else old(tasks)
    {
      found := id in tasks && tasks[id].status == Running;
      if found {
        tasks := tasks[id := tasks[id].(updatedAt := now, workerId := worker)];
      }
    }

    /** Every running row whose last update is older than the timeout goes back to pending,
        without a worker; the others stay as they are. */
    method ResetStuckRunning(timeout: int, now: int) returns (n: nat)
      modifies this
      ensures Value() == Apply(old(Value()), Reset(now - timeout, now))
      ensures edges == old(edges) && tasks.Keys == old(tasks).Keys
      ensures forall x :: x in tasks ==>
                var t := old(tasks)[x];
                tasks[x] == if t.status == Running && t.updatedAt + timeout < now
                            then t.(status := Pending, workerId := "", updatedAt := now) else t
      ensures n == |set x | x in old(tasks) && old(tasks)[x].status == Running &&
              old(tasks)[x].updatedAt + timeout < now|
    {
      var stuck := set x | x in tasks && tasks[x].status == Running && tasks[x].updatedAt + timeout < now;
      n := |stuck|;
      tasks := map x | x in tasks ::
        if x in stuck then tasks[x].(status := Pending, workerId := "", updatedAt := now) else tasks[x];
    }

    /** Deletes the completed and cancelled rows older than the ttl, and with them every
        dependency row that mentions one of them. */
    method CleanupExpired(ttl: int, now: int) returns (n: nat)
      requires forall e :: e in edges ==> e.0 in tasks && e.1 in tasks
      modifies this
      ensures Value() == Apply(old(Value()), Purge(now - ttl))
      ensures forall x :: x in tasks <==>
                && x in old(tasks)
                && var t := old(tasks)[x];
                   !((t.status == Completed || t.status == Cancelled) && t.updatedAt + ttl < now)
      ensures forall x :: x in tasks ==> tasks[x] == old(tasks)[x]
      ensures forall e :: e in edges <==> e in old(edges) && e.0 in tasks && e.1 in tasks
      ensures n == |Stale(old(tasks), ttl, now)|
    {
      var gone := Stale(tasks, ttl, now);
      PurgeIs(Value(), now - ttl, gone);
      n := |gone|;
      tasks, edges := map x | x in tasks && x !in gone :: tasks[x], set e | e in edges && e.0 !in gone && e.1 !in gone;
    }
  }

  /** The finished rows older than the ttl. */
  function Stale(tasks: map<TaskId, Task>, ttl: int, now: int): set<TaskId> {
    set x | x in tasks && (tasks[x].status == Completed || tasks[x].status == Cancelled) &&
            tasks[x].updatedAt + ttl < now
  }

  lemma PurgeIs(db: Db, cutoff: int, gone: set<TaskId>)
    requires forall x :: x in gone <==> x in db.tasks && Expired(db.tasks[x], cutoff)
    ensures Apply(db, Purge(cutoff)) ==
            Db(map x | x in db.tasks && x !in gone :: db.tasks[x],
               set e | e in db.deps && e.0 !in gone && e.1 !in gone)
  {
  }
}
