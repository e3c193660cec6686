/** Where the code promises less than its comments, shown on concrete runs, with the exact
    condition under which each effect occurs. */
module Findings {
  import opened Domain
  import opened Store
  import opened Protocol
  import opened Guarantees
  import opened Liveness
  import opened RetryOutcome
  import opened TableInvariant
  import opened ActorInvariant
  import Ranking

  lemma OneMore(s: Sys, acts: seq<Action>, a: Action)
    ensures Exec(s, acts + [a]) == Next(Exec(s, acts), a)
  {
    ExecConcat(s, acts, [a]);
    assert [a][1..] == [];
    assert Exec(Exec(s, acts), [a]) == Exec(Next(Exec(s, acts), a), []);
  }

  // ----- enqueueing, as one stretch of a run -----

  function Submit(cmd: Cmd, id: TaskId): seq<Action> {
    [Lookup(0, cmd, {}, None)] + [Build(0, id)] + [InsertTask(0)]
  }

  /** The system has no open call, and may give out the id. */
  ghost predicate Free(s: Sys, id: TaskId) {
    s.api.calls == map[] && id !in s.api.used
  }

  lemma Looked(s: Sys, cmd: Cmd, id: TaskId)
    requires Free(s, id) && Accepted(cmd, {}) && cmd.key == "" && id !in cmd.on
    ensures Next(Next(s, Lookup(0, cmd, {}, None)), Build(0, id)) ==
            s.(api := s.api.(used := s.api.used + {id}, calls := map[0 := Built(id, NewTask(cmd, s.now), cmd.on)]))
  {
    var t := Next(s, Lookup(0, cmd, {}, None));
    assert t == s.(api := s.api.(calls := map[0 := Missed(cmd)]));
  }

  lemma Submitted(s: Sys, cmd: Cmd, id: TaskId)
    requires Free(s, id) && Accepted(cmd, {}) && cmd.key == "" && id !in cmd.on
    requires Insertable(s.db, id, NewTask(cmd, s.now), cmd.on)
    ensures var t, op := Exec(s, Submit(cmd, id)), Insert(id, NewTask(cmd, s.now), cmd.on);
            && t.db == Apply(s.db, op) && t.ledger == Record(s.ledger, s.db, op)
            && t.api.calls == map[] && t.api.used == s.api.used + {id}
            && t.now == s.now && t.ticker == s.ticker && t.pool == s.pool
  {
    var a, b := Lookup(0, cmd, {}, None), Build(0, id);
    Looked(s, cmd, id);
    OneMore(s, [], a);
    OneMore(s, [a], b);
    assert [] + [a] == [a];
    OneMore(s, [a] + [b], InsertTask(0));
    var u := Next(Next(s, a), b);
    assert u.api.calls - {0} == map[];
  }

  // ----- the cleaned-up dependency -----

  const FIRST: Cmd := Cmd("job", false, "", true, 0, [], None, 3, "")
  const SECOND: Cmd := FIRST.(on := [1])

  const ENQUEUED: seq<Action> := Submit(FIRST, 1) + Submit(SECOND, 2)
  const CANCELLED: seq<Action> := ENQUEUED + [CancelTask(1)]
  const AGED: seq<Action> := CANCELLED + [Clock(1)]
  const CLEANED: seq<Action> := AGED + [Cleanup(0)]
  const SELECTED: seq<Action> := CLEANED + [Select(0, 1, [2])]
  const PICKED: seq<Action> := SELECTED + [CommitPick(0)]

  lemma AfterFirst()
    ensures var s := Exec(INIT, Submit(FIRST, 1));
            && s.db == Db(map[1 := NewTask(FIRST, 0)], {}) && s.ledger.completions == multiset{}
            && s.now == 0 && s.ticker == INIT.ticker && s.pool == INIT.pool && Free(s, 2)
  {
    Submitted(INIT, FIRST, 1);
    assert Edges(1, []) == {};
  }

  lemma AfterEnqueue()
    ensures var s := Exec(INIT, ENQUEUED);
            && s.db == Db(map[1 := NewTask(FIRST, 0), 2 := NewTask(SECOND, 0)], {(2, 1)})
            && Waiting(s, 0)
  {
    AfterFirst();
    var s := Exec(INIT, Submit(FIRST, 1));
    SecondInserted(s.db);
    Submitted(s, SECOND, 2);
    ExecConcat(INIT, Submit(FIRST, 1), Submit(SECOND, 2));
  }

  lemma SecondInserted(db: Db)
    requires db == Db(map[1 := NewTask(FIRST, 0)], {})
    ensures Insertable(db, 2, NewTask(SECOND, 0), [1])
    ensures Apply(db, Insert(2, NewTask(SECOND, 0), [1])) ==
            Db(map[1 := NewTask(FIRST, 0), 2 := NewTask(SECOND, 0)], {(2, 1)})
  {
    assert Edges(2, [1]) == {(2, 1)};
  }

  /** The two rows, the first of them cancelled. */
  ghost predicate FirstCancelled(db: Db) {
    && db.tasks.Keys == {1, 2} && db.tasks[2] == NewTask(SECOND, 0) && db.deps == {(2, 1)}
    && db.tasks[1].status.Cancelled? && db.tasks[1].updatedAt == 0
  }

  /** Nothing completed, no scheduler at work, and the declaration on record. */
  ghost predicate Waiting(s: Sys, now: int) {
    && 2 in s.ledger.declared && s.ledger.declared[2] == {1} && s.ledger.completions == multiset{}
    && s.now == now && s.ticker == INIT.ticker
  }

  lemma CancelledDb(db: Db)
    requires db == Db(map[1 := NewTask(FIRST, 0), 2 := NewTask(SECOND, 0)], {(2, 1)})
    ensures Mutate(db.tasks[1], Cancel, 0).Some? && FirstCancelled(Apply(db, Update(1, Cancel, 0)))
  {
  }

  lemma AfterCancel()
    ensures FirstCancelled(Exec(INIT, CANCELLED).db) && Waiting(Exec(INIT, CANCELLED), 0)
  {
    AfterEnqueue();
    var s := Exec(INIT, ENQUEUED);
    OneMore(INIT, ENQUEUED, CancelTask(1));
    assert Locked(s) == {};
    CancelledDb(s.db);
    assert OpOf(s, CancelTask(1)) == Update(1, Cancel, 0);
  }

  lemma AfterAging()
    ensures FirstCancelled(Exec(INIT, AGED).db) && Waiting(Exec(INIT, AGED), 1)
  {
    AfterCancel();
    OneMore(INIT, CANCELLED, Clock(1));
  }

  lemma PurgedDb(db: Db)
    requires FirstCancelled(db)
    ensures Apply(db, Purge(1)) == Db(map[2 := NewTask(SECOND, 0)], {})
  {
    var after := Apply(db, Purge(1));
    assert 1 in db.tasks.Keys && Gone(db, 1, 1);
    assert after.tasks.Keys == {2};
    assert after.tasks == map[2 := NewTask(SECOND, 0)];
    assert after.deps == {};
  }

  lemma AfterCleanup()
    ensures Exec(INIT, CLEANED).db == Db(map[2 := NewTask(SECOND, 0)], {}) && Waiting(Exec(INIT, CLEANED), 1)
  {
    AfterAging();
    OneMore(INIT, AGED, Cleanup(0));
    CleanupStep(Exec(INIT, AGED));
  }

  lemma CleanupStep(s: Sys)
    requires FirstCancelled(s.db) && Waiting(s, 1)
    ensures Next(s, Cleanup(0)).db == Db(map[2 := NewTask(SECOND, 0)], {}) && Waiting(Next(s, Cleanup(0)), 1)
  {
    assert OpOf(s, Cleanup(0)) == Purge(1);
    PurgedDb(s.db);
  }

  /** A cancelled dependency that the cleanup deletes no longer holds its dependent back: here
      task 2 runs although task 1, on which it was declared to depend, never completed. */
  lemma CleanedUpDependency()
    ensures var s := Exec(INIT, PICKED);
            && 2 in s.db.tasks && s.db.tasks[2].status.Running?
            && 2 in s.ledger.declared && 1 in s.ledger.declared[2] && 1 !in s.ledger.completions
  {
    AfterCleanup();
    var s := Exec(INIT, CLEANED);
    OneMore(INIT, CLEANED, Select(0, 1, [2]));
    OneMore(INIT, SELECTED, CommitPick(0));
    assert Locked(s) == {};
    OnlyCandidate(s.db, s.now);
  }

  lemma OnlyCandidate(db: Db, now: int)
    requires db == Db(map[2 := NewTask(SECOND, 0)], {}) && now == 1
    ensures Ranking.IsTop(PickKeys(db, {}, now), 1, [2])
  {
    assert PickKeys(db, {}, now) == map[2 := (0, 0)];
  }

  /** Exactly when the cleanup leaves a task ready to be picked. */
  lemma ReleasedByCleanup(db: Db, locked: set<TaskId>, now: int, cutoff: int, x: TaskId)
    requires x in db.tasks && forall e :: e in db.deps ==> e.1 in db.tasks
    ensures Eligible(Apply(db, Purge(cutoff)), locked, now, x) <==>
            && x !in locked && db.tasks[x].status.Pending? && db.tasks[x].scheduledAt <= now
            && forall e :: e in db.deps && e.0 == x ==>
                 db.tasks[e.1].status.Completed? || Expired(db.tasks[e.1], cutoff)
  {
    var after := Apply(db, Purge(cutoff));
    if Eligible(after, locked, now, x) {
      forall e | e in db.deps && e.0 == x ensures db.tasks[e.1].status.Completed? || Expired(db.tasks[e.1], cutoff) {
        if !Expired(db.tasks[e.1], cutoff) {
          assert e in after.deps;
        }
      }
    }
  }

  // ----- stale workers -----

  /** One task, one scheduler, two workers: the row, the clock, a bound on the message ids, the
      worker that will be left behind, and the other one. */
  datatype Scene = Scene(row: Task, now: int, next: nat, slow: Worker, quick: Worker)

  ghost predicate Shows(s: Sys, v: Scene) {
    && s.db == Db(map[1 := v.row], {}) && s.now == v.now
    && s.ticker.scheds.Keys <= {0} && SchedOf(s, 0).Resting?
    && (forall m :: m in s.ticker.stream ==> m < v.next && s.ticker.stream[m] == 1)
    && s.pool.acked <= s.ticker.stream.Keys
    && s.pool.workers == map[0 := v.slow, 1 := v.quick]
  }

  predicate AtLeisure(k: Worker) {
    k.pc.Idle? && k.inbox == []
  }

  lemma Join(s: Sys, a: seq<Action>, t: Sys, b: seq<Action>, u: Sys)
    requires t == Exec(s, a) && u == Exec(t, b)
    ensures u == Exec(s, a + b)
  {
    ExecConcat(s, a, b);
  }

  lemma Twice(s: Sys, a: Action, b: Action)
    ensures Exec(s, [a] + [b]) == Next(Next(s, a), b)
  {
    OneMore(s, [a], b);
    OneMore(s, [], a);
    assert [] + [a] == [a];
  }

  /** The only row of the table, pending and due, is what a tick picks. */
  lemma OnlyRow(s: Sys, v: Scene)
    requires Shows(s, v) && v.row.status.Pending? && v.row.scheduledAt <= v.now
    ensures Locked(s) == {} && Int32(1) == 1 && Ranking.IsTop(PickKeys(s.db, Locked(s), s.now), 1, [1])
  {
    assert Locked(s) == {};
    assert PickKeys(s.db, {}, s.now) == map[1 := (0 - v.row.priority, v.row.scheduledAt)];
  }

  /** Select, commit and publish. */
  lemma PickedUp(s: Sys, v: Scene) returns (acts: seq<Action>, t: Sys)
    requires Shows(s, v) && v.row.status.Pending? && v.row.scheduledAt <= v.now
    ensures t == Exec(s, acts) && Shows(t, v.(row := v.row.(status := Running, updatedAt := v.now), next := v.next + 1))
    ensures v.next in t.ticker.stream && v.next !in t.pool.acked && t.pool == s.pool
  {
    OnlyRow(s, v);
    SelectThenCommit(s, 0, 1, [1]);
    var a, b := Select(0, 1, [1]), CommitPick(0);
    Twice(s, a, b);
    var m := Next(Next(s, a), b);
    MarkedRow(s.db, v.row, v.now);
    PublishEffect(Setup(1, 0, 0, 0, 0), m, v.next);
    OneMore(s, [a] + [b], Publish(0, Some(v.next)));
    acts, t := [a] + [b] + [Publish(0, Some(v.next))], Next(m, Publish(0, Some(v.next)));
  }

  lemma MarkedRow(db: Db, row: Task, at: int)
    requires db == Db(map[1 := row], {})
    ensures Apply(db, Mark([1], at)) == Db(map[1 := row.(status := Running, updatedAt := at)], {})
  {
    assert Apply(db, Mark([1], at)).tasks == map[1 := row.(status := Running, updatedAt := at)];
  }

  function With(v: Scene, w: nat, k: Worker): Scene {
    if w == 0 then v.(slow := k) else v.(quick := k)
  }

  function Actor(v: Scene, w: nat): Worker {
    if w == 0 then v.slow else v.quick
  }

  /** Delivery of the newest message and the read. */
  lemma Taken(s: Sys, v: Scene, w: nat, m: nat) returns (acts: seq<Action>, t: Sys)
    requires Shows(s, v) && w < 2 && AtLeisure(Actor(v, w)) && v.row.status.Running?
    requires m in s.ticker.stream && m !in s.pool.acked
    ensures t == Exec(s, acts) && Shows(t, With(v, w, Worker(Actor(v, w).name, [], Executing(m, 1, v.row))))
    ensures t == s.(pool := t.pool) && t.pool.started == s.pool.started
  {
    Receive(s, w, m, 1);
    Twice(s, Deliver(w, m), Read(w));
    acts, t := [Deliver(w, m)] + [Read(w)], Next(Next(s, Deliver(w, m)), Read(w));
  }

  /** The row after a verdict. */
  function Judged(row: Task, v: Mutation, at: int): Task {
    Stored(Edit(row.(status := Target(v), updatedAt := at), v))
  }

  lemma JudgedRow(db: Db, row: Task, v: Mutation, at: int)
    requires db == Db(map[1 := row], {}) && MayMove(row.status, Target(v))
    ensures Apply(db, Update(1, v, at)) == Db(map[1 := Judged(row, v, at)], {})
  {
    assert db.tasks[1 := Judged(row, v, at)] == map[1 := Judged(row, v, at)];
  }

  /** The handler of worker w fails, on the snapshot it has; the verdict is committed. */
  lemma Decided(s: Sys, v: Scene, w: nat, m: nat, snap: Task, verdict: Mutation) returns (acts: seq<Action>, t: Sys)
    requires Shows(s, v) && w < 2 && Actor(v, w).pc == Executing(m, 1, snap)
    requires verdict == Decide(Actor(v, w).name, snap, ERROR, v.now) && MayMove(v.row.status, Target(verdict))
    ensures acts == [Finish(w, ERROR)] + [Commit(w)] && t == Exec(s, acts)
    ensures Shows(t, With(v.(row := Judged(v.row, verdict, v.now)), w,
                          Actor(v, w).(pc := if verdict.Fail? then Reporting(m, 1) else Acking(m, 1))))
    ensures t.ticker == s.ticker && t.pool.acked == s.pool.acked
  {
    assert Locked(s) == {};
    Fails(s, w, m, 1, snap, verdict);
    JudgedRow(s.db, v.row, verdict, v.now);
    Twice(s, Finish(w, ERROR), Commit(w));
    acts, t := [Finish(w, ERROR)] + [Commit(w)], Next(Next(s, Finish(w, ERROR)), Commit(w));
  }

  /** Report and ack. */
  lemma Released(s: Sys, v: Scene, w: nat, m: nat) returns (acts: seq<Action>, t: Sys)
    requires Shows(s, v) && w < 2 && m in s.ticker.stream
    requires Actor(v, w).pc == Reporting(m, 1) || Actor(v, w).pc == Acking(m, 1)
    ensures t == Exec(s, acts) && Shows(t, With(v, w, Actor(v, w).(pc := Idle)))
  {
    acts, t := Settles(s, w, m, 1);
  }

  lemma Later(s: Sys, v: Scene, until: int) returns (acts: seq<Action>, t: Sys)
    requires Shows(s, v)
    ensures t == Exec(s, acts) && t.now >= until && t.now >= s.now && Shows(t, v.(now := t.now)) && t.pool == s.pool
  {
    acts, t := Wait(Setup(1, 0, 0, 0, 0), s, until);
  }

  /** The row, running and not updated for longer than the timeout, is found stuck. */
  lemma Unstuck(s: Sys, v: Scene, timeout: nat) returns (acts: seq<Action>, t: Sys)
    requires Shows(s, v) && v.row.status.Running? && v.row.updatedAt + timeout < v.now
    ensures t == Exec(s, acts) && Shows(t, v.(row := v.row.(status := Pending, workerId := "", updatedAt := v.now)))
    ensures t.pool == s.pool
  {
    var a := ResetStuck(timeout);
    acts, t := [a], Next(s, a);
    OneMore(s, [], a);
    assert [] + [a] == [a];
    ResetFrame(s, timeout);
    assert t.db.tasks == map[1 := ResetRow(v.row, v.now - timeout, v.now)];
  }

  /** A limit and attempts as the tables keep them. */
  predicate Counted(row: Task) {
    0 <= row.attemptCount < row.retryLimit < TWO31
  }

  /** One more attempt, by the quick worker, that fails. */
  lemma QuickFails(s: Sys, v: Scene) returns (acts: seq<Action>, t: Sys, u: Scene)
    requires Shows(s, v) && v.row.status.Pending? && Counted(v.row) && AtLeisure(v.quick)
    ensures t == Exec(s, acts) && Shows(t, u) && u.slow == v.slow && AtLeisure(u.quick)
    ensures u.row.retryLimit == v.row.retryLimit
    ensures if v.row.attemptCount + 1 < v.row.retryLimit
            then u.row.status.Pending? && u.row.attemptCount == v.row.attemptCount + 1
            else u.row.status.Failed? && u.row.attemptCount == v.row.attemptCount
  {
    var a1, s1 := Later(s, v, v.row.scheduledAt);
    var v1 := v.(now := s1.now);
    var a2, s2 := PickedUp(s1, v1);
    Join(s, a1, s1, a2, s2);
    var v2 := v1.(row := v1.row.(status := Running, updatedAt := v1.now), next := v1.next + 1);
    var a3, s3, v3 := QuickServes(s2, v2, v1.next);
    Join(s, a1 + a2, s2, a3, s3);
    acts, t, u := a1 + a2 + a3, s3, v3;
  }

  /** The quick worker takes message m, fails, and lets go of it. */
  lemma QuickServes(s: Sys, v: Scene, m: nat) returns (acts: seq<Action>, t: Sys, u: Scene)
    requires Shows(s, v) && v.row.status.Running? && Counted(v.row) && AtLeisure(v.quick)
    requires m in s.ticker.stream && m !in s.pool.acked
    ensures t == Exec(s, acts) && Shows(t, u) && u.slow == v.slow && AtLeisure(u.quick)
    ensures u.row.retryLimit == v.row.retryLimit
    ensures if v.row.attemptCount + 1 < v.row.retryLimit
            then u.row.status.Pending? && u.row.attemptCount == v.row.attemptCount + 1
            else u.row.status.Failed? && u.row.attemptCount == v.row.attemptCount
  {
    var a1, s1 := Taken(s, v, 1, m);
    var v1 := With(v, 1, Worker(v.quick.name, [], Executing(m, 1, v.row)));
    var verdict := Decide(v.quick.name, v.row, ERROR, v.now);
    var a2, s2 := Decided(s1, v1, 1, m, v.row, verdict);
    Join(s, a1, s1, a2, s2);
    var v2 := With(v1.(row := Judged(v.row, verdict, v.now)), 1,
                   v1.quick.(pc := if verdict.Fail? then Reporting(m, 1) else Acking(m, 1)));
    var a3, s3 := Released(s2, v2, 1, m);
    Join(s, a1 + a2, s2, a3, s3);
    acts, t, u := a1 + a2 + a3, s3, With(v2, 1, v2.quick.(pc := Idle));
  }

  /** The quick worker uses up all attempts. */
  lemma {:induction false} QuickGivesUp(s: Sys, v: Scene) returns (acts: seq<Action>, t: Sys, u: Scene)
    requires Shows(s, v) && v.row.status.Pending? && Counted(v.row) && AtLeisure(v.quick)
    ensures t == Exec(s, acts) && Shows(t, u) && u.slow == v.slow
    ensures u.row.status.Failed? && u.row.retryLimit == v.row.retryLimit && u.row.attemptCount == v.row.retryLimit - 1
    decreases v.row.retryLimit - v.row.attemptCount
  {
    acts, t, u := QuickFails(s, v);
    if u.row.status.Pending? {
      var more, t', u' := QuickGivesUp(t, u);
      Join(s, acts, t, more, t');
      acts, t, u := acts + more, t', u';
    }
  }

  // ----- the beginning of both runs -----

  function Job(limit: int): Cmd {
    FIRST.(retryLimit := limit)
  }

  /** One task enqueued, two workers started, the slow one executing it. */
  lemma Opening(limit: int) returns (acts: seq<Action>, s: Sys, v: Scene)
    requires -TWO31 <= limit < TWO31
    ensures s == Exec(INIT, acts) && Shows(s, v) && AtLeisure(v.quick)
    ensures v.row == NewTask(Job(limit), 0).(status := Running) && v.now == 0 &&
            v.slow == Worker("slow", [], Executing(0, 1, v.row))
  {
    var a1, s1 := Enqueued(limit);
    var v1 := Scene(NewTask(Job(limit), 0), 0, 0, Worker("slow", [], Idle), Worker("quick", [], Idle));
    var a2, s2 := PickedUp(s1, v1);
    Join(INIT, a1, s1, a2, s2);
    var v2 := v1.(row := v1.row.(status := Running), next := 1);
    var a3, s3 := Taken(s2, v2, 0, 0);
    Join(INIT, a1 + a2, s2, a3, s3);
    acts, s, v := a1 + a2 + a3, s3, With(v2, 0, Worker("slow", [], Executing(0, 1, v2.row)));
  }

  lemma JobInserted(limit: int)
    requires -TWO31 <= limit < TWO31
    ensures Insertable(INIT.db, 1, NewTask(Job(limit), 0), [])
    ensures Apply(INIT.db, Insert(1, NewTask(Job(limit), 0), [])) == Db(map[1 := NewTask(Job(limit), 0)], {})
  {
    assert Edges(1, []) == {};
  }

  lemma BothStart(s: Sys)
    requires s.pool == INIT.pool
    ensures var t := Next(Next(s, Restart(0, "slow")), Restart(1, "quick"));
            && t == s.(pool := t.pool) && t.pool.acked == {} && t.pool.started == multiset{}
            && t.pool.workers == map[0 := Worker("slow", [], Idle), 1 := Worker("quick", [], Idle)]
  {
    var m := Next(s, Restart(0, "slow"));
    assert m == s.(pool := m.pool) && m.pool.workers == map[0 := Worker("slow", [], Idle)] && m.pool.acked == {};
  }

  lemma Enqueued(limit: int) returns (acts: seq<Action>, s: Sys)
    requires -TWO31 <= limit < TWO31
    ensures s == Exec(INIT, acts)
    ensures Shows(s, Scene(NewTask(Job(limit), 0), 0, 0, Worker("slow", [], Idle), Worker("quick", [], Idle)))
    ensures s.pool.started == multiset{}
  {
    JobInserted(limit);
    Submitted(INIT, Job(limit), 1);
    var s1 := Exec(INIT, Submit(Job(limit), 1));
    var a, b := Restart(0, "slow"), Restart(1, "quick");
    Twice(s1, a, b);
    BothStart(s1);
    acts, s := Submit(Job(limit), 1) + ([a] + [b]), Next(Next(s1, a), b);
    Join(INIT, Submit(Job(limit), 1), s1, [a] + [b], s);
  }

  /** For every limit of at least 2 and every stuck timeout there is a run in which a worker that
      was taken for dead wakes up after the others have used up all attempts, and its retry turns the failed task
      pending again with a stored count of 1, down from limit - 1. */
  lemma StaleWorkerRevives(limit: int, timeout: nat) returns (before: seq<Action>)
    requires 2 <= limit < TWO31
    ensures var s := Exec(INIT, before);
            var t := Next(Next(s, Finish(0, ERROR)), Commit(0));
            && 1 in s.db.tasks && s.db.tasks[1].status.Failed? && s.db.tasks[1].attemptCount == limit - 1
            && 1 in t.db.tasks && t.db.tasks[1].status.Pending? && t.db.tasks[1].attemptCount == 1
  {
    var a1, s1, v1 := Opening(limit);
    var a2, s2 := Later(s1, v1, timeout + 1);
    Join(INIT, a1, s1, a2, s2);
    var v2 := v1.(now := s2.now);
    var a3, s3 := Unstuck(s2, v2, timeout);
    Join(INIT, a1 + a2, s2, a3, s3);
    var v3 := v2.(row := v2.row.(status := Pending, workerId := "", updatedAt := v2.now));
    var a4, s4, v4 := QuickGivesUp(s3, v3);
    Join(INIT, a1 + a2 + a3, s3, a4, s4);
    before := a1 + a2 + a3 + a4;
    Wakes(s4, v4, limit);
  }

  lemma Wakes(s: Sys, v: Scene, limit: int)
    requires Shows(s, v) && v.row.status.Failed? && 2 <= limit
    requires v.slow == Worker("slow", [], Executing(0, 1, NewTask(Job(limit), 0).(status := Running)))
    ensures var t := Next(Next(s, Finish(0, ERROR)), Commit(0));
            1 in t.db.tasks && t.db.tasks[1].status.Pending? && t.db.tasks[1].attemptCount == 1
  {
    var snap := v.slow.pc.snap;
    var acts, t := Decided(s, v, 0, 0, snap, Decide("slow", snap, ERROR, v.now));
    Twice(s, Finish(0, ERROR), Commit(0));
  }

  /** Exactly when a retry is accepted: the row is there, unlocked, and running or failed.  It
      then overwrites the count, whatever the row says. */
  lemma StaleRetry(s: Sys, w: nat)
    requires PcOf(s, w).Deciding? && PcOf(s, w).mutation.Retry?
    ensures var x, m, db := PcOf(s, w).id, PcOf(s, w).mutation, Apply(s.db, OpOf(s, Commit(w)));
            && (db != s.db ==> x in s.db.tasks)
            && (x in s.db.tasks ==>
                  if x !in Locked(s) && (s.db.tasks[x].status.Running? || s.db.tasks[x].status.Failed?)
                  then x in db.tasks && db.tasks[x].status.Pending? && db.tasks[x].attemptCount == Int32(m.attempt)
                  else db == s.db)
  {
  }

  /** The action commits a retry of x. */
  predicate CommitsRetry(s: Sys, a: Action, x: TaskId) {
    a.Commit? && PcOf(s, a.w).Deciding? && PcOf(s, a.w).id == x && PcOf(s, a.w).mutation.Retry?
  }

  lemma RevivedByOp(db: Db, l: Ledger, op: Op, x: TaskId)
    requires OpSound(db, l, op)
    ensures Moved(db, Apply(db, op), x, Failed, Pending) <==>
            && StatusOf(db, x) == Some(Failed)
            && op.Update? && op.id == x && (op.mutation.Retry? || op.mutation.Republish?)
  {
  }

  lemma RevivingOps(s: Sys, a: Action, x: TaskId)
    requires WorkersSound(s) && StatusOf(s.db, x) == Some(Failed)
    ensures var op := OpOf(s, a);
            op.Update? && op.id == x && (op.mutation.Retry? || op.mutation.Republish?) <==>
            x !in Locked(s) && (a == RepublishTask(x) || CommitsRetry(s, a, x))
  {
    if a.Commit? && a.w in s.pool.workers {
      assert WorkerSound(s, s.pool.workers[a.w]);
    }
  }

  /** In every reachable state, exactly two actions revive a failed task, each if the row is
      unlocked: a Republish of it, and the commit of a retry by a worker that had read it before
      it failed. */
  lemma RevivedIff(acts: seq<Action>, a: Action, x: TaskId)
    ensures var s := Exec(INIT, acts);
            Moved(s.db, Next(s, a).db, x, Failed, Pending) <==>
            && StatusOf(s.db, x) == Some(Failed) && x !in Locked(s)
            && (a == RepublishTask(x) || CommitsRetry(s, a, x))
  {
    var s := Exec(INIT, acts);
    ReachableInv(s);
    OpIsSound(s, a);
    RevivedByOp(s.db, s.ledger, OpOf(s, a), x);
    if StatusOf(s.db, x) == Some(Failed) {
      RevivingOps(s, a, x);
    }
  }

  // ----- attempts that are not counted -----

  /** The slow worker's handler fails after the task was taken back: its verdict is refused, and
      nothing is written. */
  lemma TooLate(s: Sys, v: Scene, m: nat, snap: Task)
    requires Shows(s, v) && v.slow.pc == Executing(m, 1, snap) && v.row.status.Pending?
    ensures var t := Next(Next(s, Finish(0, ERROR)), Commit(0));
            && Shows(t, v.(slow := v.slow.(pc := Idle))) && t.pool.started == s.pool.started + multiset{1}
  {
    assert Locked(s) == {};
    VerdictRefused(s, 0, 1);
  }

  lemma VerdictRefused(s: Sys, w: nat, x: TaskId)
    requires w in s.pool.workers && PcOf(s, w).Executing? && PcOf(s, w).id == x && x !in Locked(s)
    requires x in s.db.tasks && s.db.tasks[x].status.Pending?
    ensures var t := Next(Next(s, Finish(w, ERROR)), Commit(w));
            && t == s.(pool := t.pool) && t.pool.acked == s.pool.acked
            && t.pool.workers == s.pool.workers[w := s.pool.workers[w].(pc := Idle)]
            && t.pool.started == s.pool.started + multiset{x}
  {
    var n := Next(s, Finish(w, ERROR));
    assert n == s.(pool := n.pool);
    assert n.pool.workers[w].pc.Deciding? && n.pool.workers[w].pc.id == x;
    assert Locked(n) == Locked(s);
  }

  /** A pending row that has not been counted yet, and a slow worker with nothing to do. */
  ghost predicate Uncounted(s: Sys, v: Scene, limit: int) {
    && Shows(s, v) && v.row.status.Pending? && v.row.attemptCount == 0 && v.row.retryLimit == limit
    && v.slow.name == "slow" && AtLeisure(v.slow)
  }

  /** Pick, delivery, a handler that outlasts the timeout, stuck reset, and a verdict too late. */
  lemma LostRound(s: Sys, v: Scene, limit: int, timeout: nat) returns (acts: seq<Action>, t: Sys, u: Scene)
    requires Uncounted(s, v, limit)
    ensures t == Exec(s, acts) && Uncounted(t, u, limit) && t.pool.started == s.pool.started + multiset{1}
  {
    var a1, s1 := Later(s, v, v.row.scheduledAt);
    var v1 := v.(now := s1.now);
    var a2, s2 := PickedUp(s1, v1);
    var v2 := v1.(row := v1.row.(status := Running, updatedAt := v1.now), next := v1.next + 1);
    var a3, s3 := Taken(s2, v2, 0, v1.next);
    var v3 := v2.(slow := Worker("slow", [], Executing(v1.next, 1, v2.row)));
    var a4, s4, v4 := Overtaken(s3, v3, timeout);
    TooLate(s4, v4, v1.next, v2.row);
    Twice(s4, Finish(0, ERROR), Commit(0));
    t, u := Next(Next(s4, Finish(0, ERROR)), Commit(0)), v4.(slow := v4.slow.(pc := Idle));
    Join(s, a1, s1, a2, s2);
    Join(s, a1 + a2, s2, a3, s3);
    Join(s, a1 + a2 + a3, s3, a4, s4);
    acts := a1 + a2 + a3 + a4 + ([Finish(0, ERROR)] + [Commit(0)]);
    Join(s, a1 + a2 + a3 + a4, s4, [Finish(0, ERROR)] + [Commit(0)], t);
  }

  /** The timeout passes and the stuck check takes the task back. */
  lemma Overtaken(s: Sys, v: Scene, timeout: nat) returns (acts: seq<Action>, t: Sys, u: Scene)
    requires Shows(s, v) && v.row.status.Running?
    ensures t == Exec(s, acts) && Shows(t, u) && t.pool == s.pool && u.slow == v.slow && u.row.status.Pending?
    ensures u.row.attemptCount == v.row.attemptCount && u.row.retryLimit == v.row.retryLimit
  {
    var a1, s1 := Later(s, v, v.row.updatedAt + timeout + 1);
    var v1 := v.(now := s1.now);
    var a2, s2 := Unstuck(s1, v1, timeout);
    acts, t, u := a1 + a2, s2, v1.(row := v1.row.(status := Pending, workerId := "", updatedAt := v1.now));
    Join(s, a1, s1, a2, s2);
  }

  /** The retry limit does not bound the number of handler runs: for every limit, every stuck
      timeout and every n there is a run in which the handler of one task was run n times and the
      stored count is still 0, because a run that a stuck reset overtakes is not counted. */
  lemma {:induction false} RunsUnbounded(limit: int, timeout: nat, n: nat)
    returns (acts: seq<Action>, s: Sys, v: Scene)
    requires -TWO31 <= limit < TWO31
    ensures s == Exec(INIT, acts) && Uncounted(s, v, limit) && s.pool.started[1] == n
  {
    if n == 0 {
      acts, s := Enqueued(limit);
      v := Scene(NewTask(Job(limit), 0), 0, 0, Worker("slow", [], Idle), Worker("quick", [], Idle));
    } else {
      var a1, s1, v1 := RunsUnbounded(limit, timeout, n - 1);
      var a2;
      a2, s, v := LostRound(s1, v1, limit, timeout);
      Join(INIT, a1, s1, a2, s);
      acts := a1 + a2;
    }
  }

  // ----- republishing a running task -----

  /** A pending row that names a worker. */
  predicate NamedPending(db: Db, x: TaskId) {
    x in db.tasks && db.tasks[x].status.Pending? && db.tasks[x].workerId != ""
  }

  lemma NamedByOp(db: Db, l: Ledger, op: Op, x: TaskId)
    requires OpSound(db, l, op) && x in db.tasks && RowSound(db.tasks[x]) && !NamedPending(db, x)
    ensures NamedPending(Apply(db, op), x) <==>
            && op.Update? && op.id == x && op.mutation.Republish?
            && db.tasks[x].status.Running? && db.tasks[x].workerId != ""
  {
  }

  lemma NamingOps(s: Sys, a: Action, x: TaskId)
    requires WorkersSound(s) && x in s.db.tasks && s.db.tasks[x].status.Running?
    ensures var op := OpOf(s, a);
            op.Update? && op.id == x && op.mutation.Republish? <==> x !in Locked(s) && a == RepublishTask(x)
  {
    if a.Commit? && a.w in s.pool.workers {
      assert WorkerSound(s, s.pool.workers[a.w]);
    }
  }

  lemma NamedNow(s: Sys, a: Action, x: TaskId)
    requires Inv(s) && x in s.db.tasks && !NamedPending(s.db, x)
    ensures NamedPending(Apply(s.db, OpOf(s, a)), x) <==> Names(s, a, x)
  {
    OpIsSound(s, a);
    assert RowSound(s.db.tasks[x]);
    NamedByOp(s.db, s.ledger, OpOf(s, a), x);
    if s.db.tasks[x].status.Running? {
      NamingOps(s, a, x);
    }
  }

  /** In every reachable state, exactly one action makes a stored row a pending one that names a
      worker: a Republish of that row while it is running and names one. */
  lemma NamedPendingIff(acts: seq<Action>, a: Action, x: TaskId)
    requires x in Exec(INIT, acts).db.tasks && !NamedPending(Exec(INIT, acts).db, x)
    ensures var s := Exec(INIT, acts); NamedPending(Next(s, a).db, x) <==> Names(s, a, x)
  {
    var s := Exec(INIT, acts);
    ReachableInv(s);
    NamedNow(s, a, x);
  }

  /** Republish takes effect on a running row that names a worker. */
  predicate Names(s: Sys, a: Action, x: TaskId) {
    && a == RepublishTask(x) && x in s.db.tasks && x !in Locked(s)
    && s.db.tasks[x].status.Running? && s.db.tasks[x].workerId != ""
  }

  /** The row is pending now and after every action of the run. */
  ghost predicate PendingThroughout(s: Sys, acts: seq<Action>, x: TaskId)
    decreases |acts|
  {
    && StatusOf(s.db, x) == Some(Pending)
    && (acts == [] || PendingThroughout(Next(s, acts[0]), acts[1..], x))
  }

  /** Some Republish of the run hit the row while it was running under a worker's name, and it
      has been pending ever since. */
  ghost predicate NamedDuring(s: Sys, acts: seq<Action>, x: TaskId)
    decreases |acts|
  {
    && acts != []
    && var n := Next(s, acts[0]);
       (Names(s, acts[0], x) && PendingThroughout(n, acts[1..], x)) || NamedDuring(n, acts[1..], x)
  }

  lemma NamedStays(db: Db, l: Ledger, op: Op, x: TaskId)
    requires OpSound(db, l, op) && NamedPending(db, x) && StatusOf(Apply(db, op), x) == Some(Pending)
    ensures NamedPending(Apply(db, op), x)
  {
  }

  lemma NewRowsAreUnnamed(db: Db, l: Ledger, op: Op, x: TaskId)
    requires OpSound(db, l, op) && x !in db.tasks
    ensures !NamedPending(Apply(db, op), x)
  {
  }

  /** One action more. */
  lemma NamedStep(s: Sys, a: Action, x: TaskId)
    requires Inv(s)
    ensures var db := Apply(s.db, OpOf(s, a));
            NamedPending(db, x) <==> Names(s, a, x) || (NamedPending(s.db, x) && StatusOf(db, x) == Some(Pending))
  {
    OpIsSound(s, a);
    if x !in s.db.tasks {
      NewRowsAreUnnamed(s.db, s.ledger, OpOf(s, a), x);
    } else if !NamedPending(s.db, x) {
      NamedNow(s, a, x);
    } else if StatusOf(Apply(s.db, OpOf(s, a)), x) == Some(Pending) {
      NamedStays(s.db, s.ledger, OpOf(s, a), x);
    }
  }

  lemma {:induction false} NamedFrom(s: Sys, acts: seq<Action>, x: TaskId)
    requires Inv(s)
    ensures NamedPending(Exec(s, acts).db, x) <==>
            (NamedPending(s.db, x) && PendingThroughout(s, acts, x)) || NamedDuring(s, acts, x)
    decreases |acts|
  {
    if acts != [] {
      NamedStep(s, acts[0], x);
      NextInv(s, acts[0]);
      NamedFrom(Next(s, acts[0]), acts[1..], x);
    }
  }

  /** Over whole runs: a row is pending and names a worker exactly if some Republish of the run
      hit it while it was running under that name, and it has been pending ever since. */
  lemma NamedRunIff(acts: seq<Action>, x: TaskId)
    ensures NamedPending(Exec(INIT, acts).db, x) <==> NamedDuring(INIT, acts, x)
  {
    InitInv();
    NamedFrom(INIT, acts, x);
  }

  lemma BeatRow(s: Sys, v: Scene)
    requires Shows(s, v) && v.row.status.Running? && v.slow.pc.Executing? && v.slow.pc.id == 1
    ensures Shows(Next(s, Heartbeat(0)), v.(row := v.row.(updatedAt := v.now, workerId := v.slow.name)))
  {
    var t := Next(s, Heartbeat(0));
    assert t.db.tasks == map[1 := v.row.(updatedAt := v.now, workerId := v.slow.name)];
  }

  lemma RepublishedRow(s: Sys, v: Scene)
    requires Shows(s, v) && v.row.status.Running?
    ensures Next(s, RepublishTask(1)).db == Db(map[1 := Judged(v.row, Republish, v.now)], {})
  {
    assert Locked(s) == {};
    assert OpOf(s, RepublishTask(1)) == Update(1, Republish, s.now);
    JudgedRow(s.db, v.row, Republish, v.now);
  }

  /** A run in which Republish takes a task back from the worker executing it, and the pending
      row goes on naming that worker. */
  lemma RepublishedWhileRunning() returns (acts: seq<Action>)
    ensures var s := Exec(INIT, acts);
            && 1 in s.db.tasks && s.db.tasks[1].status.Pending? && s.db.tasks[1].workerId == "slow"
            && PcOf(s, 0).Executing? && PcOf(s, 0).id == 1
  {
    var a1, s1, v1 := Opening(3);
    BeatRow(s1, v1);
    var s2, v2 := Next(s1, Heartbeat(0)), v1.(row := v1.row.(updatedAt := 0, workerId := "slow"));
    RepublishedRow(s2, v2);
    var s3 := Next(s2, RepublishTask(1));
    assert s3.pool == s2.pool;
    OneMore(INIT, a1, Heartbeat(0));
    OneMore(INIT, a1 + [Heartbeat(0)], RepublishTask(1));
    acts := a1 + [Heartbeat(0)] + [RepublishTask(1)];
  }

  /** Exactly when Republish succeeds on an unlocked row: it is failed or running.  The count is
      reset and the worker's name kept. */
  lemma RepublishRunning(s: Sys, x: TaskId)
    requires x in s.db.tasks && x !in Locked(s)
    ensures var db := Apply(s.db, OpOf(s, RepublishTask(x)));
            if s.db.tasks[x].status.Running? || s.db.tasks[x].status.Failed?
            then && x in db.tasks && db.tasks[x].status.Pending?
                 && db.tasks[x].attemptCount == 0 && db.tasks[x].workerId == s.db.tasks[x].workerId
            else db == s.db
  {
  }

  // ----- batch sizes beyond int32 -----

  /** A batch size of 2^32 is LIMIT 0 and one of 2^31 a negative LIMIT: one enqueued task, nothing
      in its way, and no healthy continuation ever completes it; with batch size 1 one does. */
  lemma BatchSizeWraps(c: Setup)
    ensures var s := Exec(INIT, Submit(FIRST, 1));
            && 1 in s.db.tasks && s.db.tasks[1].status.Pending? && Hopeful(s.db, 1)
            && (c.limit == TWO32 || c.limit == TWO31 ==> !Completable(c, s, 1))
            && (c.limit == 1 ==> Completable(c, s, 1))
  {
    AfterFirst();
    var s := Exec(INIT, Submit(FIRST, 1));
    IndependentIsHopeful(s.db, 1);
    CompletableIff(Submit(FIRST, 1), c, 1);
  }

  lemma IndependentIsHopeful(db: Db, x: TaskId)
    requires db.deps == {} && x in db.tasks && db.tasks[x].status.Pending?
    ensures Hopeful(db, x)
  {
    forall p ensures !DependencyChain(db, p) {
      if |p| > 1 {
        assert (p[1 - 1], p[1]) !in db.deps;
      }
    }
  }
}
