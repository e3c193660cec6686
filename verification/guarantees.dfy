/** What holds in every state of every run, for any number of clients, schedulers and workers,
    with duplicate deliveries, stale snapshots and crashes between any two steps. */
module Guarantees {
  import opened Domain
  import opened Store
  import opened Protocol
  import opened TableInvariant
  import opened ActorInvariant
  import Dag
  import Ranking
  import Backoff

  // ----- runs -----

  ghost predicate Reachable(s: Sys) {
    exists acts :: s == Exec(INIT, acts)
  }

  lemma ReachableInv(s: Sys)
    requires Reachable(s)
    ensures Inv(s)
  {
    InitInv();
    var acts :| s == Exec(INIT, acts);
    ExecInv(INIT, acts);
  }

  lemma {:induction false} ExecConcat(s: Sys, a: seq<Action>, b: seq<Action>)
    ensures Exec(s, a + b) == Exec(Exec(s, a), b)
    decreases |a|
  {
    if a == [] {
      assert a + b == b;
    } else {
      ExecConcat(Next(s, a[0]), a[1..], b);
      assert (a + b)[1..] == a[1..] + b;
    }
  }

  // ----- what a run can only add -----

  lemma {:induction false} RunGrows(s: Sys, acts: seq<Action>)
    ensures Grows(s, Exec(s, acts))
    decreases |acts|
  {
    if acts != [] {
      NextGrows(s, acts[0]);
      RunGrows(Next(s, acts[0]), acts[1..]);
      GrowsTrans(s, Next(s, acts[0]), Exec(s, acts));
    }
  }

  lemma GrowsTrans(s: Sys, t: Sys, u: Sys)
    requires Grows(s, t) && Grows(t, u)
    ensures Grows(s, u)
  {
  }

  // ----- what others cannot touch -----

  /** A call of worker w. */
  predicate OfWorker(a: Action, w: nat) {
    (a.Read? || a.Heartbeat? || a.Finish? || a.Commit? || a.Report? || a.Ack? || a.Abandon? || a.Restart?) && a.w == w
  }

  /** What the others do between two calls of worker w. */
  ghost predicate Foreign(acts: seq<Action>, w: nat) {
    forall i :: 0 <= i < |acts| ==> !OfWorker(acts[i], w)
  }

  lemma {:induction false} PcUntouched(s: Sys, env: seq<Action>, w: nat)
    requires Foreign(env, w)
    ensures PcOf(Exec(s, env), w) == PcOf(s, w)
    ensures w in s.pool.workers ==>
              w in Exec(s, env).pool.workers && Exec(s, env).pool.workers[w].name == s.pool.workers[w].name
    decreases |env|
  {
    if env != [] {
      assert !OfWorker(env[0], w);
      PcStep(s, env[0], w);
      PcUntouched(Next(s, env[0]), env[1..], w);
    }
  }

  lemma PcStep(s: Sys, a: Action, w: nat)
    requires !OfWorker(a, w)
    ensures PcOf(Next(s, a), w) == PcOf(s, w)
    ensures w in s.pool.workers ==>
              w in PoolStep(s, a).workers && PoolStep(s, a).workers[w].name == s.pool.workers[w].name
  {
  }

  // ----- one row through one action -----

  /** How an action may change a row that survives it. */
  ghost predicate RowMoved(before: Task, after: Task) {
    && SameIdentity(before, after)
    && (after.status == before.status || MayMove(before.status, after.status))
    && (Terminal(before.status) ==> after == before)
    && before.updatedAt <= after.updatedAt
  }

  lemma RowMoves(s: Sys, a: Action, x: TaskId)
    requires Inv(s) && x in s.db.tasks && x in Next(s, a).db.tasks
    ensures RowMoved(s.db.tasks[x], Next(s, a).db.tasks[x])
  {
    OpIsSound(s, a);
    OpTimes(s, a);
    assert RowSound(s.db.tasks[x]) && RowHistorySound(s, x, s.db.tasks[x]);
    IdentityKept(s.db, OpOf(s, a), x);
    RowMovesOp(s, OpOf(s, a), x);
    OpNow(s, a);
  }

  lemma OpNow(s: Sys, a: Action)
    ensures var op := OpOf(s, a); op.Skip? || op.Purge? || op.Insert? || op.at == s.now
  {
  }

  lemma RowMovesOp(s: Sys, op: Op, x: TaskId)
    requires OpSound(s.db, s.ledger, op) && x in s.db.tasks && x in Apply(s.db, op).tasks
    ensures var b, t := s.db.tasks[x], Apply(s.db, op).tasks[x];
            && (t.status == b.status || MayMove(b.status, t.status))
            && (Terminal(b.status) ==> t == b)
            && (t.updatedAt == b.updatedAt || (!op.Skip? && !op.Purge? && !op.Insert? && t.updatedAt == op.at))
  {
  }

  // ----- status refinement -----

  /** Every step of every run, including the raw SQL of the pick and of the stuck reset, moves
      a row only along the domain's transition table, and rows begin pending. */
  lemma StatusRefinement(acts: seq<Action>, a: Action, x: TaskId)
    requires x in Next(Exec(INIT, acts), a).db.tasks
    ensures var s := Exec(INIT, acts);
            if x in s.db.tasks
            then var from, to := s.db.tasks[x].status, Next(s, a).db.tasks[x].status; from == to || MayMove(from, to)
            else Next(s, a).db.tasks[x].status == Pending
  {
    var s := Exec(INIT, acts);
    ReachableInv(s);
    if x in s.db.tasks {
      RowMoves(s, a, x);
    } else {
      OpIsSound(s, a);
    }
  }

  // ----- at most one completion -----

  /** Completed and cancelled rows are frozen for the rest of the run, until they are deleted;
      a deleted id never returns. */
  lemma {:induction false} TerminalForever(s: Sys, acts: seq<Action>, x: TaskId)
    requires Inv(s) && x in s.ledger.birth
    requires x in s.db.tasks ==> s.db.tasks[x].status == Completed || s.db.tasks[x].status == Cancelled
    ensures var t := Exec(s, acts);
            x in t.db.tasks ==> x in s.db.tasks && t.db.tasks[x] == s.db.tasks[x]
    decreases |acts|
  {
    if acts != [] {
      var n := Next(s, acts[0]);
      NextInv(s, acts[0]);
      BirthAfter(s, acts[0], x);
      if x in n.db.tasks {
        NotReborn(s, acts[0], x);
        RowMoves(s, acts[0], x);
      }
      TerminalForever(n, acts[1..], x);
    }
  }

  lemma {:induction false} CountDistinct(b: seq<TaskId>, x: TaskId)
    requires Dag.Distinct(b)
    ensures multiset(b)[x] == if x in b then 1 else 0
  {
    if b != [] {
      var n := |b| - 1;
      assert b == b[..n] + [b[n]];
      CountDistinct(b[..n], x);
      assert x in b <==> x in b[..n] || x == b[n];
    }
  }

  ghost function StatusOf(db: Db, x: TaskId): Option<Status> {
    if x in db.tasks then Some(db.tasks[x].status) else None
  }

  ghost predicate Moved(db: Db, db': Db, x: TaskId, from: Status, to: Status) {
    StatusOf(db, x) == Some(from) && StatusOf(db', x) == Some(to)
  }

  /** How often a run moves a row between two statuses. */
  ghost function Moves(s: Sys, acts: seq<Action>, x: TaskId, from: Status, to: Status): nat
    decreases |acts|
  {
    if acts == [] then 0
    else (if Moved(s.db, Next(s, acts[0]).db, x, from, to) then 1 else 0) +
         Moves(Next(s, acts[0]), acts[1..], x, from, to)
  }

  lemma MarksAreDistinct(s: Sys, a: Action)
    requires SchedsSound(s) && OpOf(s, a).Mark?
    ensures Dag.Distinct(OpOf(s, a).batch)
  {
    assert SchedSound(s, s.ticker.scheds[a.p]);
  }

  /** The ledger counts exactly the status moves of the tables. */
  lemma LedgerOp(db: Db, l: Ledger, op: Op, x: TaskId)
    requires OpSound(db, l, op)
    requires op.Mark? ==> Dag.Distinct(op.batch)
    ensures var db', l' := Apply(db, op), Record(l, db, op);
            && l'.picks[x] == l.picks[x] + (if Moved(db, db', x, Pending, Running) then 1 else 0)
            && l'.completions[x] == l.completions[x] + (if Moved(db, db', x, Running, Completed) then 1 else 0)
            && l'.failures[x] == l.failures[x] + (if Moved(db, db', x, Running, Failed) then 1 else 0)
  {
    if op.Mark? {
      CountDistinct(op.batch, x);
      assert x in op.batch ==> Ready(db, x);
    }
  }

  lemma {:induction false} LedgerCountsMoves(s: Sys, acts: seq<Action>, x: TaskId)
    requires Inv(s)
    ensures var t := Exec(s, acts);
            && t.ledger.picks[x] == s.ledger.picks[x] + Moves(s, acts, x, Pending, Running)
            && t.ledger.completions[x] == s.ledger.completions[x] + Moves(s, acts, x, Running, Completed)
            && t.ledger.failures[x] == s.ledger.failures[x] + Moves(s, acts, x, Running, Failed)
    decreases |acts|
  {
    if acts != [] {
      NextInv(s, acts[0]);
      OpIsSound(s, acts[0]);
      if OpOf(s, acts[0]).Mark? {
        MarksAreDistinct(s, acts[0]);
      }
      LedgerOp(s.db, s.ledger, OpOf(s, acts[0]), x);
      LedgerCountsMoves(Next(s, acts[0]), acts[1..], x);
    }
  }

  /** No run completes a task twice; a completed row was completed exactly once, with the
      result and by the worker of a handler run on the task's own payload. */
  lemma AtMostOneCompletion(acts: seq<Action>, x: TaskId)
    ensures var s := Exec(INIT, acts);
            && Moves(INIT, acts, x, Running, Completed) <= 1
            && (x in s.db.tasks ==>
                  (s.db.tasks[x].status.Completed? <==> Moves(INIT, acts, x, Running, Completed) == 1))
            && (x in s.db.tasks && s.db.tasks[x].status.Completed? ==>
                  Run(x, s.db.tasks[x].payload, s.db.tasks[x].result, s.db.tasks[x].workerId) in s.pool.runs)
  {
    var s := Exec(INIT, acts);
    InitInv();
    ReachableInv(s);
    LedgerCountsMoves(INIT, acts, x);
    if x in s.ledger.completions {
      assert s.ledger.completions[x] == 1;
    }
    if x in s.db.tasks {
      assert RowHistorySound(s, x, s.db.tasks[x]);
    }
  }

  // ----- identity, attempts and row fields -----

  lemma {:induction false} IdentityForever(s: Sys, acts: seq<Action>, x: TaskId)
    requires Inv(s) && x in s.db.tasks && x in Exec(s, acts).db.tasks
    ensures var t, u := s.db.tasks[x], Exec(s, acts).db.tasks[x];
            && u.kind == t.kind && u.payload == t.payload && u.priority == t.priority
            && u.createdAt == t.createdAt && u.retryLimit == t.retryLimit && u.key == t.key
    decreases |acts|
  {
    if acts != [] {
      var n := Next(s, acts[0]);
      NextInv(s, acts[0]);
      if x in n.db.tasks {
        RowMoves(s, acts[0], x);
        IdentityForever(n, acts[1..], x);
      } else {
        BirthAfter(s, acts[0], x);
        TerminalForever(n, acts[1..], x);
      }
    }
  }

  /** The snapshot a worker works on is bounded like its row, and agrees with it on what never
      changes. */
  ghost predicate SnapshotFits(s: Sys, pc: Pc)
    requires pc.Executing?
  {
    && AttemptsBounded(pc.snap)
    && (pc.id in s.db.tasks ==>
          pc.snap.retryLimit == s.db.tasks[pc.id].retryLimit && pc.snap.payload == s.db.tasks[pc.id].payload)
  }

  lemma SnapshotsFit(s: Sys, w: nat)
    requires WorkersSound(s) && w in s.pool.workers && s.pool.workers[w].pc.Executing?
    ensures SnapshotFits(s, s.pool.workers[w].pc)
  {
    assert WorkerSound(s, s.pool.workers[w]);
  }

  /** Stored attempts stay below the limit whatever stale workers write, no write is truncated
      to 32 bits, and every snapshot agrees with its row on limit and payload. */
  lemma RetryBound(acts: seq<Action>, x: TaskId, w: nat)
    ensures var s := Exec(INIT, acts);
            && (x in s.db.tasks ==>
                  var t := s.db.tasks[x];
                  && (t.attemptCount == 0 || 0 < t.attemptCount < t.retryLimit)
                  && Int32(t.attemptCount) == t.attemptCount)
            && (w in s.pool.workers && s.pool.workers[w].pc.Executing? ==> SnapshotFits(s, s.pool.workers[w].pc))
  {
    var s := Exec(INIT, acts);
    ReachableInv(s);
    if x in s.db.tasks {
      assert RowSound(s.db.tasks[x]);
    }
    if w in s.pool.workers && s.pool.workers[w].pc.Executing? {
      SnapshotsFit(s, w);
    }
  }

  /** No Republish of the run is asked for a running task. */
  ghost predicate RepublishesNoRunning(s: Sys, acts: seq<Action>)
    decreases |acts|
  {
    acts == [] ||
    (&& (acts[0].RepublishTask? && acts[0].id in s.db.tasks ==> s.db.tasks[acts[0].id].status != Running)
     && RepublishesNoRunning(Next(s, acts[0]), acts[1..]))
  }

  lemma {:induction false} StaysStrict(s: Sys, acts: seq<Action>)
    requires s.strictRepublish && RepublishesNoRunning(s, acts)
    ensures Exec(s, acts).strictRepublish
    decreases |acts|
  {
    if acts != [] {
      StaysStrict(Next(s, acts[0]), acts[1..]);
    }
  }

  /** A result exists only on completed rows, failed rows name no worker, and neither do pending
      rows in runs that never republish a running task. */
  lemma RowFields(acts: seq<Action>, x: TaskId)
    requires x in Exec(INIT, acts).db.tasks
    ensures var s := Exec(INIT, acts);
            var t := s.db.tasks[x];
            && (t.result.Some? ==> t.status.Completed?)
            && (t.status.Failed? ==> t.workerId == "")
            && (t.status.Pending? && RepublishesNoRunning(INIT, acts) ==> t.workerId == "")
            && t.updatedAt <= s.now
  {
    var s := Exec(INIT, acts);
    ReachableInv(s);
    assert RowSound(s.db.tasks[x]) && RowHistorySound(s, x, s.db.tasks[x]);
    if RepublishesNoRunning(INIT, acts) {
      StaysStrict(INIT, acts);
    }
  }

  // ----- dependency safety -----

  /** A non-empty chain of stored dependency edges. */
  ghost predicate DependencyChain(db: Db, p: seq<TaskId>) {
    |p| > 1 && forall i :: 0 < i < |p| ==> (p[i - 1], p[i]) in db.deps
  }

  /** The task has left its first pending state, or is in the hands of some actor. */
  ghost predicate Engaged(s: Sys, x: TaskId) {
    || (x in s.db.tasks && Started(s.db.tasks[x]))
    || (exists p :: p in s.ticker.scheds && s.ticker.scheds[p].Publishing? && x in s.ticker.scheds[p].queue)
    || (exists m :: m in s.ticker.stream && s.ticker.stream[m] == x)
    || (exists w :: w in s.pool.workers && !s.pool.workers[w].pc.Idle? && s.pool.workers[w].pc.id == x)
  }

  lemma QueuedIsPicked(s: Sys, p: nat, x: TaskId)
    requires SchedsSound(s) && p in s.ticker.scheds && s.ticker.scheds[p].Publishing? && x in s.ticker.scheds[p].queue
    ensures x in s.ledger.picks
  {
    assert SchedSound(s, s.ticker.scheds[p]);
  }

  lemma HeldIsPicked(s: Sys, w: nat, x: TaskId)
    requires StreamSound(s) && WorkersSound(s) && w in s.pool.workers
    requires !s.pool.workers[w].pc.Idle? && s.pool.workers[w].pc.id == x
    ensures x in s.ledger.picks
  {
    assert WorkerSound(s, s.pool.workers[w]);
  }

  lemma EngagedIsPicked(s: Sys, x: TaskId)
    requires TableInv(s.db, s.ledger) && SchedsSound(s) && StreamSound(s) && WorkersSound(s) && Engaged(s, x)
    ensures x in s.ledger.picks
  {
    if p :| p in s.ticker.scheds && s.ticker.scheds[p].Publishing? && x in s.ticker.scheds[p].queue {
      QueuedIsPicked(s, p, x);
    } else if w :| w in s.pool.workers && !s.pool.workers[w].pc.Idle? && s.pool.workers[w].pc.id == x {
      HeldIsPicked(s, w, x);
    }
  }

  lemma {:induction false} ChainCompleted(s: Sys, p: seq<TaskId>)
    requires Inv(s) && DependencyChain(s.db, p) && p[0] in s.ledger.picks
    ensures p[|p| - 1] in s.db.tasks && s.db.tasks[p[|p| - 1]].status.Completed?
    decreases |p|
  {
    assert (p[0], p[1]) in s.db.deps;
    if |p| > 2 {
      var q := p[1..];
      assert DependencyChain(s.db, q) by {
        forall i | 0 < i < |q| ensures (q[i - 1], q[i]) in s.db.deps {
          assert (p[i], p[i + 1]) in s.db.deps;
        }
      }
      ChainCompleted(s, q);
    }
  }

  /** Whenever a task has started, was retried, failed, or is on its way to a worker, every
      task in its transitive dependency closure is completed. */
  lemma DependencySafety(acts: seq<Action>, p: seq<TaskId>)
    requires DependencyChain(Exec(INIT, acts).db, p) && Engaged(Exec(INIT, acts), p[0])
    ensures var s := Exec(INIT, acts);
            p[|p| - 1] in s.db.tasks && s.db.tasks[p[|p| - 1]].status.Completed?
  {
    var s := Exec(INIT, acts);
    ReachableInv(s);
    EngagedIsPicked(s, p[0]);
    ChainCompleted(s, p);
  }

  /** Against the dependencies a task was declared with, the promise has one hole: cleaning up
      a cancelled dependency drops its edges.  A picked task has all declared dependencies
      completed exactly when none of them was deleted while cancelled. */
  lemma DeclaredDependencies(acts: seq<Action>, x: TaskId)
    requires x in Exec(INIT, acts).ledger.picks
    ensures var l := Exec(INIT, acts).ledger;
            && x in l.declared
            && ((forall d :: d in l.declared[x] ==> d in l.completions) <==>
                (forall d :: d in l.declared[x] ==> d !in l.purgedCancelled))
  {
    var s := Exec(INIT, acts);
    ReachableInv(s);
    forall d | d in s.ledger.declared[x] ensures d in s.ledger.completions <==> d !in s.ledger.purgedCancelled {
      assert PairKept(s.db, s.ledger, x, d);
    }
  }

  /** A non-empty chain of dependencies as they were declared at insertion, deleted rows included. */
  ghost predicate DeclaredChain(l: Ledger, p: seq<TaskId>) {
    |p| > 1 && forall i :: 0 < i < |p| ==> Declares(l, p[i - 1], p[i])
  }

  predicate Declares(l: Ledger, x: TaskId, d: TaskId) {
    x in l.declared && d in l.declared[x]
  }

  lemma {:induction false} DeclaredChainCompleted(s: Sys, p: seq<TaskId>)
    requires TableInv(s.db, s.ledger) && DeclaredChain(s.ledger, p) && p[0] in s.ledger.picks
    requires forall i :: 0 < i < |p| ==> p[i] !in s.ledger.purgedCancelled
    ensures p[|p| - 1] in s.ledger.completions
    decreases |p|
  {
    assert Declares(s.ledger, p[0], p[1]);
    assert PairKept(s.db, s.ledger, p[0], p[1]);
    if |p| > 2 {
      var q := p[1..];
      assert DeclaredChain(s.ledger, q) by {
        forall i | 0 < i < |q| ensures Declares(s.ledger, q[i - 1], q[i]) {
          assert Declares(s.ledger, p[i], p[i + 1]);
        }
      }
      DeclaredChainCompleted(s, q);
    }
  }

  /** x was declared to depend on d, directly or through others. */
  ghost predicate DeclaredOn(l: Ledger, x: TaskId, d: TaskId) {
    exists p :: DeclaredChain(l, p) && p[0] == x && p[|p| - 1] == d
  }

  lemma DeclaredPrefix(l: Ledger, p: seq<TaskId>, i: nat)
    requires DeclaredChain(l, p) && 0 < i < |p|
    ensures DeclaredOn(l, p[0], p[i])
  {
    var q := p[..i + 1];
    assert DeclaredChain(l, q) && q[0] == p[0] && q[|q| - 1] == p[i];
  }

  lemma DeclaredCompletes(s: Sys, x: TaskId, d: TaskId)
    requires TableInv(s.db, s.ledger) && x in s.ledger.picks && DeclaredOn(s.ledger, x, d)
    requires forall y :: DeclaredOn(s.ledger, x, y) ==> y !in s.ledger.purgedCancelled
    ensures d in s.ledger.completions
  {
    var p :| DeclaredChain(s.ledger, p) && p[0] == x && p[|p| - 1] == d;
    forall i | 0 < i < |p| ensures p[i] !in s.ledger.purgedCancelled {
      DeclaredPrefix(s.ledger, p, i);
    }
    DeclaredChainCompleted(s, p);
  }

  /** The same over the whole declared closure: everything a picked task was ever declared to
      depend on, directly or not, is completed exactly when nothing in that closure was deleted
      while cancelled. */
  lemma DeclaredClosure(acts: seq<Action>, x: TaskId)
    requires x in Exec(INIT, acts).ledger.picks
    ensures var l := Exec(INIT, acts).ledger;
            (forall d :: DeclaredOn(l, x, d) ==> d in l.completions) <==>
            (forall d :: DeclaredOn(l, x, d) ==> d !in l.purgedCancelled)
  {
    var s := Exec(INIT, acts);
    ReachableInv(s);
    if forall d :: DeclaredOn(s.ledger, x, d) ==> d !in s.ledger.purgedCancelled {
      forall d | DeclaredOn(s.ledger, x, d) ensures d in s.ledger.completions {
        DeclaredCompletes(s, x, d);
      }
    }
  }

  // ----- acyclicity -----

  /** A graph listing the stored dependencies, as getDeps over task_dependencies returns them. */
  ghost predicate Lists(g: Dag.Graph, db: Db) {
    && g.Keys == db.tasks.Keys
    && forall x, d :: x in g ==> (d in g[x] <==> (x, d) in db.deps)
  }

  lemma {:induction false} PathGetsOlder(s: Sys, g: Dag.Graph, p: seq<TaskId>)
    requires Inv(s) && Lists(g, s.db) && Dag.IsPath(g, p) && |p| > 1
    ensures p[0] in s.ledger.birth && p[|p| - 1] in s.ledger.birth
    ensures s.ledger.birth[p[|p| - 1]] < s.ledger.birth[p[0]]
    decreases |p|
  {
    assert Dag.Edge(g, p[0], p[1]);
    assert (p[0], p[1]) in s.db.deps;
    if |p| > 2 {
      var q := p[1..];
      assert Dag.IsPath(g, q) by {
        forall i | 0 < i < |q| ensures Dag.Edge(g, q[i - 1], q[i]) {
          assert Dag.Edge(g, p[i], p[i + 1]);
        }
      }
      PathGetsOlder(s, g, q);
    }
  }

  /** The stored dependency graph has no cycle in any reachable state, although enqueue never
      runs the cycle check. */
  lemma StoredGraphAcyclic(acts: seq<Action>, g: Dag.Graph, start: TaskId)
    requires Lists(g, Exec(INIT, acts).db)
    ensures !Dag.CycleReachable(g, start)
  {
    var s := Exec(INIT, acts);
    ReachableInv(s);
    if x :| Dag.Reaches(g, start, x) && Dag.OnCycle(g, x) {
      var p :| Dag.IsPath(g, p) && |p| > 1 && p[0] == x && p[|p| - 1] == x;
      PathGetsOlder(s, g, p);
    }
  }

  /** So CheckCycle, run from any id over the stored edges of any reachable state, finds nothing. */
  method CheckStoredGraph(ghost acts: seq<Action>, g: Dag.Graph, start: TaskId) returns (err: Option<TaskId>)
    requires Lists(g, Exec(INIT, acts).db)
    ensures err.None?
  {
    StoredGraphAcyclic(acts, g, start);
    err := Dag.CheckCycle(start, g);
  }

  // ----- idempotent enqueue -----

  /** At most one row carries a non-empty key, and all Handle calls that answered under it
      returned the same id, unless a row was deleted in between. */
  lemma IdempotentEnqueue(acts: seq<Action>, key: string, x: TaskId, y: TaskId)
    requires key != ""
    ensures var s := Exec(INIT, acts);
            && (x in s.db.tasks && y in s.db.tasks && s.db.tasks[x].key == key == s.db.tasks[y].key ==> x == y)
            && ((key, x) in s.api.answers && (key, y) in s.api.answers && x in s.db.tasks && y in s.db.tasks ==> x == y)
            && ((key, x) in s.api.answers && x !in s.db.tasks ==>
                  x in s.ledger.completions || x in s.ledger.purgedCancelled)
  {
    ReachableInv(Exec(INIT, acts));
  }

  // ----- concurrent schedulers -----

  /** The batch is a prefix of a ranking of the eligible unlocked rows by priority and schedule,
      cut at the limit as the cast to int32 leaves it; a negative limit has no batch. */
  ghost predicate IsPrefixPick(s: Sys, limit: int, batch: seq<TaskId>) {
    var keys := PickKeys(s.db, Locked(s), s.now);
    && Int32(limit) >= 0
    && exists r :: Ranking.IsRanking(keys, r) && |r| == |keys| && batch == r[..Min(Int32(limit), |keys|)]
  }

  lemma SelectsPrefixes(s: Sys, p: nat, limit: int, batch: seq<TaskId>)
    requires SchedOf(s, p).Resting?
    ensures SchedOf(Next(s, Select(p, limit, batch)), p) == Selected(batch) <==> IsPrefixPick(s, limit, batch)
  {
    if Int32(limit) >= 0 {
      Ranking.TopIffPrefix(PickKeys(s.db, Locked(s), s.now), Int32(limit), batch);
    }
  }

  /** Open picks hold disjoint batches, and a scheduler at rest can select a batch exactly if it
      is such a prefix. */
  lemma PicksAreDisjointPrefixes(acts: seq<Action>, p: nat, q: nat, limit: int, batch: seq<TaskId>)
    ensures var s := Exec(INIT, acts);
            && (SchedOf(s, p).Selected? && SchedOf(s, q).Selected? && p != q ==>
                  forall x :: x in SchedOf(s, p).batch ==> x !in SchedOf(s, q).batch)
            && (SchedOf(s, p).Resting? ==>
                  (SchedOf(Next(s, Select(p, limit, batch)), p) == Selected(batch) <==> IsPrefixPick(s, limit, batch)))
  {
    var s := Exec(INIT, acts);
    ReachableInv(s);
    if SchedOf(s, p).Resting? {
      SelectsPrefixes(s, p, limit, batch);
    }
  }

  lemma HeldByOne(s: Sys, a: Action, x: TaskId)
    requires Inv(s) && OpOf(s, a).Mark? && x in OpOf(s, a).batch
    ensures a.CommitPick? && SchedOf(s, a.p).Selected? && x in SchedOf(s, a.p).batch
    ensures forall q :: SchedOf(s, q).Selected? && x in SchedOf(s, q).batch ==> q == a.p
    ensures Ready(s.db, x) && s.db.tasks[x].scheduledAt <= s.now
  {
    assert SchedSound(s, s.ticker.scheds[a.p]);
  }

  /** Every pending -> running step is the commit of exactly one open pick that holds the row,
      of a task that is due and whose dependencies are completed. */
  lemma RunningComesFromOnePick(acts: seq<Action>, a: Action, x: TaskId)
    requires Moved(Exec(INIT, acts).db, Next(Exec(INIT, acts), a).db, x, Pending, Running)
    ensures var s := Exec(INIT, acts);
            && a.CommitPick? && SchedOf(s, a.p).Selected? && x in SchedOf(s, a.p).batch
            && (forall q :: SchedOf(s, q).Selected? && x in SchedOf(s, q).batch ==> q == a.p)
            && Ready(s.db, x) && s.db.tasks[x].scheduledAt <= s.now
  {
    var s := Exec(INIT, acts);
    ReachableInv(s);
    OpIsSound(s, a);
    OnlyMarkRuns(s.db, s.ledger, OpOf(s, a), x);
    HeldByOne(s, a, x);
  }

  lemma OnlyMarkRuns(db: Db, l: Ledger, op: Op, x: TaskId)
    requires OpSound(db, l, op) && x in db.tasks && x in Apply(db, op).tasks
    requires !db.tasks[x].status.Running? && Apply(db, op).tasks[x].status.Running?
    ensures op.Mark? && x in op.batch
  {
  }

  // ----- acknowledgements -----

  /** A message is acknowledged only if its holder changed the task on its behalf or read the
      task as finished; in the second case the task is finished for good. */
  lemma AckHasGrounds(acts: seq<Action>, m: nat)
    requires m in Exec(INIT, acts).pool.acked
    ensures var s := Exec(INIT, acts);
            && m in s.ticker.stream
            && ((m, s.ticker.stream[m]) in s.pool.commits ||
                (m in s.pool.seenDone &&
                 (s.ticker.stream[m] in s.db.tasks ==> Terminal(s.db.tasks[s.ticker.stream[m]].status))))
  {
    var s := Exec(INIT, acts);
    ReachableInv(s);
    assert Grounds(s, m);
    if m in s.pool.seenDone {
      assert SeenDone(s, s.ticker.stream[m]);
    }
  }

  // ----- backoff is honoured -----

  /** Until `due`, the task is pending with a schedule no earlier than `due`, or out of play. */
  ghost predicate HeldBack(s: Sys, x: TaskId, due: int) {
    && x in s.ledger.birth
    && (x in s.db.tasks && s.now < due ==>
          || s.db.tasks[x].status.Cancelled?
          || (s.db.tasks[x].status.Pending? && s.db.tasks[x].scheduledAt >= due &&
              forall p :: SchedOf(s, p).Selected? ==> x !in SchedOf(s, p).batch))
  }

  lemma NotMarked(s: Sys, a: Action, x: TaskId, due: int)
    requires HeldBack(s, x, due) && s.now < due && x in s.db.tasks && OpOf(s, a).Mark?
    requires OpSound(s.db, s.ledger, OpOf(s, a))
    ensures x !in OpOf(s, a).batch
  {
    assert SchedOf(s, a.p).Selected?;
    assert x in OpOf(s, a).batch ==> Ready(s.db, x);
  }

  lemma HeldRowKept(s: Sys, a: Action, x: TaskId, due: int)
    requires CallsSound(s) && SchedsSound(s) && WorkersSound(s)
    requires HeldBack(s, x, due) && s.now < due && x in s.db.tasks && x in Apply(s.db, OpOf(s, a)).tasks
    ensures var t := Apply(s.db, OpOf(s, a)).tasks[x];
            t.status.Cancelled? || (t.status.Pending? && t.scheduledAt >= due && s.db.tasks[x].status.Pending?)
  {
    OpIsSound(s, a);
    if OpOf(s, a).Mark? {
      NotMarked(s, a, x, due);
    }
    HeldRow(s.db, s.ledger, OpOf(s, a), x);
  }

  /** No new pick gets hold of a row that is held back. */
  lemma NotSelected(s: Sys, a: Action, x: TaskId, due: int, p: nat)
    requires HeldBack(s, x, due) && s.now < due && x in s.db.tasks && s.db.tasks[x].status.Pending?
    requires SchedOf(Next(s, a), p).Selected?
    ensures x !in SchedOf(Next(s, a), p).batch
  {
    SelectedAfter(s, a, p);
    assert SchedOf(s, p).Selected? ==> x !in SchedOf(s, p).batch;
    if a.Select? && Int32(a.limit) >= 0 {
      OnlyDueIsPicked(s, Int32(a.limit), a.batch, x);
    }
  }

  lemma OnlyDueIsPicked(s: Sys, limit: nat, batch: seq<TaskId>, x: TaskId)
    requires x in s.db.tasks && s.db.tasks[x].scheduledAt > s.now
    ensures Ranking.IsTop(PickKeys(s.db, Locked(s), s.now), limit, batch) ==> x !in batch
  {
    assert x !in PickKeys(s.db, Locked(s), s.now);
  }

  lemma HeldBackKept(s: Sys, a: Action, x: TaskId, due: int)
    requires CallsSound(s) && SchedsSound(s) && WorkersSound(s) && HeldBack(s, x, due)
    ensures HeldBack(Next(s, a), x, due)
  {
    var t := Next(s, a);
    BirthAfter(s, a, x);
    if x in t.db.tasks && t.now < due {
      NotReborn(s, a, x);
      HeldRowKept(s, a, x, due);
      forall p | SchedOf(t, p).Selected? && t.db.tasks[x].status.Pending? ensures x !in SchedOf(t, p).batch {
        NotSelected(s, a, x, due, p);
      }
    }
  }

  lemma HeldRow(db: Db, l: Ledger, op: Op, x: TaskId)
    requires OpSound(db, l, op) && x in db.tasks && x in Apply(db, op).tasks
    requires db.tasks[x].status.Pending? || db.tasks[x].status.Cancelled?
    requires op.Mark? ==> x !in op.batch
    ensures var t := Apply(db, op).tasks[x];
            t.status.Cancelled? || (t.status.Pending? && db.tasks[x].status.Pending? &&
              t.scheduledAt == db.tasks[x].scheduledAt)
  {
  }

  lemma {:induction false} HeldBackForever(s: Sys, acts: seq<Action>, x: TaskId, due: int)
    requires Inv(s) && HeldBack(s, x, due)
    ensures Inv(Exec(s, acts)) && HeldBack(Exec(s, acts), x, due)
    decreases |acts|
  {
    if acts != [] {
      NextInv(s, acts[0]);
      HeldBackKept(s, acts[0], x, due);
      HeldBackForever(Next(s, acts[0]), acts[1..], x, due);
    }
  }

  lemma NotRunBeforeDue(t: Sys, a: Action, x: TaskId, due: int)
    requires Inv(t) && HeldBack(t, x, due) && Moved(t.db, Next(t, a).db, x, Pending, Running)
    ensures t.now >= due
  {
    OpIsSound(t, a);
    OnlyMarkRuns(t.db, t.ledger, OpOf(t, a), x);
    HeldByOne(t, a, x);
  }

  lemma UnlockedIsFree(s: Sys, p: nat, x: TaskId)
    requires x !in Locked(s)
    ensures SchedOf(s, p).Selected? ==> x !in SchedOf(s, p).batch
  {
    if SchedOf(s, p).Selected? && x in SchedOf(s, p).batch {
      LockedMember(s, p, x);
    }
  }

  lemma RetriedRow(s: Sys, w: nat)
    requires PcOf(s, w).Deciding? && PcOf(s, w).mutation.Retry? && Updatable(s, PcOf(s, w).id, PcOf(s, w).mutation)
    ensures var x, db := PcOf(s, w).id, Apply(s.db, OpOf(s, Commit(w)));
            x in db.tasks && db.tasks[x].status.Pending? && db.tasks[x].scheduledAt == PcOf(s, w).mutation.nextAt
    ensures Record(s.ledger, s.db, OpOf(s, Commit(w))) == s.ledger && TickerStep(s, Commit(w)) == s.ticker
  {
  }

  lemma RetriedIsHeld(s: Sys, w: nat)
    requires TableInv(s.db, s.ledger)
    requires PcOf(s, w).Deciding? && PcOf(s, w).mutation.Retry? && Updatable(s, PcOf(s, w).id, PcOf(s, w).mutation)
    ensures HeldBack(Next(s, Commit(w)), PcOf(s, w).id, PcOf(s, w).mutation.nextAt)
  {
    var x := PcOf(s, w).id;
    RetriedRow(s, w);
    forall p ensures SchedOf(s, p).Selected? ==> x !in SchedOf(s, p).batch {
      UnlockedIsFree(s, p, x);
    }
  }

  /** Once a worker commits a retry, no step of any continuation makes the task running before
      the retry's due time, whatever stale workers, resets and republishes do in between. */
  lemma DueTimeHonoured(acts: seq<Action>, w: nat, later: seq<Action>, a: Action, x: TaskId, due: int)
    requires var s := Exec(INIT, acts);
             && PcOf(s, w).Deciding? && PcOf(s, w).mutation.Retry? && Updatable(s, PcOf(s, w).id, PcOf(s, w).mutation)
             && x == PcOf(s, w).id && due == PcOf(s, w).mutation.nextAt
    requires var t := Exec(Next(Exec(INIT, acts), Commit(w)), later);
             Moved(t.db, Next(t, a).db, x, Pending, Running)
    ensures Exec(Next(Exec(INIT, acts), Commit(w)), later).now >= due
  {
    var s := Exec(INIT, acts);
    ReachableInv(s);
    NextInv(s, Commit(w));
    RetriedIsHeld(s, w);
    HeldBackForever(Next(s, Commit(w)), later, x, due);
    NotRunBeforeDue(Exec(Next(s, Commit(w)), later), a, x, due);
  }

  /** The time a retry is scheduled for is the clock reading plus the default backoff. */
  lemma RetryDelay(name: string, snap: Task, o: Outcome, now: int)
    requires Decide(name, snap, o, now).Retry?
    ensures var m := Decide(name, snap, o, now);
            && m.attempt == snap.attemptCount + 1 < snap.retryLimit
            && m.nextAt == now + Min(1_000_000_000 * Backoff.Pow2(Backoff.Clamp(m.attempt)), 300_000_000_000)
  {
    Backoff.DefaultIsExact(snap.attemptCount + 1);
  }

  lemma FinishNow(s: Sys, w: nat, o: Outcome)
    requires PcOf(s, w).Executing?
    ensures var t := Next(s, Finish(w, o));
            && PcOf(t, w).Deciding? && PcOf(t, w).msg == PcOf(s, w).msg && PcOf(t, w).id == PcOf(s, w).id
            && PcOf(t, w).mutation == Decide(s.pool.workers[w].name, PcOf(s, w).snap, o, s.now)
  {
  }

  /** A worker whose handler failed reads the clock, waits for whatever the others do, and
      commits its retry; then no step of any continuation makes the task running before that
      clock reading plus min(2^n s, 300 s), n being the attempt it stored. */
  lemma BackoffHonoured(
      before: seq<Action>, w: nat, o: Outcome, env: seq<Action>, later: seq<Action>, a: Action,
      pc: Pc, n: int, x: TaskId)
    requires pc == PcOf(Exec(INIT, before), w) && pc.Executing? && x == pc.id && Foreign(env, w)
    requires n == pc.snap.attemptCount + 1 < pc.snap.retryLimit && o.Failure? && !o.cancelled
    requires var m := Exec(Next(Exec(INIT, before), Finish(w, o)), env);
             PcOf(m, w).Deciding? ==> Updatable(m, x, PcOf(m, w).mutation)
    requires var m := Exec(Next(Exec(INIT, before), Finish(w, o)), env);
             var t := Exec(Next(m, Commit(w)), later);
             Moved(t.db, Next(t, a).db, x, Pending, Running)
    ensures var m := Exec(Next(Exec(INIT, before), Finish(w, o)), env);
            Exec(Next(m, Commit(w)), later).now >=
            Exec(INIT, before).now + Min(1_000_000_000 * Backoff.Pow2(Backoff.Clamp(n)), 300_000_000_000)
  {
    var s := Exec(INIT, before);
    var f := Next(s, Finish(w, o));
    AsksForRetry(s, w, o, pc, n);
    PcUntouched(f, env, w);
    var run := before + [Finish(w, o)] + env;
    RunWithEnv(before, Finish(w, o), env);
    DueTimeHonoured(run, w, later, a, x, PcOf(f, w).mutation.nextAt);
  }

  lemma AsksForRetry(s: Sys, w: nat, o: Outcome, pc: Pc, n: int)
    requires pc == PcOf(s, w) && pc.Executing?
    requires n == pc.snap.attemptCount + 1 < pc.snap.retryLimit && o.Failure? && !o.cancelled
    ensures var d := PcOf(Next(s, Finish(w, o)), w);
            && d.Deciding? && d.id == pc.id && d.mutation.Retry?
            && d.mutation.nextAt ==
               s.now + Min(1_000_000_000 * Backoff.Pow2(Backoff.Clamp(n)), 300_000_000_000)
  {
    FinishNow(s, w, o);
    RetryDelay(s.pool.workers[w].name, pc.snap, o, s.now);
  }

  lemma RunWithEnv(before: seq<Action>, a: Action, env: seq<Action>)
    ensures Exec(INIT, before + [a] + env) == Exec(Next(Exec(INIT, before), a), env)
  {
    ExecConcat(INIT, before, [a]);
    ExecConcat(INIT, before + [a], env);
    assert [a][1..] == [];
    assert Exec(Exec(INIT, before), [a]) == Exec(Next(Exec(INIT, before), a), []);
  }
}
