/** No deadlock: a task can be driven to completion by ordinary progress of the system exactly
    when nothing in its dependency closure has failed or been cancelled. */
module Liveness {
  import opened Domain
  import opened Store
  import opened Protocol
  import opened TableInvariant
  import opened ActorInvariant
  import opened Guarantees
  import Ranking

  /** The configuration of a healthy continuation: batch size, stuck timeout, one scheduler and
      one worker process that keep going, and where the consumer group stands in the stream. */
  datatype Setup = Setup(limit: int, timeout: int, p: nat, w: nat, cursor: nat)

  /** An entry the group has yet to hand out. */
  predicate Waiting(c: Setup, s: Sys, m: nat) {
    m in s.ticker.stream && m >= c.cursor && m !in s.pool.delivered
  }

  /** The one it hands out next: XREADGROUP goes through the stream in order. */
  ghost predicate NextInLine(c: Setup, s: Sys, m: nat) {
    Waiting(c, s, m) && forall n :: Waiting(c, s, n) ==> m <= n
  }

  /** Ordinary progress: time, ticks whose publishes succeed under ever larger ids, stuck checks,
      and one worker that starts, receives entries in stream order, each for the first time, and
      whose handlers succeed.  Nothing depends on a redelivery. */
  ghost predicate Healthy(c: Setup, s: Sys, a: Action) {
    match a
    case Clock(_) => true
    case Select(p, limit, _) => p == c.p && limit == c.limit
    case CommitPick(_) => true
    case Publish(p, entry) =>
      p == c.p && entry.Some? && entry.value >= c.cursor && forall n :: n in s.ticker.stream ==> n < entry.value
    case Deliver(w, m) => w == c.w && NextInLine(c, s, m)
    case Read(w) => w == c.w
    case Finish(w, o) => w == c.w && o.Success?
    case Commit(w) => w == c.w
    case Ack(w) => w == c.w
    case Restart(w, _) => w == c.w
    case ResetStuck(timeout) => timeout == c.timeout
    case _ => false
  }

  ghost predicate HealthyRun(c: Setup, s: Sys, acts: seq<Action>)
    decreases |acts|
  {
    acts == [] || (Healthy(c, s, acts[0]) && HealthyRun(c, Next(s, acts[0]), acts[1..]))
  }

  ghost predicate Leads(c: Setup, s: Sys, acts: seq<Action>, t: Sys) {
    t == Exec(s, acts) && HealthyRun(c, s, acts)
  }

  /** Time and the work of schedulers whose publishes succeed. */
  predicate OnlyTicks(acts: seq<Action>) {
    forall i :: 0 <= i < |acts| ==>
      acts[i].Clock? || acts[i].Select? || acts[i].CommitPick? || (acts[i].Publish? && acts[i].entry.Some?)
  }

  lemma TicksThen(a: seq<Action>, b: seq<Action>)
    requires OnlyTicks(a) && OnlyTicks(b)
    ensures OnlyTicks(a + b)
  {
  }

  lemma {:induction false} Then(c: Setup, s: Sys, a: seq<Action>, t: Sys, b: seq<Action>, u: Sys)
    requires Leads(c, s, a, t) && Leads(c, t, b, u)
    ensures Leads(c, s, a + b, u)
    decreases |a|
  {
    if a == [] {
      assert a + b == b;
    } else {
      Then(c, Next(s, a[0]), a[1..], t, b, u);
      assert (a + b)[1..] == a[1..] + b;
    }
  }

  lemma One(c: Setup, s: Sys, a: Action)
    requires Healthy(c, s, a)
    ensures Leads(c, s, [a], Next(s, a))
  {
    assert [a][1..] == [];
    assert Exec(Next(s, a), []) == Next(s, a);
    assert HealthyRun(c, Next(s, a), []);
  }

  predicate Spoiled(st: Status) {
    st.Failed? || st.Cancelled?
  }

  /** Nothing is created, deleted, completed backwards or newly spoiled on the way. */
  ghost predicate Progress(s: Sys, t: Sys) {
    && t.db.deps == s.db.deps
    && t.db.tasks.Keys == s.db.tasks.Keys
    && t.ledger.birth == s.ledger.birth
    && forall x :: x in s.db.tasks ==> KeepsHope(s.db.tasks[x], t.db.tasks[x])
  }

  predicate KeepsHope(a: Task, b: Task) {
    (a.status.Completed? ==> b.status.Completed?) && (Spoiled(b.status) ==> Spoiled(a.status))
  }

  lemma ProgressTrans(s: Sys, t: Sys, u: Sys)
    requires Progress(s, t) && Progress(t, u)
    ensures Progress(s, u)
  {
  }

  /** Neither the task nor anything it transitively depends on has failed or been cancelled. */
  ghost predicate Hopeful(db: Db, x: TaskId) {
    && x in db.tasks && !Spoiled(db.tasks[x].status)
    && forall p :: DependencyChain(db, p) && p[0] == x ==>
         p[|p| - 1] in db.tasks && !Spoiled(db.tasks[p[|p| - 1]].status)
  }

  lemma HopeKept(s: Sys, t: Sys, x: TaskId)
    requires Progress(s, t) && Hopeful(s.db, x)
    ensures Hopeful(t.db, x)
  {
    forall p | DependencyChain(t.db, p) && p[0] == x
      ensures p[|p| - 1] in t.db.tasks && !Spoiled(t.db.tasks[p[|p| - 1]].status)
    {
      assert DependencyChain(s.db, p);
    }
  }

  lemma HopeOfDependency(db: Db, x: TaskId, d: TaskId)
    requires Hopeful(db, x) && (x, d) in db.deps
    ensures Hopeful(db, d)
  {
    assert DependencyChain(db, [x, d]);
    forall p | DependencyChain(db, p) && p[0] == d
      ensures p[|p| - 1] in db.tasks && !Spoiled(db.tasks[p[|p| - 1]].status)
    {
      var q := [x] + p;
      assert DependencyChain(db, q);
      assert q[|q| - 1] == p[|p| - 1];
    }
  }

  /** Everybody at rest: no open pick, the scheduler idle, the worker idle with an empty inbox. */
  ghost predicate Rested(c: Setup, s: Sys) {
    && NoOpenPick(s)
    && SchedOf(s, c.p).Resting?
    && c.w in s.pool.workers && s.pool.workers[c.w].pc.Idle? && s.pool.workers[c.w].inbox == []
  }

  ghost predicate NoOpenPick(s: Sys) {
    forall q :: q in s.ticker.scheds ==> !s.ticker.scheds[q].Selected?
  }

  // ----- one stage at a time -----

  /** A healthy stretch from rest to rest. */
  ghost predicate Advances(c: Setup, s: Sys, acts: seq<Action>, t: Sys) {
    Leads(c, s, acts, t) && Rested(c, t) && Progress(s, t)
  }

  lemma Wait(c: Setup, s: Sys, until: int) returns (acts: seq<Action>, t: Sys)
    ensures Leads(c, s, acts, t) && OnlyTicks(acts) && t == s.(now := t.now) && t.now >= until && t.now >= s.now
  {
    var a := Clock(if until > s.now then until - s.now else 0);
    acts, t := [a], Next(s, a);
    One(c, s, a);
  }

  lemma ResetFrees(s: Sys, x: TaskId, timeout: int)
    requires x in s.db.tasks && s.db.tasks[x].status.Running? && s.db.tasks[x].updatedAt + timeout < s.now
    ensures var t := Next(s, ResetStuck(timeout));
            Progress(s, t) && x in t.db.tasks && t.db.tasks[x].status.Pending?
  {
  }

  lemma ResetFrame(s: Sys, timeout: int)
    ensures var t := Next(s, ResetStuck(timeout)); t.ticker == s.ticker && t.pool == s.pool
  {
  }

  /** A running task, lost or not, is returned to pending by waiting for the stuck check. */
  lemma Recover(c: Setup, s: Sys, x: TaskId) returns (acts: seq<Action>, t: Sys)
    requires Rested(c, s) && x in s.db.tasks && s.db.tasks[x].status.Running?
    ensures Advances(c, s, acts, t)
    ensures t.db.tasks[x].status.Pending?
  {
    var first, m := Wait(c, s, s.db.tasks[x].updatedAt + c.timeout + 1);
    var a := ResetStuck(c.timeout);
    ResetFrees(m, x, c.timeout);
    ResetFrame(m, c.timeout);
    t := Next(m, a);
    One(c, m, a);
    acts := first + [a];
    Then(c, s, first, m, [a], t);
  }

  lemma {:induction false} Bound(used: set<nat>) returns (m: nat)
    ensures forall x :: x in used ==> x < m
  {
    if used == {} {
      return 0;
    }
    var x :| x in used;
    var r := Bound(used - {x});
    m := if x < r then r else x + 1;
    assert forall y :: y in used ==> y == x || y in used - {x};
  }

  /** An entry for x has yet to be handed out. */
  ghost predicate Announced(c: Setup, s: Sys, x: TaskId) {
    exists m :: Waiting(c, s, m) && s.ticker.stream[m] == x
  }

  /** Only posted entries were delivered. */
  predicate Tidy(s: Sys) {
    s.pool.delivered <= s.ticker.stream.Keys
  }

  /** The publish of one tick's next task under the message id m. */
  lemma PublishEffect(c: Setup, s: Sys, m: nat)
    requires SchedOf(s, c.p).Publishing? && SchedOf(s, c.p).queue != [] && m !in s.ticker.stream
    ensures var q, t := SchedOf(s, c.p).queue, Next(s, Publish(c.p, Some(m)));
            && t == s.(ticker := t.ticker) && t.ticker.stream == s.ticker.stream[m := q[0]]
            && t.ticker.scheds == s.ticker.scheds[c.p := Queue(q[1..])]
  {
  }

  lemma AnnouncedStays(c: Setup, s: Sys, t: Sys, m: nat, y: TaskId)
    requires m !in s.ticker.stream && m >= c.cursor && t.ticker.stream == s.ticker.stream[m := y]
    requires t.pool == s.pool && Tidy(s)
    ensures Tidy(t) && Announced(c, t, y)
    ensures forall x :: Announced(c, s, x) ==> Announced(c, t, x)
  {
    assert Waiting(c, t, m);
    forall x | Announced(c, s, x) ensures Announced(c, t, x) {
      var n :| Waiting(c, s, n) && s.ticker.stream[n] == x;
      assert Waiting(c, t, n);
    }
  }

  /** A successful publish under a fresh message id. */
  lemma PublishOne(c: Setup, s: Sys) returns (a: Action, t: Sys)
    requires Tidy(s) && SchedOf(s, c.p).Publishing? && SchedOf(s, c.p).queue != []
    ensures Healthy(c, s, a) && OnlyTicks([a]) && t == Next(s, a)
    ensures t == s.(ticker := t.ticker) && Tidy(t)
    ensures t.ticker.scheds == s.ticker.scheds[c.p := Queue(SchedOf(s, c.p).queue[1..])]
    ensures Announced(c, t, SchedOf(s, c.p).queue[0])
    ensures forall x :: Announced(c, s, x) ==> Announced(c, t, x)
  {
    var m := Bound(s.ticker.stream.Keys + {c.cursor});
    assert c.cursor in s.ticker.stream.Keys + {c.cursor};
    assert forall n :: n in s.ticker.stream ==> n in s.ticker.stream.Keys + {c.cursor};
    a := Publish(c.p, Some(m));
    t := Next(s, a);
    PublishEffect(c, s, m);
    AnnouncedStays(c, s, t, m, SchedOf(s, c.p).queue[0]);
  }

  /** The publish loop of a tick, to its end. */
  lemma {:induction false} PublishAll(c: Setup, s: Sys) returns (acts: seq<Action>, t: Sys)
    requires Tidy(s) && !SchedOf(s, c.p).Selected?
    requires SchedOf(s, c.p).Publishing? ==> SchedOf(s, c.p).queue != []
    ensures Leads(c, s, acts, t) && OnlyTicks(acts) && SchedOf(t, c.p).Resting?
    ensures t == s.(ticker := t.ticker) && Tidy(t)
    ensures forall q :: q != c.p ==> SchedOf(t, q) == SchedOf(s, q)
    ensures NoOpenPick(s) ==> NoOpenPick(t)
    ensures forall x :: Announced(c, s, x) ==> Announced(c, t, x)
    ensures SchedOf(s, c.p).Publishing? ==> forall x :: x in SchedOf(s, c.p).queue ==> Announced(c, t, x)
    decreases if SchedOf(s, c.p).Publishing? then |SchedOf(s, c.p).queue| else 0
  {
    if SchedOf(s, c.p).Resting? {
      return [], s;
    }
    var queue := SchedOf(s, c.p).queue;
    var a, m := PublishOne(c, s);
    One(c, s, a);
    var rest;
    rest, t := PublishAll(c, m);
    acts := [a] + rest;
    Then(c, s, [a], m, rest, t);
    forall x | x in queue ensures Announced(c, t, x) {
      assert x == queue[0] || x in queue[1..];
    }
  }

  ghost function PendingIds(db: Db): set<TaskId> {
    set x | x in db.tasks && db.tasks[x].status.Pending?
  }

  ghost predicate Due(s: Sys, x: TaskId) {
    Ready(s.db, x) && s.db.tasks[x].scheduledAt <= s.now
  }

  lemma NothingLocked(s: Sys)
    requires NoOpenPick(s)
    ensures Locked(s) == {}
  {
  }

  /** While something is due, a tick's query returns a non-empty batch. */
  lemma BatchExists(s: Sys, limit: nat, x: TaskId) returns (batch: seq<TaskId>)
    requires EdgesAged(s.db, s.ledger) && limit >= 1 && Due(s, x) && x !in Locked(s)
    ensures Ranking.IsTop(PickKeys(s.db, Locked(s), s.now), limit, batch)
    ensures batch != [] && forall y :: y in batch ==> Due(s, y)
  {
    var keys := PickKeys(s.db, Locked(s), s.now);
    assert x in keys;
    batch := Ranking.TopExists(keys, limit);
    assert |keys| >= 1 by { assert keys.Keys >= {x}; assert |keys.Keys| == |keys|; }
    forall y | y in batch ensures Due(s, y) {
      assert y in keys;
      EligibleIsReady(s, y);
    }
  }

  lemma SelectThenCommit(s: Sys, p: nat, limit: int, batch: seq<TaskId>)
    requires SchedOf(s, p).Resting? && Int32(limit) >= 0
    requires Ranking.IsTop(PickKeys(s.db, Locked(s), s.now), Int32(limit), batch)
    ensures var t := Next(Next(s, Select(p, limit, batch)), CommitPick(p));
            && t == s.(db := Apply(s.db, Mark(batch, s.now)), ledger := t.ledger, ticker := t.ticker)
            && t.ticker == s.ticker.(scheds := s.ticker.scheds[p := Queue(batch)])
            && t.ledger.birth == s.ledger.birth
  {
    SelectEffect(s, p, limit, batch);
    var m := Next(s, Select(p, limit, batch));
    CommitEffect(m, p, batch);
    Requeued(s, m, p, batch);
  }

  lemma Requeued(s: Sys, m: Sys, p: nat, batch: seq<TaskId>)
    requires m.ticker == SetSched(s, p, Selected(batch))
    ensures SetSched(m, p, Queue(batch)) == s.ticker.(scheds := s.ticker.scheds[p := Queue(batch)])
  {
  }

  lemma SelectEffect(s: Sys, p: nat, limit: int, batch: seq<TaskId>)
    requires SchedOf(s, p).Resting? && Int32(limit) >= 0
    requires Ranking.IsTop(PickKeys(s.db, Locked(s), s.now), Int32(limit), batch)
    ensures Next(s, Select(p, limit, batch)) == s.(ticker := SetSched(s, p, Selected(batch)))
  {
  }

  lemma CommitEffect(s: Sys, p: nat, batch: seq<TaskId>)
    requires SchedOf(s, p) == Selected(batch)
    ensures var t := Next(s, CommitPick(p));
            && t == s.(db := Apply(s.db, Mark(batch, s.now)), ledger := t.ledger,
                       ticker := SetSched(s, p, Queue(batch)))
            && t.ledger.birth == s.ledger.birth
  {
  }

  lemma Pick(c: Setup, s: Sys, x: TaskId) returns (batch: seq<TaskId>, t: Sys)
    requires EdgesAged(s.db, s.ledger) && Int32(c.limit) >= 1 && Rested(c, s) && Due(s, x)
    ensures Leads(c, s, [Select(c.p, c.limit, batch), CommitPick(c.p)], t)
    ensures t == s.(db := Apply(s.db, Mark(batch, s.now)), ledger := t.ledger, ticker := t.ticker)
    ensures t.ticker == s.ticker.(scheds := s.ticker.scheds[c.p := Queue(batch)])
    ensures t.ledger.birth == s.ledger.birth
    ensures batch != [] && forall y :: y in batch ==> Due(s, y)
  {
    NothingLocked(s);
    batch := BatchExists(s, Int32(c.limit), x);
    SelectThenCommit(s, c.p, c.limit, batch);
    var a, b := Select(c.p, c.limit, batch), CommitPick(c.p);
    t := Next(Next(s, a), b);
    One(c, s, a);
    One(c, Next(s, a), b);
    Then(c, s, [a], Next(s, a), [b], t);
    assert [a] + [b] == [a, b];
  }

  lemma MarkProgress(s: Sys, t: Sys, batch: seq<TaskId>)
    requires t.db == Apply(s.db, Mark(batch, s.now)) && t.ledger.birth == s.ledger.birth
    requires forall y :: y in batch ==> Due(s, y)
    ensures Progress(s, t)
    ensures PendingIds(t.db) == PendingIds(s.db) - set y | y in batch
    ensures forall y :: y in batch ==> y in t.db.tasks && t.db.tasks[y].status.Running?
  {
  }

  lemma TickOutcome(c: Setup, s: Sys, t: Sys, x: TaskId, batch: seq<TaskId>)
    requires Due(s, x) && batch != [] && (forall y :: y in batch ==> Due(s, y) && Announced(c, t, y))
    requires t.db == Apply(s.db, Mark(batch, s.now)) && t.now == s.now && t.ledger.birth == s.ledger.birth
    ensures Progress(s, t) && PendingIds(t.db) < PendingIds(s.db)
    ensures Due(t, x) || (t.db.tasks[x].status.Running? && Announced(c, t, x))
  {
    MarkProgress(s, t, batch);
    assert batch[0] in PendingIds(s.db) by { assert Due(s, batch[0]); }
    if x !in batch {
      StillReady(s.db, batch, s.now, x);
    }
  }

  /** One whole tick. */
  lemma Tick(c: Setup, s: Sys, x: TaskId) returns (acts: seq<Action>, t: Sys)
    requires EdgesAged(s.db, s.ledger) && Tidy(s)
    requires Int32(c.limit) >= 1 && Rested(c, s) && Due(s, x)
    ensures Advances(c, s, acts, t) && OnlyTicks(acts) && t.pool == s.pool
    ensures PendingIds(t.db) < PendingIds(s.db)
    ensures Due(t, x) || (t.db.tasks[x].status.Running? && Announced(c, t, x))
  {
    var batch, m := Pick(c, s, x);
    var pick := [Select(c.p, c.limit, batch), CommitPick(c.p)];
    var rest;
    rest, t := PublishAll(c, m);
    acts := pick + rest;
    Then(c, s, pick, m, rest, t);
    TicksThen(pick, rest);
    TickOutcome(c, s, t, x, batch);
  }

  lemma StillReady(db: Db, batch: seq<TaskId>, at: int, x: TaskId)
    requires Ready(db, x) && x !in batch
    requires forall y :: y in batch ==> Ready(db, y)
    ensures Ready(Apply(db, Mark(batch, at)), x)
    ensures Apply(db, Mark(batch, at)).tasks[x] == db.tasks[x]
  {
  }

  lemma LeadsInv(c: Setup, s: Sys, acts: seq<Action>, t: Sys)
    requires Inv(s) && Leads(c, s, acts, t)
    ensures Inv(t)
  {
    ExecInv(s, acts);
  }

  /** Ticks until x itself is picked: each one shrinks the set of pending tasks. */
  lemma {:induction false} TickUntilPicked(c: Setup, s: Sys, x: TaskId) returns (acts: seq<Action>, t: Sys)
    requires Inv(s) && Int32(c.limit) >= 1 && Rested(c, s) && Due(s, x)
    ensures Leads(c, s, acts, t) && OnlyTicks(acts) && Rested(c, t) && Progress(s, t) && t.pool == s.pool
    ensures t.db.tasks[x].status.Running? && Announced(c, t, x)
    decreases PendingIds(s.db)
  {
    acts, t := Tick(c, s, x);
    if Due(t, x) {
      LeadsInv(c, s, acts, t);
      var more, u := TickUntilPicked(c, t, x);
      TicksThen(acts, more);
      Then(c, s, acts, t, more, u);
      ProgressTrans(s, t, u);
      acts, t := acts + more, u;
    }
  }

  // ----- one worker, one message -----

  /** What the worker makes of an entry it reads. */
  function Looked(s: Sys, m: nat, x: TaskId): Pc {
    if x !in s.db.tasks then Idle
    else if Terminal(s.db.tasks[x].status) then Acking(m, x)
    else Executing(m, x, s.db.tasks[x])
  }

  lemma Receive(s: Sys, w: nat, m: nat, x: TaskId)
    requires w in s.pool.workers && s.pool.workers[w].pc.Idle? && s.pool.workers[w].inbox == []
    requires m in s.ticker.stream && m !in s.pool.acked && s.ticker.stream[m] == x
    ensures var t, k := Next(Next(s, Deliver(w, m)), Read(w)), Worker(s.pool.workers[w].name, [], Looked(s, m, x));
            && t == s.(pool := t.pool)
            && t.pool.workers == s.pool.workers[w := k] && t.pool.delivered == s.pool.delivered + {m}
            && t.pool.acked == s.pool.acked && t.pool.dlq == s.pool.dlq && t.pool.started == s.pool.started
  {
    var k := s.pool.workers[w];
    var n := Next(s, Deliver(w, m));
    assert k.inbox + [m] == [m];
    assert n == s.(pool := SetWorker(s, w, k.(inbox := [m])).(delivered := s.pool.delivered + {m}));
    assert n.pool.workers[w].inbox[1..] == [];
  }

  lemma Succeed(s: Sys, w: nat, m: nat, x: TaskId)
    requires PcOf(s, w).Executing? && PcOf(s, w).msg == m && PcOf(s, w).id == x && x !in Locked(s)
    requires x in s.db.tasks && s.db.tasks[x].status.Running?
    ensures var name := s.pool.workers[w].name;
            var t := Next(Next(s, Finish(w, Success(None))), Commit(w));
            && t.db == Apply(s.db, Update(x, Complete(None, name), s.now))
            && t.ticker == s.ticker && t.now == s.now && t.ledger.birth == s.ledger.birth
            && t.pool.workers == s.pool.workers[w := s.pool.workers[w].(pc := Acking(m, x))]
            && t.pool.delivered == s.pool.delivered
  {
    var n := Next(s, Finish(w, Success(None)));
    assert n == s.(pool := n.pool);
    assert n.pool.workers[w].pc == Deciding(m, x, Complete(None, s.pool.workers[w].name));
    assert Locked(n) == Locked(s);
    assert Updatable(n, x, Complete(None, s.pool.workers[w].name));
  }

  /** A handler that succeeds on a task that is not running has its completion refused. */
  lemma InVain(s: Sys, w: nat, x: TaskId)
    requires PcOf(s, w).Executing? && PcOf(s, w).id == x && x !in Locked(s)
    requires x in s.db.tasks && !s.db.tasks[x].status.Running?
    ensures var t := Next(Next(s, Finish(w, Success(None))), Commit(w));
            && t == s.(pool := t.pool) && t.pool.delivered == s.pool.delivered
            && t.pool.workers == s.pool.workers[w := s.pool.workers[w].(pc := Idle)]
  {
    var n := Next(s, Finish(w, Success(None)));
    assert n == s.(pool := n.pool);
    assert n.pool.workers[w].pc.Deciding? && n.pool.workers[w].pc.mutation.Complete?;
    assert Locked(n) == Locked(s);
  }

  lemma CompletionProgress(s: Sys, t: Sys, x: TaskId, name: string)
    requires x in s.db.tasks && s.db.tasks[x].status.Running?
    requires t.db == Apply(s.db, Update(x, Complete(None, name), s.now)) && t.ledger.birth == s.ledger.birth
    ensures Progress(s, t) && Touched(s.db, t.db, x)
  {
  }

  /** Of the rows, at most that of x changed, and it is completed if it was running. */
  ghost predicate Touched(db: Db, db': Db, x: TaskId) {
    && (forall y :: y in db.tasks && y != x ==> y in db'.tasks && db'.tasks[y] == db.tasks[y])
    && (x in db.tasks && db.tasks[x].status.Running? ==> x in db'.tasks && db'.tasks[x].status.Completed?)
  }

  lemma AckFrame(s: Sys, w: nat)
    requires PcOf(s, w).Acking?
    ensures var t := Next(s, Ack(w));
            && t == s.(pool := t.pool) && t.pool.delivered == s.pool.delivered
            && t.pool.workers == s.pool.workers[w := s.pool.workers[w].(pc := Idle)]
  {
  }

  /** What a stretch of work on the entry of x may change. */
  ghost predicate Worked(c: Setup, s: Sys, acts: seq<Action>, t: Sys, x: TaskId) {
    && Leads(c, s, acts, t) && Progress(s, t) && Touched(s.db, t.db, x)
    && t.ticker == s.ticker && t.pool.delivered == s.pool.delivered
    && c.w in s.pool.workers && t.pool.workers == s.pool.workers[c.w := s.pool.workers[c.w].(pc := Idle)]
  }

  lemma LetGo(c: Setup, s: Sys, m: nat, x: TaskId) returns (acts: seq<Action>, t: Sys)
    requires PcOf(s, c.w) == Acking(m, x) && (x in s.db.tasks ==> !s.db.tasks[x].status.Running?)
    ensures Worked(c, s, acts, t, x)
  {
    AckFrame(s, c.w);
    One(c, s, Ack(c.w));
    acts, t := [Ack(c.w)], Next(s, Ack(c.w));
  }

  /** From an executing worker to an idle one. */
  lemma Conclude(c: Setup, s: Sys, m: nat, x: TaskId) returns (acts: seq<Action>, t: Sys)
    requires PcOf(s, c.w).Executing? && PcOf(s, c.w).msg == m && PcOf(s, c.w).id == x && x !in Locked(s)
    requires x in s.db.tasks
    ensures Worked(c, s, acts, t, x)
  {
    var n;
    acts, n := Two(c, s, Finish(c.w, Success(None)), Commit(c.w));
    t := n;
    if s.db.tasks[x].status.Running? {
      Succeed(s, c.w, m, x);
      CompletionProgress(s, n, x, s.pool.workers[c.w].name);
      var last;
      last, t := LetGo(c, n, m, x);
      WorkedOn(c, s, acts, n, Acking(m, x), last, t, x);
      acts := acts + last;
    } else {
      InVain(s, c.w, x);
    }
  }

  lemma WorkedOn(c: Setup, s: Sys, a: seq<Action>, m: Sys, pc: Pc, b: seq<Action>, t: Sys, x: TaskId)
    requires Leads(c, s, a, m) && Progress(s, m) && Touched(s.db, m.db, x) && Worked(c, m, b, t, x)
    requires x in s.db.tasks && s.db.tasks[x].status.Running?
    requires m.ticker == s.ticker && m.pool.delivered == s.pool.delivered && c.w in s.pool.workers
    requires m.pool.workers == s.pool.workers[c.w := s.pool.workers[c.w].(pc := pc)]
    ensures Worked(c, s, a + b, t, x)
  {
    Then(c, s, a, m, b, t);
    ProgressTrans(s, m, t);
  }

  /** The worker receives the next entry in line and deals with it, whatever it is. */
  lemma ServeNext(c: Setup, s: Sys, m: nat, x: TaskId) returns (acts: seq<Action>, t: Sys)
    requires DeliveriesSound(s) && Rested(c, s) && NextInLine(c, s, m) && x == s.ticker.stream[m]
    ensures Advances(c, s, acts, t) && Touched(s.db, t.db, x)
    ensures t.ticker == s.ticker && t.pool.delivered == s.pool.delivered + {m}
  {
    UndeliveredIsUnheld(s, m);
    Receive(s, c.w, m, x);
    var first, n := Two(c, s, Deliver(c.w, m), Read(c.w));
    var second;
    second, t := DealWith(c, n, m, x);
    acts := first + second;
    Then(c, s, first, n, second, t);
  }

  /** From any state of a read entry to an idle worker. */
  lemma DealWith(c: Setup, s: Sys, m: nat, x: TaskId) returns (acts: seq<Action>, t: Sys)
    requires NoOpenPick(s) && c.w in s.pool.workers && PcOf(s, c.w) == Looked(s, m, x)
    ensures Worked(c, s, acts, t, x)
  {
    if x !in s.db.tasks {
      acts, t := [], s;
      assert s.pool.workers[c.w := s.pool.workers[c.w].(pc := Idle)] == s.pool.workers;
    } else if Terminal(s.db.tasks[x].status) {
      acts, t := LetGo(c, s, m, x);
    } else {
      NothingLocked(s);
      acts, t := Conclude(c, s, m, x);
    }
  }

  ghost function Line(c: Setup, s: Sys): set<nat> {
    set m | m in s.ticker.stream && Waiting(c, s, m)
  }

  lemma {:induction false} Least(ids: set<nat>) returns (m: nat)
    requires ids != {}
    ensures m in ids && forall n :: n in ids ==> m <= n
  {
    var x :| x in ids;
    m := x;
    if ids != {x} {
      var r := Least(ids - {x});
      m := if r < x then r else x;
      assert forall n :: n in ids ==> n == x || n in ids - {x};
    }
  }

  lemma FirstInLine(c: Setup, s: Sys, x: TaskId) returns (m: nat)
    requires Announced(c, s, x)
    ensures NextInLine(c, s, m)
  {
    var k :| Waiting(c, s, k) && s.ticker.stream[k] == x;
    assert k in Line(c, s);
    m := Least(Line(c, s));
    forall n | Waiting(c, s, n) ensures m <= n {
      assert n in Line(c, s);
    }
  }

  lemma LineAdvances(c: Setup, s: Sys, t: Sys, m: nat)
    requires t.ticker == s.ticker && t.pool.delivered == s.pool.delivered + {m} && Waiting(c, s, m)
    ensures Line(c, t) < Line(c, s)
    ensures forall x :: Announced(c, s, x) && x != s.ticker.stream[m] ==> Announced(c, t, x)
  {
    assert m in Line(c, s) && m !in Line(c, t);
    forall x | Announced(c, s, x) && x != s.ticker.stream[m] ensures Announced(c, t, x) {
      var n :| Waiting(c, s, n) && s.ticker.stream[n] == x;
      assert Waiting(c, t, n);
    }
  }

  /** The worker goes through the stream until it has completed x. */
  lemma {:induction false} Work(c: Setup, s: Sys, x: TaskId) returns (acts: seq<Action>, t: Sys)
    requires Inv(s) && Rested(c, s) && x in s.db.tasks && s.db.tasks[x].status.Running? && Announced(c, s, x)
    ensures Advances(c, s, acts, t)
    ensures t.db.tasks[x].status.Completed?
    decreases Line(c, s)
  {
    var m := FirstInLine(c, s, x);
    var y := s.ticker.stream[m];
    acts, t := ServeNext(c, s, m, y);
    if y != x {
      LineAdvances(c, s, t, m);
      LeadsInv(c, s, acts, t);
      var more, u := Work(c, t, x);
      Onward(c, s, acts, t, more, u);
      acts, t := acts + more, u;
    }
  }

  lemma Two(c: Setup, s: Sys, a: Action, b: Action) returns (acts: seq<Action>, t: Sys)
    requires Healthy(c, s, a) && Healthy(c, Next(s, a), b)
    ensures Leads(c, s, acts, t) && t == Next(Next(s, a), b)
  {
    One(c, s, a);
    One(c, Next(s, a), b);
    acts, t := [a] + [b], Next(Next(s, a), b);
    Then(c, s, [a], Next(s, a), [b], t);
  }

  // ----- the whole continuation -----

  /** Drives a pending task with completed dependencies through pick and worker. */
  lemma Drive(c: Setup, s: Sys, x: TaskId) returns (acts: seq<Action>, t: Sys)
    requires Inv(s) && Int32(c.limit) >= 1 && Rested(c, s) && Ready(s.db, x)
    ensures Advances(c, s, acts, t)
    ensures t.db.tasks[x].status.Completed?
  {
    var a1, s1 := Wait(c, s, s.db.tasks[x].scheduledAt);
    LeadsInv(c, s, a1, s1);
    var a2, s2 := TickUntilPicked(c, s1, x);
    Then(c, s, a1, s1, a2, s2);
    LeadsInv(c, s, a1 + a2, s2);
    var a3, s3 := Work(c, s2, x);
    Then(c, s, a1 + a2, s2, a3, s3);
    ProgressTrans(s1, s2, s3);
    acts, t := a1 + a2 + a3, s3;
  }

  lemma DependencyIsOlder(s: Sys, x: TaskId, d: TaskId)
    requires Inv(s) && (x, d) in s.db.deps
    ensures x in s.ledger.birth && d in s.ledger.birth && s.ledger.birth[d] < s.ledger.birth[x]
  {
  }

  ghost predicate AllCompleted(db: Db, ids: set<TaskId>) {
    forall d :: d in ids ==> d in db.tasks && db.tasks[d].status.Completed?
  }

  lemma Stay(c: Setup, s: Sys)
    requires Rested(c, s)
    ensures Advances(c, s, [], s)
  {
  }

  lemma Onward(c: Setup, s: Sys, a: seq<Action>, m: Sys, b: seq<Action>, t: Sys)
    requires Advances(c, s, a, m) && Advances(c, m, b, t)
    ensures Advances(c, s, a + b, t)
  {
    Then(c, s, a, m, b, t);
    ProgressTrans(s, m, t);
  }

  ghost predicate Promising(c: Setup, s: Sys, x: TaskId) {
    x in s.ledger.birth && Inv(s) && Int32(c.limit) >= 1 && Rested(c, s) && Hopeful(s.db, x)
  }

  /** Completes every listed dependency of x in turn. */
  lemma {:induction false} FinishAll(c: Setup, s: Sys, x: TaskId, open: set<TaskId>) returns (acts: seq<Action>, t: Sys)
    requires Promising(c, s, x)
    requires forall d :: d in open ==> (x, d) in s.db.deps
    ensures Advances(c, s, acts, t) && AllCompleted(t.db, open)
    decreases s.ledger.birth[x], 1, open
  {
    if open == {} {
      acts, t := [], s;
      Stay(c, s);
      return;
    }
    var d :| d in open;
    var first, m := FinishOne(c, s, x, d);
    var rest;
    rest, t := FinishAll(c, m, x, open - {d});
    acts := first + rest;
    Onward(c, s, first, m, rest, t);
    OneMoreCompleted(m, t, open, d);
  }

  lemma {:induction false} FinishOne(c: Setup, s: Sys, x: TaskId, d: TaskId) returns (acts: seq<Action>, t: Sys)
    requires Promising(c, s, x) && (x, d) in s.db.deps
    ensures Advances(c, s, acts, t) && Promising(c, t, x) && t.ledger.birth == s.ledger.birth && t.db.deps == s.db.deps
    ensures d in t.db.tasks && t.db.tasks[d].status.Completed?
    decreases s.ledger.birth[x], 0
  {
    HopeOfDependency(s.db, x, d);
    DependencyIsOlder(s, x, d);
    acts, t := Finishable(c, s, d);
    LeadsInv(c, s, acts, t);
    HopeKept(s, t, x);
  }

  lemma OneMoreCompleted(s: Sys, t: Sys, open: set<TaskId>, d: TaskId)
    requires Progress(s, t) && d in s.db.tasks && s.db.tasks[d].status.Completed?
    requires AllCompleted(t.db, open - {d})
    ensures AllCompleted(t.db, open)
  {
    forall y | y in open ensures y in t.db.tasks && t.db.tasks[y].status.Completed? {
      assert y == d || y in open - {d};
    }
  }

  lemma NowReady(s: Sys, t: Sys, x: TaskId, open: set<TaskId>)
    requires Progress(s, t) && x in t.db.tasks && t.db.tasks[x].status.Pending?
    requires open == set e | e in s.db.deps && e.0 == x :: e.1
    requires AllCompleted(t.db, open)
    ensures Ready(t.db, x)
  {
    forall e | e in t.db.deps && e.0 == x ensures e.1 in t.db.tasks && t.db.tasks[e.1].status.Completed? {
      assert e.1 in open;
    }
  }

  lemma StillCompleted(s: Sys, t: Sys, open: set<TaskId>)
    requires Progress(s, t) && AllCompleted(s.db, open)
    ensures AllCompleted(t.db, open)
  {
  }

  /** Dependencies first, by age; then a stuck reset if the task is running; then the drive. */
  lemma {:induction false} Finishable(c: Setup, s: Sys, x: TaskId) returns (acts: seq<Action>, t: Sys)
    requires Inv(s) && Int32(c.limit) >= 1 && Rested(c, s) && Hopeful(s.db, x)
    ensures Advances(c, s, acts, t)
    ensures t.db.tasks[x].status.Completed?
    decreases s.ledger.birth[x], 2
  {
    var open := set e | e in s.db.deps && e.0 == x :: e.1;
    acts, t := FinishAll(c, s, x, open);
    if t.db.tasks[x].status.Completed? {
      return;
    }
    LeadsInv(c, s, acts, t);
    HopeKept(s, t, x);
    if t.db.tasks[x].status.Running? {
      var a, u := Recover(c, t, x);
      Then(c, s, acts, t, a, u);
      ProgressTrans(s, t, u);
      StillCompleted(t, u, open);
      acts, t := acts + a, u;
      LeadsInv(c, s, acts, t);
    }
    NowReady(s, t, x, open);
    var b, v := Drive(c, t, x);
    Then(c, s, acts, t, b, v);
    ProgressTrans(s, t, v);
    acts, t := acts + b, v;
  }

  // ----- from any state -----

  ghost function OpenPicks(s: Sys): set<nat> {
    set q | q in s.ticker.scheds && s.ticker.scheds[q].Selected?
  }

  lemma CloseOne(s: Sys, q: nat)
    requires Inv(s) && q in OpenPicks(s)
    ensures var t := Next(s, CommitPick(q));
            && Progress(s, t) && t.pool == s.pool && t.ticker.stream == s.ticker.stream
            && t.ticker.scheds == s.ticker.scheds[q := Queue(s.ticker.scheds[q].batch)]
            && OpenPicks(t) == OpenPicks(s) - {q}
  {
    var t := Next(s, CommitPick(q));
    var batch := s.ticker.scheds[q].batch;
    assert t.ticker.scheds == s.ticker.scheds[q := Queue(batch)];
    assert SchedSound(s, s.ticker.scheds[q]);
    MarkProgress(s, t, batch);
  }

  lemma NoneOpen(s: Sys)
    requires OpenPicks(s) == {}
    ensures NoOpenPick(s)
  {
    forall q | q in s.ticker.scheds ensures !s.ticker.scheds[q].Selected? {
      assert q !in OpenPicks(s);
    }
  }

  lemma CloseStep(c: Setup, s: Sys, q: nat)
    requires Inv(s) && q in OpenPicks(s) && SchedOf(s, c.p).Resting?
    ensures var m := Next(s, CommitPick(q));
            Committed(c, s, [CommitPick(q)], m) && OpenPicks(m) < OpenPicks(s)
  {
    CloseOne(s, q);
    One(c, s, CommitPick(q));
    forall x | Going(s, x) ensures Going(Next(s, CommitPick(q)), x) {
      GoesOnGoing(s, q, x);
    }
  }

  /** Open pick transactions of other schedulers commit. */
  lemma {:induction false} CloseAll(c: Setup, s: Sys, open: set<nat>) returns (acts: seq<Action>, t: Sys)
    requires Inv(s) && SchedOf(s, c.p).Resting? && open == OpenPicks(s)
    ensures Committed(c, s, acts, t) && OpenPicks(t) == {}
    decreases open
  {
    if open == {} {
      acts, t := [], s;
    } else {
      var q :| q in open;
      CloseStep(c, s, q);
      NextInv(s, CommitPick(q));
      var m := Next(s, CommitPick(q));
      var rest, u := CloseAll(c, m, OpenPicks(m));
      acts, t := [CommitPick(q)] + rest, u;
      Closes(c, s, [CommitPick(q)], m, rest, u);
    }
  }

  /** Nothing but scheduler work, and no new message. */
  ghost predicate Committed(c: Setup, s: Sys, acts: seq<Action>, t: Sys) {
    && Leads(c, s, acts, t) && OnlyTicks(acts) && Progress(s, t)
    && t.pool == s.pool && t.ticker.stream == s.ticker.stream && SchedOf(t, c.p).Resting?
    && forall x :: Going(s, x) ==> Going(t, x)
  }

  /** The task is running, or held by a pick that is about to make it so. */
  ghost predicate Going(s: Sys, x: TaskId) {
    x in s.db.tasks && (s.db.tasks[x].status.Running? || x in Locked(s))
  }

  lemma GoesOnGoing(s: Sys, q: nat, x: TaskId)
    requires q in OpenPicks(s) && Going(s, x)
    ensures Going(Next(s, CommitPick(q)), x)
  {
    var t := Next(s, CommitPick(q));
    if x in Locked(s) && x !in s.ticker.scheds[q].batch {
      var p :| p in s.ticker.scheds && s.ticker.scheds[p].Selected? && x in s.ticker.scheds[p].batch;
      assert p in t.ticker.scheds && t.ticker.scheds[p] == s.ticker.scheds[p];
      LockedMember(t, p, x);
    }
  }

  lemma Closes(c: Setup, s: Sys, a: seq<Action>, m: Sys, b: seq<Action>, t: Sys)
    requires Committed(c, s, a, m) && Committed(c, m, b, t)
    ensures Committed(c, s, a + b, t)
  {
    Then(c, s, a, m, b, t);
    ProgressTrans(s, m, t);
    TicksThen(a, b);
  }

  lemma StartFrame(s: Sys, w: nat, name: string)
    requires w !in s.pool.workers
    ensures var t := Next(s, Restart(w, name));
            && Progress(s, t) && t.ticker == s.ticker && t.db == s.db && t.pool.delivered == s.pool.delivered
            && t.pool.workers == s.pool.workers[w := Worker(name, [], Idle)]
  {
  }

  /** The setup fits a state: a scheduler at rest, a worker that has yet to join, and a group
      that stands past everything it ever handed out. */
  ghost predicate Fresh(c: Setup, s: Sys) {
    SchedOf(s, c.p).Resting? && c.w !in s.pool.workers && forall m :: m in s.pool.delivered ==> m < c.cursor
  }

  /** Open picks are committed and the worker joins. */
  lemma Assemble(c: Setup, s: Sys) returns (acts: seq<Action>, t: Sys)
    requires Inv(s) && Fresh(c, s)
    ensures Advances(c, s, acts, t)
    ensures forall x :: Going(s, x) && Announced(c, s, x) ==> t.db.tasks[x].status.Running? && Announced(c, t, x)
  {
    var first, m := CloseAll(c, s, OpenPicks(s));
    NoneOpen(m);
    var start := Restart(c.w, "worker");
    StartFrame(m, c.w, "worker");
    One(c, m, start);
    acts, t := first + [start], Next(m, start);
    Then(c, s, first, m, [start], t);
    ProgressTrans(s, m, t);
    NothingLocked(m);
    forall x | Going(s, x) && Announced(c, s, x) ensures t.db.tasks[x].status.Running? && Announced(c, t, x) {
      var k :| Waiting(c, s, k) && s.ticker.stream[k] == x;
      assert Waiting(c, t, k) && Going(m, x);
    }
  }

  /** From every reachable state, with a batch size that is at least one after its cast to
      int32, every task without a failed or cancelled task in its dependency closure has a
      healthy continuation in which it completes. */
  lemma NoDeadlock(before: seq<Action>, c: Setup, x: TaskId) returns (acts: seq<Action>, t: Sys)
    requires var s := Exec(INIT, before); Fresh(c, s) && Int32(c.limit) >= 1 && Hopeful(s.db, x)
    ensures Leads(c, Exec(INIT, before), acts, t)
    ensures x in t.db.tasks && t.db.tasks[x].status.Completed?
  {
    var s := Exec(INIT, before);
    ReachableInv(s);
    var first, m := Assemble(c, s);
    LeadsInv(c, s, first, m);
    HopeKept(s, m, x);
    var rest;
    rest, t := Finishable(c, m, x);
    acts := first + rest;
    Then(c, s, first, m, rest, t);
  }

  ghost predicate AllHopeful(db: Db, ids: set<TaskId>) {
    forall x :: x in ids ==> Hopeful(db, x)
  }

  lemma {:induction false} CompleteEach(c: Setup, s: Sys, open: set<TaskId>) returns (acts: seq<Action>, t: Sys)
    requires Inv(s) && Int32(c.limit) >= 1 && Rested(c, s) && AllHopeful(s.db, open)
    ensures Advances(c, s, acts, t) && AllCompleted(t.db, open)
    decreases open
  {
    if open == {} {
      acts, t := [], s;
      Stay(c, s);
      return;
    }
    var d :| d in open;
    var first, m := Finishable(c, s, d);
    LeadsInv(c, s, first, m);
    forall x | x in open - {d} ensures Hopeful(m.db, x) {
      HopeKept(s, m, x);
    }
    var rest;
    rest, t := CompleteEach(c, m, open - {d});
    acts := first + rest;
    Onward(c, s, first, m, rest, t);
    OneMoreCompleted(m, t, open, d);
  }

  /** One healthy continuation completes every task that has a chance at all. */
  lemma EveryoneCompletes(before: seq<Action>, c: Setup) returns (acts: seq<Action>, t: Sys)
    requires Fresh(c, Exec(INIT, before)) && Int32(c.limit) >= 1
    ensures Leads(c, Exec(INIT, before), acts, t)
    ensures forall x :: Hopeful(Exec(INIT, before).db, x) ==> x in t.db.tasks && t.db.tasks[x].status.Completed?
  {
    var s := Exec(INIT, before);
    ReachableInv(s);
    var first, m := Assemble(c, s);
    LeadsInv(c, s, first, m);
    var open := set x | x in s.db.tasks && Hopeful(s.db, x);
    forall x | x in open ensures Hopeful(m.db, x) {
      HopeKept(s, m, x);
    }
    var rest;
    rest, t := CompleteEach(c, m, open);
    acts := first + rest;
    Then(c, s, first, m, rest, t);
    forall x | Hopeful(s.db, x) ensures x in t.db.tasks && t.db.tasks[x].status.Completed? {
      assert x in open;
    }
  }

  // ----- and only then -----

  /** A chain of stored edges, possibly of length zero, from x to a failed or cancelled task. */
  ghost predicate DoomedBy(db: Db, p: seq<TaskId>) {
    && |p| > 0
    && (forall i :: 0 < i < |p| ==> (p[i - 1], p[i]) in db.deps)
    && p[|p| - 1] in db.tasks && Spoiled(db.tasks[p[|p| - 1]].status)
  }

  lemma NotHopefulIsDoomed(s: Sys, x: TaskId) returns (p: seq<TaskId>)
    requires Inv(s) && x in s.db.tasks && !Hopeful(s.db, x)
    ensures DoomedBy(s.db, p) && p[0] == x
  {
    if Spoiled(s.db.tasks[x].status) {
      p := [x];
    } else {
      p :| DependencyChain(s.db, p) && p[0] == x &&
           !(p[|p| - 1] in s.db.tasks && !Spoiled(s.db.tasks[p[|p| - 1]].status));
      var n := |p| - 1;
      assert (p[n - 1], p[n]) in s.db.deps;
    }
  }

  lemma DoomedIsNotCompleted(s: Sys, p: seq<TaskId>)
    requires Inv(s) && DoomedBy(s.db, p)
    ensures p[0] in s.db.tasks && !s.db.tasks[p[0]].status.Completed?
  {
    if |p| > 1 {
      assert (p[0], p[1]) in s.db.deps;
      if s.db.tasks[p[0]].status.Completed? {
        assert Started(s.db.tasks[p[0]]);
        ChainCompleted(s, p);
      }
    }
  }

  /** The joining worker never decides anything but completion. */
  predicate OnlySucceeds(c: Setup, s: Sys) {
    PcOf(s, c.w).Deciding? ==> PcOf(s, c.w).mutation.Complete?
  }

  lemma OnlySucceedsKept(c: Setup, s: Sys, a: Action)
    requires OnlySucceeds(c, s) && Healthy(c, s, a)
    ensures OnlySucceeds(c, Next(s, a))
  {
  }

  lemma HealthyOps(c: Setup, s: Sys, a: Action)
    requires OnlySucceeds(c, s) && Healthy(c, s, a)
    ensures var op := OpOf(s, a);
            op.Skip? || op.Mark? || op.Reset? || (op.Update? && op.mutation.Complete? && PcOf(s, c.w).Deciding?)
  {
  }

  lemma SpoiledOp(db: Db, l: Ledger, op: Op, d: TaskId)
    requires OpSound(db, l, op) && d in db.tasks && Spoiled(db.tasks[d].status)
    requires !op.Purge? && (op.Update? ==> op.mutation.Complete?)
    ensures d in Apply(db, op).tasks && Spoiled(Apply(db, op).tasks[d].status)
    ensures db.deps <= Apply(db, op).deps
  {
  }

  lemma DoomKept(c: Setup, s: Sys, a: Action, p: seq<TaskId>)
    requires CallsSound(s) && SchedsSound(s) && WorkersSound(s)
    requires OnlySucceeds(c, s) && Healthy(c, s, a) && DoomedBy(s.db, p)
    ensures DoomedBy(Apply(s.db, OpOf(s, a)), p)
  {
    OpIsSound(s, a);
    HealthyOps(c, s, a);
    SpoiledOp(s.db, s.ledger, OpOf(s, a), p[|p| - 1]);
  }

  lemma {:induction false} DoomedForever(c: Setup, s: Sys, acts: seq<Action>, p: seq<TaskId>)
    requires Inv(s) && OnlySucceeds(c, s) && DoomedBy(s.db, p) && HealthyRun(c, s, acts)
    ensures DoomedBy(Exec(s, acts).db, p)
    decreases |acts|
  {
    if acts != [] {
      NextInv(s, acts[0]);
      OnlySucceedsKept(c, s, acts[0]);
      DoomKept(c, s, acts[0], p);
      DoomedForever(c, Next(s, acts[0]), acts[1..], p);
    }
  }

  /** With a batch size of zero or less after the cast, what still gets a task completed is an
      entry that is already in the stream, and a pick that is already made. */
  ghost predicate Viable(c: Setup, s: Sys, x: TaskId) {
    Going(s, x) && Announced(c, s, x)
  }

  /** The continuation's scheduler picks and publishes nothing. */
  predicate Barren(c: Setup, s: Sys) {
    SchedOf(s, c.p).Resting? || SchedOf(s, c.p) == Selected([])
  }

  /** Its worker has nothing of x. */
  predicate Uninvolved(c: Setup, s: Sys, x: TaskId) {
    c.w in s.pool.workers ==> NothingOf(s.pool.workers[c.w], s.ticker.stream, x)
  }

  predicate NothingOf(k: Worker, stream: map<nat, TaskId>, x: TaskId) {
    (k.pc.Idle? || k.pc.id != x) && forall m :: m in k.inbox && m in stream ==> stream[m] != x
  }

  /** x is out of reach: not running and never to be, or without an entry. */
  ghost predicate Stuck(c: Setup, s: Sys, x: TaskId) {
    && Barren(c, s) && x in s.db.tasks && !s.db.tasks[x].status.Completed?
    && (!Going(s, x) || (!Announced(c, s, x) && Uninvolved(c, s, x)))
  }

  lemma BarrenStays(c: Setup, s: Sys, a: Action)
    requires Int32(c.limit) < 1 && Healthy(c, s, a) && Barren(c, s)
    ensures var t := TickerStep(s, a);
            && (c.p in t.scheds ==> t.scheds[c.p].Resting? || t.scheds[c.p] == Selected([]))
            && t.stream == s.ticker.stream
            && forall q :: q in t.scheds && t.scheds[q].Selected? && t.scheds[q] != Selected([]) ==>
                 q in s.ticker.scheds && s.ticker.scheds[q] == t.scheds[q]
  {
  }

  lemma LocksShrink(c: Setup, s: Sys, a: Action)
    requires Int32(c.limit) < 1 && Healthy(c, s, a) && Barren(c, s)
    ensures Locked(Next(s, a)) <= Locked(s)
  {
    BarrenStays(c, s, a);
    var t := Next(s, a);
    forall x | x in Locked(t) ensures x in Locked(s) {
      var q :| q in t.ticker.scheds && t.ticker.scheds[q].Selected? && x in t.ticker.scheds[q].batch;
      LockedMember(s, q, x);
    }
  }

  /** A row that is not going stays as it is, up to a mark on others. */
  lemma NotGoingRow(c: Setup, s: Sys, a: Action, x: TaskId)
    requires Healthy(c, s, a) && x in s.db.tasks && !s.db.tasks[x].status.Running? && x !in Locked(s)
    requires !s.db.tasks[x].status.Completed?
    ensures var db := Apply(s.db, OpOf(s, a));
            x in db.tasks && !db.tasks[x].status.Running? && !db.tasks[x].status.Completed?
  {
    if OpOf(s, a).Mark? && x in OpOf(s, a).batch {
      LockedMember(s, a.p, x);
    }
  }

  lemma ReadsNothingOf(s: Sys, w: nat, x: TaskId)
    requires w in s.pool.workers && NothingOf(s.pool.workers[w], s.ticker.stream, x)
    ensures NothingOf(ReadStep(s, w, s.pool.workers[w]).workers[w], s.ticker.stream, x)
  {
    var k := s.pool.workers[w];
    assert k.inbox != [] ==> k.inbox[0] in k.inbox;
  }

  lemma GetsNothingOf(s: Sys, w: nat, m: nat, x: TaskId)
    requires w in s.pool.workers && NothingOf(s.pool.workers[w], s.ticker.stream, x)
    requires m in s.ticker.stream ==> s.ticker.stream[m] != x
    ensures NothingOf(DeliverStep(s, w, s.pool.workers[w], m).workers[w], s.ticker.stream, x)
  {
  }

  /** Whatever else a worker does, it takes up nothing. */
  lemma TakesUpNothing(s: Sys, a: Action, w: nat, x: TaskId)
    requires w in s.pool.workers && NothingOf(s.pool.workers[w], s.ticker.stream, x)
    requires Acts(a, w) && !a.Read? && !a.Deliver?
    ensures w in PoolStep(s, a).workers && NothingOf(PoolStep(s, a).workers[w], s.ticker.stream, x)
  {
  }

  lemma UninvolvedStays(c: Setup, s: Sys, a: Action, x: TaskId)
    requires Healthy(c, s, a) && !Announced(c, s, x) && Uninvolved(c, s, x)
    ensures c.w in PoolStep(s, a).workers ==> NothingOf(PoolStep(s, a).workers[c.w], s.ticker.stream, x)
  {
    if c.w !in s.pool.workers {
      if c.w in PoolStep(s, a).workers {
        NewWorkerIsFree(s, a, c.w);
      }
    } else if !Acts(a, c.w) {
      BystanderStays(s, a, c.w);
    } else if a.Deliver? {
      assert Waiting(c, s, a.msg);
      GetsNothingOf(s, c.w, a.msg, x);
    } else if a.Read? {
      ReadsNothingOf(s, c.w, x);
    } else {
      TakesUpNothing(s, a, c.w, x);
    }
  }

  lemma NewWorkerIsFree(s: Sys, a: Action, w: nat)
    requires w !in s.pool.workers && w in PoolStep(s, a).workers
    ensures PoolStep(s, a).workers[w].pc.Idle? && PoolStep(s, a).workers[w].inbox == []
  {
  }

  lemma UninvolvedRow(c: Setup, s: Sys, a: Action, x: TaskId)
    requires Healthy(c, s, a) && Uninvolved(c, s, x) && x in s.db.tasks && !s.db.tasks[x].status.Completed?
    ensures var db := Apply(s.db, OpOf(s, a)); x in db.tasks && !db.tasks[x].status.Completed?
  {
  }

  lemma StuckStays(c: Setup, s: Sys, a: Action, x: TaskId)
    requires WorkersSound(s) && Int32(c.limit) < 1 && Healthy(c, s, a) && Stuck(c, s, x)
    ensures Stuck(c, Next(s, a), x)
  {
    BarrenStays(c, s, a);
    if !Going(s, x) {
      NotGoingRow(c, s, a, x);
      LocksShrink(c, s, a);
    } else {
      UninvolvedStays(c, s, a, x);
      UninvolvedRow(c, s, a, x);
      NoNewEntries(c, s, a, x);
    }
  }

  lemma NoNewEntries(c: Setup, s: Sys, a: Action, x: TaskId)
    requires TickerStep(s, a).stream == s.ticker.stream && !Announced(c, s, x)
    ensures !Announced(c, Next(s, a), x)
  {
    forall m | Waiting(c, Next(s, a), m) ensures s.ticker.stream[m] != x {
      DeliveredAfter(s, a, m);
      assert Waiting(c, s, m);
    }
  }

  lemma {:induction false} NothingCompletes(c: Setup, s: Sys, acts: seq<Action>, x: TaskId)
    requires Inv(s) && Int32(c.limit) < 1 && Stuck(c, s, x) && HealthyRun(c, s, acts)
    ensures Stuck(c, Exec(s, acts), x)
    decreases |acts|
  {
    if acts != [] {
      StuckStays(c, s, acts[0], x);
      NextInv(s, acts[0]);
      NothingCompletes(c, Next(s, acts[0]), acts[1..], x);
    }
  }

  /** The state to reach. */
  ghost predicate Completable(c: Setup, s: Sys, x: TaskId) {
    exists acts, t :: Leads(c, s, acts, t) && x in t.db.tasks && t.db.tasks[x].status.Completed?
  }

  /** What a caller can check: with a working batch size, that nothing in the closure is spoiled;
      without one, that a pick and an entry are already there. */
  ghost predicate Promised(c: Setup, s: Sys, x: TaskId) {
    if Int32(c.limit) >= 1 then Hopeful(s.db, x) else Viable(c, s, x)
  }

  lemma NotCompletable(c: Setup, s: Sys, x: TaskId)
    requires Inv(s) && Fresh(c, s) && x in s.db.tasks && !s.db.tasks[x].status.Completed?
    requires !Promised(c, s, x)
    ensures !Completable(c, s, x)
  {
    forall acts, t | Leads(c, s, acts, t) ensures !(x in t.db.tasks && t.db.tasks[x].status.Completed?) {
      if Int32(c.limit) < 1 {
        NothingCompletes(c, s, acts, x);
      } else {
        var p := NotHopefulIsDoomed(s, x);
        DoomedForever(c, s, acts, p);
        LeadsInv(c, s, acts, t);
        DoomedIsNotCompleted(t, p);
      }
    }
  }

  /** What is announced and going completes without any further pick. */
  lemma ViableCompletes(c: Setup, s: Sys, x: TaskId) returns (acts: seq<Action>, t: Sys)
    requires Inv(s) && Fresh(c, s) && Viable(c, s, x)
    ensures Leads(c, s, acts, t) && x in t.db.tasks && t.db.tasks[x].status.Completed?
  {
    var first, m := Assemble(c, s);
    LeadsInv(c, s, first, m);
    var rest;
    rest, t := Work(c, m, x);
    acts := first + rest;
    Then(c, s, first, m, rest, t);
  }

  /** A stored task that is not completed yet has a healthy continuation that completes it if
      and only if the batch size is at least one after its cast to int32 and neither the task nor
      anything in its dependency closure has failed or been cancelled, or the batch size is not,
      and the task is already running or picked with an entry the group has yet to hand out. */
  lemma CompletableIff(before: seq<Action>, c: Setup, x: TaskId)
    requires var s := Exec(INIT, before);
             Fresh(c, s) && x in s.db.tasks && !s.db.tasks[x].status.Completed?
    ensures var s := Exec(INIT, before); Completable(c, s, x) <==> Promised(c, s, x)
  {
    var s := Exec(INIT, before);
    ReachableInv(s);
    if !Promised(c, s, x) {
      NotCompletable(c, s, x);
    } else if Int32(c.limit) >= 1 {
      var acts, t := NoDeadlock(before, c, x);
      assert Leads(c, s, acts, t);
    } else {
      var acts, t := ViableCompletes(c, s, x);
      assert Leads(c, s, acts, t);
    }
  }
}
