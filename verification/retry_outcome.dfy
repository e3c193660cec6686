/** The regime of the retry chain is not empty: from any resting state it can be carried through
    to the end, one round of pick, delivery, failing handler, commit and ack per attempt. */
module RetryOutcome {
  import opened Domain
  import opened Store
  import opened Protocol
  import opened TableInvariant
  import opened ActorInvariant
  import opened Guarantees
  import opened Liveness
  import opened RetryChain

  // ----- calm paths -----

  ghost predicate CalmPath(s: Sys, acts: seq<Action>, t: Sys, x: TaskId) {
    t == Exec(s, acts) && CalmRun(s, acts, x)
  }

  lemma CalmOne(s: Sys, a: Action, x: TaskId)
    requires Calm(s, a, x)
    ensures CalmPath(s, [a], Next(s, a), x)
  {
    assert [a][1..] == [];
    assert Exec(Next(s, a), []) == Next(s, a);
    assert CalmRun(Next(s, a), [], x);
  }

  lemma {:induction false} CalmJoin(s: Sys, a: seq<Action>, t: Sys, b: seq<Action>, u: Sys, x: TaskId)
    requires CalmPath(s, a, t, x) && CalmPath(t, b, u, x)
    ensures CalmPath(s, a + b, u, x)
    decreases |a|
  {
    if a == [] {
      assert a + b == b;
    } else {
      CalmJoin(Next(s, a[0]), a[1..], t, b, u, x);
      assert (a + b)[1..] == a[1..] + b;
    }
  }

  lemma {:induction false} TicksAreCalm(s: Sys, acts: seq<Action>, x: TaskId)
    requires OnlyTicks(acts)
    ensures CalmRun(s, acts, x)
    decreases |acts|
  {
    if acts != [] {
      assert Calm(s, acts[0], x);
      TicksAreCalm(Next(s, acts[0]), acts[1..], x);
    }
  }

  lemma CalmInv(s: Sys, acts: seq<Action>, t: Sys, x: TaskId, b: Base)
    requires Inv(s) && Chain(s, x, b) && CalmPath(s, acts, t, x)
    ensures Inv(t) && Chain(t, x, b)
  {
    ExecInv(s, acts);
    ChainRun(s, acts, x, b);
  }

  // ----- the one message of a round -----

  /** No message of x is open. */
  ghost predicate AllAcked(s: Sys, x: TaskId) {
    forall m :: m in s.ticker.stream && s.ticker.stream[m] == x ==> m in s.pool.acked
  }

  predicate OpenMessage(s: Sys, x: TaskId, m: nat) {
    m in s.ticker.stream && s.ticker.stream[m] == x && m !in s.pool.acked
  }

  /** A message published since the workers were last active is held by none of them. */
  lemma FreshIsUnheld(s: Sys, t: Sys, x: TaskId, m: nat)
    requires WorkersSound(s) && AllAcked(s, x) && t.pool == s.pool && Grows(s, t) && OpenMessage(t, x, m)
    ensures At(t.ticker, t.pool, x, Posted(m))
  {
    forall w | w in t.pool.workers ensures !InHands(t.pool.workers[w], m) {
      assert WorkerSound(s, s.pool.workers[w]);
      assert m in s.ticker.stream ==> OpenMessage(s, x, m);
    }
  }

  lemma TickToRunning(c: Setup, s: Sys, x: TaskId) returns (acts: seq<Action>, t: Sys)
    requires Inv(s) && Int32(c.limit) >= 1 && Rested(c, s) && Ready(s.db, x)
    ensures CalmPath(s, acts, t, x) && Rested(c, t) && t.pool == s.pool
    ensures x in t.db.tasks && t.db.tasks[x].status.Running? && Announced(c, t, x)
  {
    var a1, s1 := Wait(c, s, s.db.tasks[x].scheduledAt);
    LeadsInv(c, s, a1, s1);
    var a2, s2 := TickUntilPicked(c, s1, x);
    acts, t := a1 + a2, s2;
    Then(c, s, a1, s1, a2, s2);
    TicksThen(a1, a2);
    TicksAreCalm(s, acts, x);
  }

  lemma OneOpenMessage(c: Setup, s: Sys, t: Sys, x: TaskId) returns (m: nat)
    requires WorkersSound(s) && DeliveriesSound(s) && AllAcked(s, x)
    requires t.pool == s.pool && Grows(s, t) && Announced(c, t, x)
    requires x in t.db.tasks && Located(t, x, t.db.tasks[x].status)
    ensures OpenMessage(t, x, m) && Unheld(t.pool, m)
    ensures forall n :: OpenMessage(t, x, n) ==> n == m
  {
    m :| Waiting(c, t, m) && t.ticker.stream[m] == x;
    FreshIsUnheld(s, t, x, m);
    forall n | OpenMessage(t, x, n) ensures n == m {
      FreshIsUnheld(s, t, x, n);
      assert Posted(n) == Posted(m);
    }
  }

  /** From a resting pending task to the one open, undelivered message of its next attempt. */
  lemma Approach(c: Setup, s: Sys, x: TaskId, b: Base) returns (acts: seq<Action>, t: Sys, m: nat)
    requires Inv(s) && Int32(c.limit) >= 1 && Rested(c, s) && Ready(s.db, x) && Chain(s, x, b) && AllAcked(s, x)
    ensures CalmPath(s, acts, t, x) && Rested(c, t) && t.pool == s.pool
    ensures x in t.db.tasks && t.db.tasks[x].status.Running?
    ensures OpenMessage(t, x, m) && Unheld(t.pool, m)
    ensures forall n :: OpenMessage(t, x, n) ==> n == m
  {
    acts, t := TickToRunning(c, s, x);
    ChainRun(s, acts, x, b);
    RunGrows(s, acts);
    m := OneOpenMessage(c, s, t, x);
  }

  // ----- the attempt -----

  const ERROR: Outcome := Failure("failed", false)

  lemma CalmTwo(s: Sys, a: Action, b: Action, x: TaskId) returns (acts: seq<Action>, t: Sys)
    requires Calm(s, a, x) && Calm(Next(s, a), b, x)
    ensures CalmPath(s, acts, t, x) && t == Next(Next(s, a), b)
  {
    CalmOne(s, a, x);
    CalmOne(Next(s, a), b, x);
    acts, t := [a] + [b], Next(Next(s, a), b);
    CalmJoin(s, [a], Next(s, a), [b], t, x);
  }

  /** What the worker holds after reading, and nothing else has changed. */
  lemma Start(c: Setup, s: Sys, x: TaskId, m: nat) returns (acts: seq<Action>, t: Sys)
    requires Rested(c, s) && x in s.db.tasks && s.db.tasks[x].status.Running? && OpenMessage(s, x, m) &&
             Unheld(s.pool, m)
    ensures CalmPath(s, acts, t, x)
    ensures t == s.(pool := t.pool) && t.pool.acked == s.pool.acked && t.pool.dlq == s.pool.dlq
    ensures t.pool.workers ==
            s.pool.workers[c.w := Worker(s.pool.workers[c.w].name, [], Executing(m, x, s.db.tasks[x]))]
  {
    Receive(s, c.w, m, x);
    acts, t := CalmTwo(s, Deliver(c.w, m), Read(c.w), x);
  }

  /** The failing handler and the commit of its verdict, made on a snapshot that may be old. */
  lemma Fails(s: Sys, w: nat, m: nat, x: TaskId, snap: Task, v: Mutation)
    requires x in s.db.tasks && x !in Locked(s) && w in s.pool.workers && PcOf(s, w) == Executing(m, x, snap)
    requires v == Decide(s.pool.workers[w].name, snap, ERROR, s.now) && MayMove(s.db.tasks[x].status, Target(v))
    ensures var t, k := Next(Next(s, Finish(w, ERROR)), Commit(w)), s.pool.workers[w];
            && t.db == Apply(s.db, Update(x, v, s.now)) && t.ticker == s.ticker && t.now == s.now
            && t.pool.workers == s.pool.workers[w := k.(pc := if v.Fail? then Reporting(m, x) else Acking(m, x))]
            && t.pool.acked == s.pool.acked && t.pool.dlq == s.pool.dlq
  {
    var n := Next(s, Finish(w, ERROR));
    assert n == s.(pool := n.pool);
    assert n.pool.workers[w].pc == Deciding(m, x, v);
    assert Locked(n) == Locked(s);
    assert Updatable(n, x, v);
  }

  /** The report of a failure, if there is one, and the ack. */
  lemma Settles(s: Sys, w: nat, m: nat, x: TaskId) returns (acts: seq<Action>, t: Sys)
    requires PcOf(s, w) == Reporting(m, x) || PcOf(s, w) == Acking(m, x)
    ensures CalmPath(s, acts, t, x)
    ensures t.db == s.db && t.ticker == s.ticker && t.now == s.now && t.pool.acked == s.pool.acked + {m}
    ensures t.pool.workers == s.pool.workers[w := s.pool.workers[w].(pc := Idle)]
    ensures t.pool.dlq == s.pool.dlq + if PcOf(s, w).Reporting? then multiset{x} else multiset{}
  {
    if PcOf(s, w).Reporting? {
      acts, t := CalmTwo(s, Report(w, true), Ack(w), x);
    } else {
      acts, t := [Ack(w)], Next(s, Ack(w));
      CalmOne(s, Ack(w), x);
    }
  }

  /** The row after one failing attempt. */
  ghost predicate OneAttemptLater(t: Task, u: Task) {
    && u.retryLimit == t.retryLimit
    && if t.attemptCount + 1 < t.retryLimit
       then u.status.Pending? && u.attemptCount == t.attemptCount + 1
       else u.status.Failed?
  }

  lemma VerdictRow(db: Db, x: TaskId, name: string, now: int)
    requires x in db.tasks && db.tasks[x].status.Running? && RowSound(db.tasks[x])
    ensures var after := Apply(db, Update(x, Decide(name, db.tasks[x], ERROR, now), now));
            && after.tasks.Keys == db.tasks.Keys && OneAttemptLater(db.tasks[x], after.tasks[x])
            && (Decide(name, db.tasks[x], ERROR, now).Fail? <==> after.tasks[x].status.Failed?)
  {
  }

  lemma Attempt(c: Setup, s: Sys, x: TaskId, m: nat) returns (acts: seq<Action>, t: Sys)
    requires NoOpenPick(s) && c.w in s.pool.workers && s.pool.workers[c.w].inbox == []
    requires x in s.db.tasks && s.db.tasks[x].status.Running? && RowSound(s.db.tasks[x])
    requires PcOf(s, c.w) == Executing(m, x, s.db.tasks[x])
    ensures CalmPath(s, acts, t, x) && x in t.db.tasks && OneAttemptLater(s.db.tasks[x], t.db.tasks[x])
    ensures t.ticker == s.ticker && t.pool.acked == s.pool.acked + {m}
    ensures t.pool.workers == s.pool.workers[c.w := s.pool.workers[c.w].(pc := Idle)]
    ensures t.pool.dlq == s.pool.dlq + if t.db.tasks[x].status.Failed? then multiset{x} else multiset{}
  {
    NothingLocked(s);
    Fails(s, c.w, m, x, s.db.tasks[x], Decide(s.pool.workers[c.w].name, s.db.tasks[x], ERROR, s.now));
    VerdictRow(s.db, x, s.pool.workers[c.w].name, s.now);
    var first, n := CalmTwo(s, Finish(c.w, ERROR), Commit(c.w), x);
    var rest;
    rest, t := Settles(n, c.w, m, x);
    acts := first + rest;
    CalmJoin(s, first, n, rest, t, x);
  }

  // ----- all the rounds -----

  /** Ready for the next attempt, with nothing of the previous ones left over. */
  ghost predicate Poised(c: Setup, s: Sys, x: TaskId, b: Base) {
    Inv(s) && Int32(c.limit) >= 1 && Rested(c, s) && Ready(s.db, x) && Chain(s, x, b) && AllAcked(s, x)
  }

  /** While no handler runs, the stored count is determined by the books. */
  lemma SameAttempts(s: Sys, t: Sys, x: TaskId, b: Base)
    requires Chain(s, x, b) && Chain(t, x, b) && t.pool == s.pool
    requires s.db.tasks[x].status.Pending? && t.db.tasks[x].status.Running?
    ensures t.db.tasks[x].attemptCount == s.db.tasks[x].attemptCount
  {
    if w :| DecidedBy(s.pool, x, w) {
      assert At(s.ticker, s.pool, x, Held(w));
    }
  }

  lemma LastIsAcked(s: Sys, t: Sys, x: TaskId, m: nat)
    requires t.ticker == s.ticker && t.pool.acked == s.pool.acked + {m}
    requires forall n :: OpenMessage(s, x, n) ==> n == m
    ensures AllAcked(t, x)
  {
    forall n | n in t.ticker.stream && t.ticker.stream[n] == x ensures n in t.pool.acked {
      assert n !in s.pool.acked ==> OpenMessage(s, x, n);
    }
  }

  lemma RestedAgain(c: Setup, s: Sys, t: Sys)
    requires Rested(c, s) && t.ticker == s.ticker
    requires c.w in t.pool.workers && t.pool.workers[c.w].pc.Idle? && t.pool.workers[c.w].inbox == []
    ensures Rested(c, t)
  {
  }

  /** Delivery, failing handler, commit and ack of the one open message. */
  lemma Serve(c: Setup, s: Sys, x: TaskId, m: nat) returns (acts: seq<Action>, t: Sys)
    requires Rested(c, s) && x in s.db.tasks && s.db.tasks[x].status.Running? && RowSound(s.db.tasks[x])
    requires OpenMessage(s, x, m) && Unheld(s.pool, m) && forall n :: OpenMessage(s, x, n) ==> n == m
    ensures CalmPath(s, acts, t, x) && Rested(c, t) && AllAcked(t, x)
    ensures x in t.db.tasks && OneAttemptLater(s.db.tasks[x], t.db.tasks[x])
    ensures t.pool.dlq == s.pool.dlq + if t.db.tasks[x].status.Failed? then multiset{x} else multiset{}
  {
    var first, n := Start(c, s, x, m);
    var rest;
    rest, t := Attempt(c, n, x, m);
    acts := first + rest;
    CalmJoin(s, first, n, rest, t, x);
    LastIsAcked(s, t, x, m);
    RestedAgain(c, s, t);
  }

  /** One attempt from pick to ack. */
  lemma Round(c: Setup, s: Sys, x: TaskId, b: Base) returns (acts: seq<Action>, t: Sys)
    requires Poised(c, s, x, b)
    ensures CalmPath(s, acts, t, x) && Rested(c, t) && AllAcked(t, x)
    ensures x in t.db.tasks && OneAttemptLater(s.db.tasks[x], t.db.tasks[x])
    ensures t.pool.dlq == s.pool.dlq + if t.db.tasks[x].status.Failed? then multiset{x} else multiset{}
  {
    var first, n, m := Approach(c, s, x, b);
    CalmInv(s, first, n, x, b);
    SameAttempts(s, n, x, b);
    IdentityForever(s, first, x);
    assert RowSound(n.db.tasks[x]);
    var rest;
    rest, t := Serve(c, n, x, m);
    acts := first + rest;
    CalmJoin(s, first, n, rest, t, x);
  }

  lemma RetriedIsReady(s: Sys, x: TaskId)
    requires TableInv(s.db, s.ledger) && x in s.db.tasks && s.db.tasks[x].status.Pending? &&
             s.db.tasks[x].attemptCount != 0
    ensures Ready(s.db, x)
  {
    assert Started(s.db.tasks[x]);
  }

  lemma PoisedAgain(c: Setup, s: Sys, acts: seq<Action>, t: Sys, x: TaskId, b: Base)
    requires Inv(s) && Chain(s, x, b) && CalmPath(s, acts, t, x)
    requires Int32(c.limit) >= 1 && Rested(c, t) && AllAcked(t, x)
    requires x in t.db.tasks && t.db.tasks[x].status.Pending? && t.db.tasks[x].attemptCount != 0
    ensures Poised(c, t, x, b)
  {
    CalmInv(s, acts, t, x, b);
    RetriedIsReady(t, x);
  }

  /** Attempt after attempt until the task has failed and is in the DLQ. */
  lemma {:induction false} CarryThrough(c: Setup, s: Sys, x: TaskId, b: Base) returns (acts: seq<Action>, t: Sys)
    requires Poised(c, s, x, b)
    ensures CalmPath(s, acts, t, x) && x in t.db.tasks && t.db.tasks[x].status.Failed?
    ensures t.pool.dlq == s.pool.dlq + multiset{x}
    decreases s.db.tasks[x].retryLimit - s.db.tasks[x].attemptCount
  {
    acts, t := Round(c, s, x, b);
    if t.db.tasks[x].status.Pending? {
      PoisedAgain(c, s, acts, t, x, b);
      var more, u := CarryThrough(c, t, x, b);
      CalmJoin(s, acts, t, more, u, x);
      acts, t := acts + more, u;
    }
  }

  // ----- from any reachable state -----

  /** Where the chain can start from: waiting for its pick, or picked by a transaction that was
      open, with its one message published. */
  ghost predicate Underway(s: Sys, x: TaskId) {
    || (Ready(s.db, x) && AllAcked(s, x))
    || (&& x in s.db.tasks && s.db.tasks[x].status.Running?
        && exists m :: OpenMessage(s, x, m) && Unheld(s.pool, m) && forall n :: OpenMessage(s, x, n) ==> n == m)
  }

  lemma NoMessages(s: Sys, x: TaskId)
    requires StreamSound(s) && x !in s.ledger.picks
    ensures AllAcked(s, x) && forall m :: m in s.ticker.stream ==> s.ticker.stream[m] != x
  {
  }

  lemma StillReadyLater(s: Sys, t: Sys, x: TaskId)
    requires Progress(s, t) && Ready(s.db, x) && t.db.tasks[x].status.Pending?
    ensures Ready(t.db, x)
  {
  }

  /** A running task without a message waits in the publish loop that picked it. */
  lemma WaitsInQueue(s: Sys, x: TaskId) returns (q: nat)
    requires WorkersSound(s) && Somewhere(s.ticker, s.pool, x)
    requires forall m :: m in s.ticker.stream ==> s.ticker.stream[m] != x
    ensures SchedOf(s, q).Publishing? && x in SchedOf(s, q).queue
  {
    var u :| At(s.ticker, s.pool, x, u);
    if u.Held? {
      NotHeld(s, x, u.w);
    }
    q := u.p;
  }

  lemma NotHeld(s: Sys, x: TaskId, w: nat)
    requires WorkersSound(s) && forall m :: m in s.ticker.stream ==> s.ticker.stream[m] != x
    ensures !At(s.ticker, s.pool, x, Held(w))
  {
    assert w in s.pool.workers ==> WorkerSound(s, s.pool.workers[w]);
  }

  /** The scheduler that picked x finishes its publish loop. */
  lemma PublishFrom(c: Setup, s: Sys, q: nat, x: TaskId) returns (acts: seq<Action>, t: Sys)
    requires DeliveriesSound(s) && NoOpenPick(s)
    requires SchedOf(s, c.p).Resting? && SchedOf(s, q).Publishing? && x in SchedOf(s, q).queue
    ensures CalmPath(s, acts, t, x) && t == s.(ticker := t.ticker) && NoOpenPick(t)
    ensures SchedOf(t, c.p).Resting? && Announced(c, t, x)
  {
    var own := c.(p := q);
    acts, t := PublishAll(own, s);
    TicksAreCalm(s, acts, x);
    assert Announced(own, t, x);
    var m :| Waiting(own, t, m) && t.ticker.stream[m] == x;
    assert Waiting(c, t, m);
  }

  /** All open picks commit; if one of them held x, its scheduler publishes. */
  lemma SettlePicks(c: Setup, s: Sys, x: TaskId, b: Base) returns (acts: seq<Action>, t: Sys)
    requires Inv(s) && Fresh(c, s) && Chain(s, x, b) && Ready(s.db, x) && x !in s.ledger.picks
    ensures CalmPath(s, acts, t, x) && t.pool == s.pool && NoOpenPick(t) && SchedOf(t, c.p).Resting? && Underway(t, x)
  {
    acts, t := CloseAll(c, s, OpenPicks(s));
    NoneOpen(t);
    TicksAreCalm(s, acts, x);
    CalmInv(s, acts, t, x, b);
    NoMessages(s, x);
    if t.db.tasks[x].status.Pending? {
      StillReadyLater(s, t, x);
    } else {
      PickWasOpen(s, t, x);
      var q := WaitsInQueue(t, x);
      var more, u := PublishFrom(c, t, q, x);
      CalmJoin(s, acts, t, more, u, x);
      acts := acts + more;
      PublishedOnce(c, s, acts, u, x, b);
      t := u;
    }
  }

  /** Only a pick can have happened to a pending task while picks were committed. */
  lemma PickWasOpen(s: Sys, t: Sys, x: TaskId)
    requires Progress(s, t) && Ready(s.db, x) && !t.db.tasks[x].status.Pending? && exists b :: Chain(t, x, b)
    ensures t.db.tasks[x].status.Running? && Somewhere(t.ticker, t.pool, x)
  {
  }

  lemma PublishedOnce(c: Setup, s: Sys, acts: seq<Action>, t: Sys, x: TaskId, b: Base)
    requires Inv(s) && Chain(s, x, b) && CalmPath(s, acts, t, x) && AllAcked(s, x) && t.pool == s.pool
    requires Announced(c, t, x) && x in t.db.tasks && t.db.tasks[x].status.Running?
    ensures Underway(t, x)
  {
    ChainRun(s, acts, x, b);
    RunGrows(s, acts);
    var m := OneOpenMessage(c, s, t, x);
  }

  /** The worker joins. */
  lemma Staffed(c: Setup, s: Sys, x: TaskId) returns (a: Action, t: Sys)
    requires NoOpenPick(s) && SchedOf(s, c.p).Resting? && c.w !in s.pool.workers
    requires Underway(s, x)
    ensures Calm(s, a, x) && t == Next(s, a) && Rested(c, t) && Underway(t, x) && t.pool.dlq == s.pool.dlq
  {
    a := Restart(c.w, "worker");
    t := Next(s, a);
    JoinedRested(c, s);
    if x in s.db.tasks && s.db.tasks[x].status.Running? {
      var m :| OpenMessage(s, x, m) && Unheld(s.pool, m) && forall n :: OpenMessage(s, x, n) ==> n == m;
      assert OpenMessage(t, x, m) && Unheld(t.pool, m);
      assert forall n :: OpenMessage(t, x, n) ==> OpenMessage(s, x, n);
    }
  }

  lemma JoinedRested(c: Setup, s: Sys)
    requires NoOpenPick(s) && SchedOf(s, c.p).Resting? && c.w !in s.pool.workers
    ensures var t := Next(s, Restart(c.w, "worker"));
            && t == s.(pool := t.pool) && t.pool.dlq == s.pool.dlq && t.pool.acked == s.pool.acked && Rested(c, t)
            && t.pool.workers == s.pool.workers[c.w := Worker("worker", [], Idle)]
  {
  }

  /** The remaining attempts, wherever the first one stands. */
  lemma Conclusion(c: Setup, s: Sys, x: TaskId, b: Base) returns (acts: seq<Action>, t: Sys)
    requires Inv(s) && Int32(c.limit) >= 1 && Rested(c, s) && Chain(s, x, b) && Underway(s, x)
    ensures CalmPath(s, acts, t, x) && x in t.db.tasks && t.db.tasks[x].status.Failed?
    ensures t.pool.dlq == s.pool.dlq + multiset{x}
  {
    if s.db.tasks[x].status.Pending? {
      acts, t := CarryThrough(c, s, x, b);
    } else {
      var m :| OpenMessage(s, x, m) && Unheld(s.pool, m) && forall n :: OpenMessage(s, x, n) ==> n == m;
      acts, t := FirstServed(c, s, x, b, m);
    }
  }

  /** The attempt whose message is out, then the others. */
  lemma FirstServed(c: Setup, s: Sys, x: TaskId, b: Base, m: nat) returns (acts: seq<Action>, t: Sys)
    requires Inv(s) && Int32(c.limit) >= 1 && Rested(c, s) && Chain(s, x, b) && s.db.tasks[x].status.Running?
    requires OpenMessage(s, x, m) && Unheld(s.pool, m) && forall n :: OpenMessage(s, x, n) ==> n == m
    ensures CalmPath(s, acts, t, x) && x in t.db.tasks && t.db.tasks[x].status.Failed?
    ensures t.pool.dlq == s.pool.dlq + multiset{x}
  {
    assert RowSound(s.db.tasks[x]);
    acts, t := Serve(c, s, x, m);
    if t.db.tasks[x].status.Pending? {
      PoisedAgain(c, s, acts, t, x, b);
      var more, u := CarryThrough(c, t, x, b);
      CalmJoin(s, acts, t, more, u, x);
      acts, t := acts + more, u;
    }
  }

  /** A calm run from s through the whole chain of x. */
  lemma WholeChain(c: Setup, s: Sys, x: TaskId) returns (acts: seq<Action>, t: Sys)
    requires Inv(s) && Fresh(c, s) && Int32(c.limit) >= 1 && Ready(s.db, x) && x !in s.ledger.picks
    ensures CalmPath(s, acts, t, x) && x in t.db.tasks && t.db.tasks[x].status.Failed?
    ensures t.pool.dlq == s.pool.dlq + multiset{x}
  {
    var b := Base(s.pool.started[x], s.ledger.failures[x], s.db.tasks[x].scheduledAt);
    ChainStarts(s, x);
    var a1, s1 := SettlePicks(c, s, x, b);
    RunGrows(s, a1);
    var a, s2 := Staffed(c, s1, x);
    CalmOne(s1, a, x);
    CalmJoin(s, a1, s1, [a], s2, x);
    CalmInv(s, a1 + [a], s2, x, b);
    var a3;
    a3, t := Conclusion(c, s2, x, b);
    acts := a1 + [a] + a3;
    CalmJoin(s, a1 + [a], s2, a3, t, x);
  }

  // ----- dependencies first -----

  /** Nothing has been done for x yet. */
  ghost predicate Untouched(s: Sys, x: TaskId) {
    Inv(s) && x in s.db.tasks && s.db.tasks[x].status.Pending? && x !in s.ledger.picks
  }

  lemma NeverPicked(s: Sys, x: TaskId)
    requires Inv(s) && Hopeful(s.db, x) && x !in s.ledger.picks
    ensures Untouched(s, x)
  {
    assert Started(s.db.tasks[x]) ==> x in s.ledger.picks;
  }

  /** While x is not ready, healthy steps leave it alone. */
  lemma LeftAlone(c: Setup, s: Sys, a: Action, x: TaskId)
    requires Untouched(s, x) && Healthy(c, s, a) && !Ready(s.db, x)
    ensures Untouched(Next(s, a), x)
  {
    OpIsSound(s, a);
    NextInv(s, a);
    PendingUnderOp(s.db, s.ledger, OpOf(s, a), x);
    HealthyKinds(c, s, a);
  }

  lemma HealthyKinds(c: Setup, s: Sys, a: Action)
    requires WorkersSound(s) && Healthy(c, s, a)
    ensures var op := OpOf(s, a); !op.Purge? && (op.Update? ==> !op.mutation.Cancel?)
  {
    if a.Commit? && a.w in s.pool.workers {
      assert WorkerSound(s, s.pool.workers[a.w]);
    }
  }

  lemma PendingUnderOp(db: Db, l: Ledger, op: Op, x: TaskId)
    requires OpSound(db, l, op) && x in db.tasks && db.tasks[x].status.Pending? && x !in l.picks && !Ready(db, x)
    ensures x !in Record(l, db, op).picks
    ensures !op.Purge? && (op.Update? ==> !op.mutation.Cancel?) ==>
              x in Apply(db, op).tasks && Apply(db, op).tasks[x].status.Pending?
  {
    PicksAfter(db, l, op, x);
  }

  /** And they are calm for it. */
  lemma HealthyIsCalm(c: Setup, s: Sys, a: Action, x: TaskId)
    requires Untouched(s, x) && Healthy(c, s, a)
    ensures Calm(s, a, x)
  {
    NoMessages(s, x);
    if a.Finish? || a.Restart? {
      NotBusy(s, a.w, x);
    }
  }

  lemma NotBusy(s: Sys, w: nat, x: TaskId)
    requires Inv(s) && x !in s.ledger.picks
    ensures !Busy(s, w, x)
  {
    NoMessages(s, x);
    if w in s.pool.workers && !s.pool.workers[w].pc.Idle? && s.pool.workers[w].pc.id == x {
      HeldIsPicked(s, w, x);
    }
  }

  /** A healthy run that completes all dependencies of x has a beginning, calm for x, after which
      x is ready and still untouched. */
  lemma {:induction false} UpToReady(c: Setup, s: Sys, acts: seq<Action>, x: TaskId) returns (pre: seq<Action>, t: Sys)
    requires Untouched(s, x) && HealthyRun(c, s, acts)
    requires forall e :: e in Exec(s, acts).db.deps && e.0 == x ==>
               e.1 in Exec(s, acts).db.tasks && Exec(s, acts).db.tasks[e.1].status.Completed?
    ensures CalmPath(s, pre, t, x) && Untouched(t, x) && Ready(t.db, x)
    decreases |acts|
  {
    if Ready(s.db, x) {
      return [], s;
    }
    var n := Next(s, acts[0]);
    HealthyIsCalm(c, s, acts[0], x);
    CalmOne(s, acts[0], x);
    LeftAlone(c, s, acts[0], x);
    var rest;
    rest, t := UpToReady(c, n, acts[1..], x);
    pre := [acts[0]] + rest;
    CalmJoin(s, [acts[0]], n, rest, t, x);
  }

  /** A run that completes the dependencies of x. */
  lemma DependenciesFirst(c: Setup, s: Sys, x: TaskId) returns (acts: seq<Action>, t: Sys)
    requires Inv(s) && Fresh(c, s) && Int32(c.limit) >= 1 && Hopeful(s.db, x)
    ensures Leads(c, s, acts, t)
    ensures forall e :: e in t.db.deps && e.0 == x ==> e.1 in t.db.tasks && t.db.tasks[e.1].status.Completed?
  {
    var first, m := Assemble(c, s);
    LeadsInv(c, s, first, m);
    HopeKept(s, m, x);
    var open := set e | e in m.db.deps && e.0 == x :: e.1;
    var rest;
    rest, t := FinishAll(c, m, x, open);
    acts := first + rest;
    Then(c, s, first, m, rest, t);
    forall e | e in t.db.deps && e.0 == x ensures e.1 in t.db.tasks && t.db.tasks[e.1].status.Completed? {
      assert e.1 in open;
    }
  }

  /** A scheduler, a worker and a place in the stream that fit a state always exist. */
  lemma SetupExists(s: Sys, limit: int) returns (c: Setup)
    ensures Fresh(c, s) && c.limit == limit
  {
    var p := Bound(s.ticker.scheds.Keys);
    var w := Bound(s.pool.workers.Keys);
    var cursor := Bound(s.pool.delivered);
    assert p !in s.ticker.scheds.Keys && w !in s.pool.workers.Keys;
    c := Setup(limit, 0, p, w, cursor);
  }

  /** A calm run to a state where x is ready and untouched. */
  lemma MadeReady(s: Sys, limit: int, x: TaskId) returns (acts: seq<Action>, t: Sys)
    requires Inv(s) && Int32(limit) >= 1 && Hopeful(s.db, x) && x !in s.ledger.picks
    ensures CalmPath(s, acts, t, x) && Untouched(t, x) && Ready(t.db, x)
  {
    var c := SetupExists(s, limit);
    var all, u := DependenciesFirst(c, s, x);
    NeverPicked(s, x);
    acts, t := UpToReady(c, s, all, x);
  }

  /** From every reachable state, open picks included, a task that was never picked and has no
      failed or cancelled task in its dependency closure can be carried through the whole chain:
      its dependencies complete, it is run exactly max(1, limit) times, and it ends failed with
      one DLQ entry. */
  lemma ChainEndsFailed(before: seq<Action>, limit: int, x: TaskId) returns (acts: seq<Action>, t: Sys)
    requires var s := Exec(INIT, before); Int32(limit) >= 1 && Hopeful(s.db, x) && x !in s.ledger.picks
    ensures var s := Exec(INIT, before);
            var runs := MaxRuns(s.db.tasks[x].retryLimit);
            && CalmPath(s, acts, t, x) && x in t.db.tasks && t.db.tasks[x].status.Failed?
            && t.pool.started[x] == s.pool.started[x] + runs && t.db.tasks[x].attemptCount == runs - 1
            && t.ledger.failures[x] == s.ledger.failures[x] + 1 && t.pool.dlq[x] == s.pool.dlq[x] + 1
  {
    var s := Exec(INIT, before);
    ReachableInv(s);
    NeverPicked(s, x);
    acts, t := DependenciesThenChain(s, limit, x);
    AlwaysFailingChain(before, acts, x);
  }

  lemma DependenciesThenChain(s: Sys, limit: int, x: TaskId) returns (acts: seq<Action>, t: Sys)
    requires Inv(s) && Int32(limit) >= 1 && Hopeful(s.db, x) && x !in s.ledger.picks
    ensures CalmPath(s, acts, t, x) && x in t.db.tasks && t.db.tasks[x].status.Failed?
    ensures t.pool.dlq[x] == s.pool.dlq[x] + 1
  {
    var first, m := MadeReady(s, limit, x);
    var c := SetupExists(m, limit);
    var rest;
    rest, t := WholeChain(c, m, x);
    acts := first + rest;
    CalmJoin(s, first, m, rest, t, x);
    NoDlqBefore(s, first, m, x);
  }

  /** A calm run that ends without a pick of x has put nothing of x into the DLQ. */
  lemma {:induction false} NoDlqBefore(s: Sys, acts: seq<Action>, t: Sys, x: TaskId)
    requires Inv(s) && t == Exec(s, acts) && x !in t.ledger.picks
    ensures t.pool.dlq[x] == s.pool.dlq[x]
    decreases |acts|
  {
    if acts != [] {
      var n := Next(s, acts[0]);
      NextInv(s, acts[0]);
      PicksStay(s, acts, x);
      ReportNeedsPick(s, acts[0], x);
      NoDlqBefore(n, acts[1..], t, x);
    }
  }

  lemma {:induction false} PicksStay(s: Sys, acts: seq<Action>, x: TaskId)
    ensures x in s.ledger.picks ==> x in Exec(s, acts).ledger.picks
    decreases |acts|
  {
    if acts != [] {
      PicksAfter(s.db, s.ledger, OpOf(s, acts[0]), x);
      PicksStay(Next(s, acts[0]), acts[1..], x);
    }
  }

  lemma ReportNeedsPick(s: Sys, a: Action, x: TaskId)
    requires StreamSound(s) && WorkersSound(s)
    ensures PoolStep(s, a).dlq[x] == s.pool.dlq[x] || x in s.ledger.picks
  {
    if a.Report? && a.w in s.pool.workers && s.pool.workers[a.w].pc.Reporting? && s.pool.workers[a.w].pc.id == x {
      HeldIsPicked(s, a.w, x);
    }
  }
}
