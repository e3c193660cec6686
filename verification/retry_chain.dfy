/** The life of a task whose handler always fails, in a run that does not reset, cancel or
    republish it, loses none of its messages and redelivers none.  What happens to other tasks,
    crashes included, is free. */
module RetryChain {
  import opened Domain
  import opened Store
  import opened Protocol
  import opened TableInvariant
  import opened ActorInvariant
  import opened Guarantees
  import Backoff

  /** Where the one delivery of a picked task can be. */
  datatype Place =
    | Queued(p: nat, i: nat)   // in a scheduler's publish loop
    | Posted(m: nat)           // in the stream, not yet delivered
    | Boxed(w: nat, i: nat)    // delivered, not yet read
    | Held(w: nat)             // read; handler running or its outcome not yet committed

  predicate Undecided(pc: Pc, x: TaskId) {
    (pc.Executing? || pc.Deciding?) && pc.id == x
  }

  ghost predicate At(k: Ticker, l: Pool, x: TaskId, pl: Place) {
    match pl
    case Queued(p, i) => p in k.scheds && k.scheds[p].Publishing? && i < |k.scheds[p].queue| &&
      k.scheds[p].queue[i] == x
    case Posted(m) => m in k.stream && k.stream[m] == x && m !in l.acked && Unheld(l, m)
    case Boxed(w, i) =>
      w in l.workers && i < |l.workers[w].inbox| && l.workers[w].inbox[i] in k.stream &&
        k.stream[l.workers[w].inbox[i]] == x
    case Held(w) => w in l.workers && Undecided(l.workers[w].pc, x)
  }

  /** The id a tick publishes next. */
  function Head(c: Sched): Option<TaskId> {
    if c.Publishing? && c.queue != [] then Some(c.queue[0]) else None
  }

  /** The worker is occupied with x, or a message of x waits in its inbox. */
  ghost predicate Busy(s: Sys, w: nat, x: TaskId) {
    && w in s.pool.workers
    && (|| (!s.pool.workers[w].pc.Idle? && s.pool.workers[w].pc.id == x)
        || exists m :: m in s.pool.workers[w].inbox && m in s.ticker.stream && s.ticker.stream[m] == x)
  }

  /** One step of the regime, as far as x is concerned. */
  ghost predicate Calm(s: Sys, a: Action, x: TaskId) {
    match a
    case ResetStuck(timeout) => x in s.db.tasks ==> ResetRow(s.db.tasks[x], s.now - timeout, s.now) == s.db.tasks[x]
    case CancelTask(id) => id != x
    case RepublishTask(id) => id != x
    case CrashSched(p) => SchedOf(s, p).Publishing? ==> x !in SchedOf(s, p).queue
    case Publish(p, entry) => Head(SchedOf(s, p)) == Some(x) ==> entry.Some?
    case Abandon(w) => !Busy(s, w, x)
    case Restart(w, _) => !Busy(s, w, x)
    case Deliver(_, m) => m in s.ticker.stream && s.ticker.stream[m] == x ==> Unheld(s.pool, m)
    case Finish(w, o) => PcOf(s, w).Executing? && PcOf(s, w).id == x ==> o.Failure? && !o.cancelled
    case _ => true
  }

  /** Where a delivery found at `pl` after the step was before it; None if the step created it. */
  ghost function Before(s: Sys, a: Action, pl: Place): Option<Place> {
    match a
    case CommitPick(p) => if pl.Queued? && pl.p == p && SchedOf(s, p).Selected? then None else Some(pl)
    case Publish(p, entry) =>
      if TickerStep(s, a) == s.ticker then Some(pl)
      else if pl.Queued? && pl.p == p then Some(Queued(p, pl.i + 1))
      else if pl.Posted? && entry == Some(pl.m) then Some(Queued(p, 0))
      else Some(pl)
    case Deliver(w, m) =>
      if pl.Boxed? && pl.w == w && w in s.pool.workers && pl.i == |s.pool.workers[w].inbox|
      then Some(Posted(m)) else Some(pl)
    case Read(w) =>
      if w in s.pool.workers && s.pool.workers[w].pc.Idle? && s.pool.workers[w].inbox != [] then
        if pl == Held(w) then Some(Boxed(w, 0))
        else if pl.Boxed? && pl.w == w then Some(Boxed(w, pl.i + 1))
        else Some(pl)
      else Some(pl)
    case _ => Some(pl)
  }

  // ----- deliveries only move -----

  lemma QueuedBefore(s: Sys, a: Action, x: TaskId, p: nat, i: nat)
    requires Calm(s, a, x) && At(TickerStep(s, a), PoolStep(s, a), x, Queued(p, i))
    ensures match Before(s, a, Queued(p, i))
            case Some(was) => At(s.ticker, s.pool, x, was)
            case None => OpOf(s, a).Mark? && x in OpOf(s, a).batch
  {
    if !OfSched(a, p) {
      SchedBystander(s, a, p);
    }
  }

  lemma HeldBefore(s: Sys, a: Action, x: TaskId, w: nat)
    requires Calm(s, a, x) && At(TickerStep(s, a), PoolStep(s, a), x, Held(w))
    ensures Before(s, a, Held(w)).Some? && At(s.ticker, s.pool, x, Before(s, a, Held(w)).value)
  {
    if !Acts(a, w) {
      BystanderKept(s, a, w);
    }
  }

  /** The worker gives up its next message, or dies. */
  predicate Leaves(a: Action, w: nat) {
    (a.Abandon? || a.Restart?) && a.w == w
  }

  lemma HandsMeanBusy(s: Sys, w: nat, m: nat, x: TaskId)
    requires WorkersSound(s) && w in s.pool.workers && InHands(s.pool.workers[w], m)
    requires m in s.ticker.stream && s.ticker.stream[m] == x
    ensures Busy(s, w, x)
  {
    assert WorkerSound(s, s.pool.workers[w]);
  }

  lemma LeavingBoxes(s: Sys, a: Action, w: nat, m: nat)
    requires Leaves(a, w) && w in PoolStep(s, a).workers && m in PoolStep(s, a).workers[w].inbox
    ensures w in s.pool.workers && m in s.pool.workers[w].inbox
  {
  }

  lemma InboxAfter(s: Sys, a: Action, w: nat, i: nat)
    requires w in PoolStep(s, a).workers && i < |PoolStep(s, a).workers[w].inbox|
    requires !Leaves(a, w)
    ensures w in s.pool.workers
    ensures var box, m := s.pool.workers[w].inbox, PoolStep(s, a).workers[w].inbox[i];
            if a == Read(w) && s.pool.workers[w].pc.Idle? && box != [] then i + 1 < |box| && m == box[i + 1]
            else if a.Deliver? && a.w == w && i == |box| then m == a.msg && m in s.ticker.stream && m !in s.pool.acked
            else i < |box| && m == box[i]
  {
    if !Acts(a, w) {
      BystanderKept(s, a, w);
    } else if a.Read? {
      assert PoolStep(s, a) == ReadStep(s, w, s.pool.workers[w]);
    } else if a.Deliver? {
      assert PoolStep(s, a) == DeliverStep(s, w, s.pool.workers[w], a.msg);
    }
  }

  /** A worker that gives up or dies had nothing of x, so it has nothing of x afterwards. */
  lemma LeavingHasNone(s: Sys, a: Action, x: TaskId, w: nat, i: nat)
    requires Calm(s, a, x) && WorkersSound(s) && Leaves(a, w)
    ensures !At(TickerStep(s, a), PoolStep(s, a), x, Boxed(w, i))
  {
    if At(TickerStep(s, a), PoolStep(s, a), x, Boxed(w, i)) {
      var m := PoolStep(s, a).workers[w].inbox[i];
      LeavingBoxes(s, a, w, m);
      InboxPosted(s, w, m);
      HandsMeanBusy(s, w, m, x);
    }
  }

  lemma BoxedBefore(s: Sys, a: Action, x: TaskId, w: nat, i: nat)
    requires Calm(s, a, x) && WorkersSound(s) && At(TickerStep(s, a), PoolStep(s, a), x, Boxed(w, i))
    ensures Before(s, a, Boxed(w, i)).Some? && At(s.ticker, s.pool, x, Before(s, a, Boxed(w, i)).value)
  {
    if Leaves(a, w) {
      LeavingHasNone(s, a, x, w, i);
    } else {
      var m := PoolStep(s, a).workers[w].inbox[i];
      StreamAfter(s, a, m);
      InboxAfter(s, a, w, i);
      if m in s.pool.workers[w].inbox {
        InboxPosted(s, w, m);
      }
    }
  }

  lemma InboxPosted(s: Sys, w: nat, m: nat)
    requires WorkersSound(s) && w in s.pool.workers && m in s.pool.workers[w].inbox
    ensures m in s.ticker.stream
  {
    assert WorkerSound(s, s.pool.workers[w]);
  }

  lemma ReadKeeps(s: Sys, w: nat, k: Worker, m: nat)
    requires w in s.pool.workers && s.pool.workers[w] == k && InHands(k, m)
    requires m in s.ticker.stream && s.ticker.stream[m] in s.db.tasks
    ensures InHands(ReadStep(s, w, k).workers[w], m)
  {
    if k.pc.Idle? && k.inbox != [] && m != k.inbox[0] {
      assert m in k.inbox[1..];
    }
  }

  /** A worker lets go of a message of x only by acknowledging it. */
  lemma StillHolds(s: Sys, a: Action, x: TaskId, m: nat, w: nat)
    requires Calm(s, a, x) && WorkersSound(s) && w in s.pool.workers && InHands(s.pool.workers[w], m)
    requires m in s.ticker.stream && s.ticker.stream[m] == x && x in s.db.tasks
    requires PcOf(s, w).Deciding? && PcOf(s, w).id == x ==> Updatable(s, x, PcOf(s, w).mutation)
    requires m !in PoolStep(s, a).acked
    ensures w in PoolStep(s, a).workers && InHands(PoolStep(s, a).workers[w], m)
  {
    var k := s.pool.workers[w];
    HandsMeanBusy(s, w, m, x);
    if !Acts(a, w) {
      BystanderStays(s, a, w);
    } else if a.Read? {
      ReadKeeps(s, w, k, m);
    } else if a.Commit? {
      assert WorkerSound(s, k);
    }
  }

  /** Commits on x are never refused or blocked. */
  ghost predicate CommitsOpen(s: Sys, x: TaskId) {
    && x in s.db.tasks
    && forall w :: PcOf(s, w).Deciding? && PcOf(s, w).id == x ==> Updatable(s, x, PcOf(s, w).mutation)
  }

  lemma PostedBefore(s: Sys, a: Action, x: TaskId, m: nat)
    requires Calm(s, a, x) && WorkersSound(s) && At(TickerStep(s, a), PoolStep(s, a), x, Posted(m))
    requires m in s.ticker.stream ==> CommitsOpen(s, x)
    ensures Before(s, a, Posted(m)).Some? && At(s.ticker, s.pool, x, Before(s, a, Posted(m)).value)
  {
    StreamAfter(s, a, m);
    if m in s.ticker.stream {
      assert m !in s.pool.acked;
      forall w | w in s.pool.workers ensures !InHands(s.pool.workers[w], m) {
        if InHands(s.pool.workers[w], m) {
          StillHolds(s, a, x, m, w);
        }
      }
      SamePosted(s, a, m);
    }
  }

  lemma SamePosted(s: Sys, a: Action, m: nat)
    requires m in s.ticker.stream
    ensures Before(s, a, Posted(m)) == Some(Posted(m))
  {
  }

  /** Two deliveries never merge. */
  lemma BeforeInjective(s: Sys, a: Action, x: TaskId, u: Place, v: Place)
    requires Calm(s, a, x) && At(TickerStep(s, a), PoolStep(s, a), x, u) && At(TickerStep(s, a), PoolStep(s, a), x, v)
    requires Before(s, a, u).Some? && Before(s, a, u) == Before(s, a, v)
    ensures u == v
  {
    if a.Deliver? && a.w in s.pool.workers {
      DeliveredIsHeld(s, a.w, a.msg);
    }
  }

  lemma DeliveredIsHeld(s: Sys, w: nat, m: nat)
    requires w in s.pool.workers
    ensures var l := PoolStep(s, Deliver(w, m));
            l.workers[w].inbox == s.pool.workers[w].inbox || !Unheld(l, m)
  {
    var l := PoolStep(s, Deliver(w, m));
    assert l.workers[w].inbox == s.pool.workers[w].inbox || InHands(l.workers[w], m);
  }

  lemma CameFrom(s: Sys, a: Action, x: TaskId, pl: Place)
    requires Calm(s, a, x) && WorkersSound(s) && CommitsOpen(s, x)
    requires At(TickerStep(s, a), PoolStep(s, a), x, pl)
    ensures match Before(s, a, pl)
            case Some(was) => At(s.ticker, s.pool, x, was)
            case None => pl.Queued? && a.CommitPick? && pl.p == a.p && OpOf(s, a).Mark? && x in OpOf(s, a).batch
  {
    match pl
    case Queued(p, i) => QueuedBefore(s, a, x, p, i);
    case Posted(m) => PostedBefore(s, a, x, m);
    case Boxed(w, i) => BoxedBefore(s, a, x, w, i);
    case Held(w) => HeldBefore(s, a, x, w);
  }

  // ----- the invariant of the regime -----

  /** The books are kept relative to the start: handler runs, failures and first due time. */
  datatype Base = Base(runs: nat, fails: nat, start: int)

  function MaxRuns(limit: int): nat {
    if limit < 1 then 1 else limit
  }

  /** The earliest time of the attempt after n retries. */
  function Earliest(b: Base, n: int): int {
    b.start + Backoff.DelaySum(Backoff.Clamp(n))
  }

  /** At most one delivery of x is under way, and only while it is running. */
  ghost predicate Located(s: Sys, x: TaskId, st: Status) {
    && (forall u, v :: At(s.ticker, s.pool, x, u) && At(s.ticker, s.pool, x, v) ==> u == v)
    && (forall u :: At(s.ticker, s.pool, x, u) ==> st.Running?)
  }

  predicate Verdict(t: Task, m: Mutation, b: Base) {
    var n := t.attemptCount + 1;
    if n < t.retryLimit then m.Retry? && m.attempt == n && m.nextAt >= Earliest(b, n) else m.Fail?
  }

  predicate Agrees(t: Task, pc: Pc, b: Base) {
    && (pc.Executing? ==> pc.snap.attemptCount == t.attemptCount && pc.snap.retryLimit == t.retryLimit)
    && (pc.Deciding? ==> Verdict(t, pc.mutation, b))
  }

  ghost predicate AllAgree(s: Sys, x: TaskId, t: Task, b: Base) {
    forall w :: w in s.pool.workers && Undecided(s.pool.workers[w].pc, x) ==> Agrees(t, s.pool.workers[w].pc, b)
  }

  ghost predicate Decided(l: Pool, x: TaskId) {
    exists w :: DecidedBy(l, x, w)
  }

  ghost predicate DecidedBy(l: Pool, x: TaskId, w: nat) {
    w in l.workers && l.workers[w].pc.Deciding? && l.workers[w].pc.id == x
  }

  ghost predicate Books(s: Sys, x: TaskId, t: Task, b: Base) {
    var runs, fails := s.pool.started[x] - b.runs, s.ledger.failures[x] - b.fails;
    && t.scheduledAt >= Earliest(b, t.attemptCount)
    && match t.status
       case Pending => runs == t.attemptCount && fails == 0
       case Running => runs == t.attemptCount + (if Decided(s.pool, x) then 1 else 0) && fails == 0 &&
         t.scheduledAt <= s.now
       case Failed => runs == MaxRuns(t.retryLimit) && fails == 1 && t.attemptCount == runs - 1 &&
         s.now >= Earliest(b, t.attemptCount)
       case _ => false
  }

  ghost predicate Somewhere(k: Ticker, l: Pool, x: TaskId) {
    exists u :: At(k, l, x, u)
  }

  ghost predicate Chain(s: Sys, x: TaskId, b: Base) {
    && x in s.db.tasks
    && Located(s, x, s.db.tasks[x].status)
    && (s.db.tasks[x].status.Running? ==> Somewhere(s.ticker, s.pool, x))
    && AllAgree(s, x, s.db.tasks[x], b)
    && Books(s, x, s.db.tasks[x], b)
  }

  // ----- what happens to the row of x -----

  predicate Commits(s: Sys, a: Action, x: TaskId) {
    a.Commit? && PcOf(s, a.w).Deciding? && PcOf(s, a.w).id == x
  }

  predicate SameProgress(t: Task, u: Task) {
    t.status == u.status && t.attemptCount == u.attemptCount && t.scheduledAt == u.scheduledAt &&
      t.retryLimit == u.retryLimit
  }

  ghost function DbAfter(s: Sys, a: Action): Db {
    Apply(s.db, OpOf(s, a))
  }

  /** Unless it is picked, the row of x keeps its status, attempts and schedule. */
  ghost predicate RowQuiet(s: Sys, a: Action, x: TaskId) {
    && x in s.db.tasks && x in DbAfter(s, a).tasks
    && var t, u := s.db.tasks[x], DbAfter(s, a).tasks[x];
       if OpOf(s, a).Mark? && x in OpOf(s, a).batch
       then t.status.Pending? && u == t.(status := Running, updatedAt := s.now)
       else SameProgress(t, u)
  }

  lemma OnlyItsCommitUpdates(s: Sys, a: Action, x: TaskId)
    requires Calm(s, a, x) && !Commits(s, a, x)
    ensures var op := OpOf(s, a);
            && (op.Reset? && x in s.db.tasks ==> ResetRow(s.db.tasks[x], op.cutoff, op.at) == s.db.tasks[x])
            && (op.Update? ==> op.id != x) && (op.Mark? ==> op.at == s.now)
  {
  }

  lemma RowUnderOp(db: Db, l: Ledger, op: Op, x: TaskId)
    requires OpSound(db, l, op) && x in db.tasks && !Terminal(db.tasks[x].status)
    requires (op.Reset? ==> ResetRow(db.tasks[x], op.cutoff, op.at) == db.tasks[x]) && (op.Update? ==> op.id != x)
    ensures x in Apply(db, op).tasks
    ensures var t, u := db.tasks[x], Apply(db, op).tasks[x];
            if op.Mark? && x in op.batch
            then t.status.Pending? && u == t.(status := Running, updatedAt := op.at)
            else SameProgress(t, u)
  {
    if op.Mark? && x in op.batch {
      assert Ready(db, x);
    }
  }

  lemma RowOfX(s: Sys, a: Action, x: TaskId)
    requires Inv(s) && x in s.db.tasks && !Terminal(s.db.tasks[x].status) && Calm(s, a, x) && !Commits(s, a, x)
    ensures RowQuiet(s, a, x)
  {
    OpIsSound(s, a);
    OnlyItsCommitUpdates(s, a, x);
    RowUnderOp(s.db, s.ledger, OpOf(s, a), x);
  }

  lemma CommitsAreOpen(s: Sys, x: TaskId, b: Base)
    requires Inv(s) && Chain(s, x, b)
    ensures CommitsOpen(s, x)
    ensures forall w :: PcOf(s, w).Deciding? && PcOf(s, w).id == x ==> s.db.tasks[x].status.Running?
  {
    forall w | PcOf(s, w).Deciding? && PcOf(s, w).id == x
      ensures s.db.tasks[x].status.Running? && Updatable(s, x, PcOf(s, w).mutation)
    {
      assert At(s.ticker, s.pool, x, Held(w));
      assert Agrees(s.db.tasks[x], s.pool.workers[w].pc, b);
      if x in Locked(s) { LockedIsPending(s, x); }
    }
  }

  lemma LockedIsPending(s: Sys, x: TaskId)
    requires SchedsSound(s) && x in Locked(s)
    ensures x in s.db.tasks && s.db.tasks[x].status.Pending?
  {
    var p :| p in s.ticker.scheds && s.ticker.scheds[p].Selected? && x in s.ticker.scheds[p].batch;
    assert SchedSound(s, s.ticker.scheds[p]);
    assert Ready(s.db, x);
  }

  // ----- steps other than the commit on x -----

  lemma PlacesRun(s: Sys, a: Action, x: TaskId, u: Place)
    requires Calm(s, a, x) && WorkersSound(s) && CommitsOpen(s, x) && RowQuiet(s, a, x)
    requires Located(s, x, s.db.tasks[x].status) && At(TickerStep(s, a), PoolStep(s, a), x, u)
    ensures DbAfter(s, a).tasks[x].status.Running?
  {
    CameFrom(s, a, x, u);
  }

  lemma PlacesSingle(s: Sys, a: Action, x: TaskId, u: Place, v: Place)
    requires Calm(s, a, x) && WorkersSound(s) && SchedsSound(s) && CommitsOpen(s, x)
    requires Located(s, x, s.db.tasks[x].status)
    requires At(TickerStep(s, a), PoolStep(s, a), x, u) && At(TickerStep(s, a), PoolStep(s, a), x, v)
    ensures u == v
  {
    CameFrom(s, a, x, u);
    CameFrom(s, a, x, v);
    if OpOf(s, a).Mark? && x in OpOf(s, a).batch {
      MarkedWasPending(s, a, x);
      NewPlaceUnique(s, a, x, u, v);
    } else {
      BeforeInjective(s, a, x, u, v);
    }
  }

  lemma MarkedWasPending(s: Sys, a: Action, x: TaskId)
    requires SchedsSound(s) && OpOf(s, a).Mark? && x in OpOf(s, a).batch
    ensures x in s.db.tasks && s.db.tasks[x].status.Pending? && s.db.tasks[x].scheduledAt <= s.now
  {
    assert SchedSound(s, s.ticker.scheds[a.p]);
  }

  lemma LocatedKept(s: Sys, a: Action, x: TaskId, b: Base)
    requires Inv(s) && Chain(s, x, b) && Calm(s, a, x) && !Commits(s, a, x)
    ensures x in Next(s, a).db.tasks && Located(Next(s, a), x, Next(s, a).db.tasks[x].status)
  {
    var t := Next(s, a);
    RowOfX(s, a, x);
    CommitsAreOpen(s, x, b);
    forall u | At(t.ticker, t.pool, x, u) ensures t.db.tasks[x].status.Running? {
      PlacesRun(s, a, x, u);
    }
    forall u, v | At(t.ticker, t.pool, x, u) && At(t.ticker, t.pool, x, v) ensures u == v {
      PlacesSingle(s, a, x, u, v);
    }
  }

  lemma NewPlaceUnique(s: Sys, a: Action, x: TaskId, u: Place, v: Place)
    requires SchedsSound(s) && a.CommitPick? && OpOf(s, a).Mark?
    requires u.Queued? && v.Queued? && u.p == a.p == v.p
    requires At(TickerStep(s, a), PoolStep(s, a), x, u) && At(TickerStep(s, a), PoolStep(s, a), x, v)
    ensures u == v
  {
    MarksAreDistinct(s, a);
  }

  /** Positions of the workers on x: untouched, freshly read, or just decided. */
  lemma PcAfter(s: Sys, a: Action, x: TaskId, w: nat)
    requires w in PoolStep(s, a).workers && Undecided(PoolStep(s, a).workers[w].pc, x) && x in s.db.tasks
    ensures w in s.pool.workers || a.Restart?
    ensures var pc := PoolStep(s, a).workers[w].pc;
            || pc == PcOf(s, w)
            || (a == Read(w) && PcOf(s, w).Idle? && pc.Executing? && pc.snap == s.db.tasks[x])
            || (a.Finish? && a.w == w && PcOf(s, w).Executing? && PcOf(s, w).id == x && pc.Deciding? &&
                pc.mutation == Decide(s.pool.workers[w].name, PcOf(s, w).snap, a.outcome, s.now))
  {
    if !Acts(a, w) {
      BystanderKept(s, a, w);
    } else if a.Read? {
      assert PoolStep(s, a) == ReadStep(s, w, s.pool.workers[w]);
    } else if a.Finish? {
      assert PoolStep(s, a) == FinishStep(s, w, s.pool.workers[w], a.outcome);
    }
  }

  lemma VerdictOfFailure(s: Sys, x: TaskId, t: Task, name: string, snap: Task, o: Outcome, b: Base)
    requires snap.attemptCount == t.attemptCount >= 0 && snap.retryLimit == t.retryLimit
    requires o.Failure? && !o.cancelled && t.scheduledAt <= s.now && t.scheduledAt >= Earliest(b, t.attemptCount)
    ensures Verdict(t, Decide(name, snap, o, s.now), b)
  {
  }

  lemma AgreementKept(s: Sys, a: Action, x: TaskId, b: Base, w: nat)
    requires Chain(s, x, b) && RowSound(s.db.tasks[x]) && Calm(s, a, x) && RowQuiet(s, a, x)
    requires w in PoolStep(s, a).workers && Undecided(PoolStep(s, a).workers[w].pc, x)
    ensures Agrees(DbAfter(s, a).tasks[x], PoolStep(s, a).workers[w].pc, b)
  {
    PcAfter(s, a, x, w);
    var t := s.db.tasks[x];
    if Undecided(PcOf(s, w), x) {
      assert At(s.ticker, s.pool, x, Held(w));
      assert Agrees(t, PcOf(s, w), b);
      if a.Finish? && a.w == w && PcOf(s, w).Executing? {
        VerdictOfFailure(s, x, t, s.pool.workers[w].name, PcOf(s, w).snap, a.outcome, b);
      }
    }
  }

  predicate Finishes(s: Sys, a: Action, x: TaskId) {
    a.Finish? && PcOf(s, a.w).Executing? && PcOf(s, a.w).id == x
  }

  lemma DecidedByAfter(s: Sys, a: Action, x: TaskId, w: nat)
    requires Calm(s, a, x) && !Commits(s, a, x)
    ensures DecidedBy(PoolStep(s, a), x, w) <==> DecidedBy(s.pool, x, w) || (Finishes(s, a, x) && a.w == w)
  {
    if !Acts(a, w) {
      if w in PoolStep(s, a).workers {
        BystanderKept(s, a, w);
      }
      if w in s.pool.workers {
        BystanderStays(s, a, w);
      }
    }
  }

  lemma DecidedAfter(s: Sys, a: Action, x: TaskId)
    requires Calm(s, a, x) && !Commits(s, a, x)
    ensures Decided(PoolStep(s, a), x) <==> Decided(s.pool, x) || Finishes(s, a, x)
  {
    if w :| DecidedBy(s.pool, x, w) {
      DecidedByAfter(s, a, x, w);
    }
    if Finishes(s, a, x) {
      DecidedByAfter(s, a, x, a.w);
    }
    if w :| DecidedBy(PoolStep(s, a), x, w) {
      DecidedByAfter(s, a, x, w);
    }
  }

  lemma RunsAfter(s: Sys, a: Action, x: TaskId)
    requires Calm(s, a, x)
    ensures PoolStep(s, a).started[x] ==
            s.pool.started[x] + if Finishes(s, a, x) then 1 else 0
  {
  }

  lemma FailuresAfter(s: Sys, a: Action, x: TaskId)
    requires !Commits(s, a, x)
    ensures Record(s.ledger, s.db, OpOf(s, a)).failures[x] == s.ledger.failures[x]
  {
  }

  lemma BooksKept(s: Sys, a: Action, x: TaskId, b: Base)
    requires SchedsSound(s) && Chain(s, x, b) && Calm(s, a, x) && !Commits(s, a, x) && RowQuiet(s, a, x)
    ensures Books(Next(s, a), x, DbAfter(s, a).tasks[x], b)
  {
    DecidedAfter(s, a, x);
    RunsAfter(s, a, x);
    FailuresAfter(s, a, x);
    if OpOf(s, a).Mark? && x in OpOf(s, a).batch {
      MarkedWasPending(s, a, x);
      if w :| DecidedBy(s.pool, x, w) {
        assert At(s.ticker, s.pool, x, Held(w));
      }
    }
    if Finishes(s, a, x) {
      assert At(s.ticker, s.pool, x, Held(a.w));
      if w :| DecidedBy(s.pool, x, w) {
        assert At(s.ticker, s.pool, x, Held(w));
      }
    }
  }

  // ----- the delivery of a running task is never dropped -----

  ghost function After(s: Sys, a: Action, pl: Place): Place {
    match a
    case Publish(p, entry) =>
      if TickerStep(s, a) == s.ticker || !pl.Queued? || pl.p != p then pl
      else if pl.i == 0 && entry.Some? then Posted(entry.value)
      else if pl.i == 0 then pl
      else Queued(p, pl.i - 1)
    case Deliver(w, m) =>
      if pl == Posted(m) && w in s.pool.workers then Boxed(w, |s.pool.workers[w].inbox|) else pl
    case Read(w) =>
      if pl.Boxed? && pl.w == w && PcOf(s, w).Idle? then if pl.i == 0 then Held(w) else Boxed(w, pl.i - 1)
      else pl
    case _ => pl
  }

  lemma QueuedAfter(s: Sys, a: Action, x: TaskId, p: nat, i: nat)
    requires Calm(s, a, x) && StreamSound(s) && WorkersSound(s) && At(s.ticker, s.pool, x, Queued(p, i))
    ensures At(TickerStep(s, a), PoolStep(s, a), x, After(s, a, Queued(p, i)))
  {
    if !OfSched(a, p) {
      SchedBystander(s, a, p);
    } else if a.Publish? {
      assert PoolStep(s, a) == s.pool;
      if TickerStep(s, a) != s.ticker && i == 0 {
        NewEntryUnheld(s, a.entry.value);
      }
    }
  }

  lemma NewEntryUnheld(s: Sys, m: nat)
    requires StreamSound(s) && WorkersSound(s) && m !in s.ticker.stream
    ensures m !in s.pool.acked && Unheld(s.pool, m)
  {
    forall w | w in s.pool.workers ensures !InHands(s.pool.workers[w], m) {
      assert WorkerSound(s, s.pool.workers[w]);
    }
  }

  lemma PostedAfter(s: Sys, a: Action, x: TaskId, m: nat)
    requires Calm(s, a, x) && At(s.ticker, s.pool, x, Posted(m))
    ensures At(TickerStep(s, a), PoolStep(s, a), x, After(s, a, Posted(m)))
  {
    NextGrows(s, a);
    if !(a.Deliver? && a.msg == m && a.w in s.pool.workers) {
      forall w | w in PoolStep(s, a).workers ensures !InHands(PoolStep(s, a).workers[w], m) {
        if InHands(PoolStep(s, a).workers[w], m) {
          HandsBefore(s, a, m, w);
        }
      }
      AckedBefore(s, a, m);
    }
  }

  lemma AckedBefore(s: Sys, a: Action, m: nat)
    requires Unheld(s.pool, m)
    ensures m in PoolStep(s, a).acked ==> m in s.pool.acked
  {
    if a.Ack? && a.w in s.pool.workers {
      assert !InHands(s.pool.workers[a.w], m);
    }
  }

  /** Only reading the head moves an inbox. */
  lemma InboxKept(s: Sys, a: Action, w: nat, i: nat)
    requires w in s.pool.workers && i < |s.pool.workers[w].inbox| && !Leaves(a, w)
    requires !(a == Read(w) && s.pool.workers[w].pc.Idle?)
    ensures w in PoolStep(s, a).workers && i < |PoolStep(s, a).workers[w].inbox|
    ensures PoolStep(s, a).workers[w].inbox[i] == s.pool.workers[w].inbox[i]
  {
    if !Acts(a, w) {
      BystanderStays(s, a, w);
    } else if a.Deliver? {
      assert PoolStep(s, a) == DeliverStep(s, w, s.pool.workers[w], a.msg);
    }
  }

  lemma ReadMoves(s: Sys, x: TaskId, w: nat, i: nat)
    requires At(s.ticker, s.pool, x, Boxed(w, i)) && x in s.db.tasks && !Terminal(s.db.tasks[x].status) &&
             PcOf(s, w).Idle?
    ensures At(s.ticker, PoolStep(s, Read(w)), x, if i == 0 then Held(w) else Boxed(w, i - 1))
  {
  }

  lemma BoxedAfter(s: Sys, a: Action, x: TaskId, w: nat, i: nat)
    requires Calm(s, a, x) && At(s.ticker, s.pool, x, Boxed(w, i)) && x in s.db.tasks && !Terminal(s.db.tasks[x].status)
    ensures At(TickerStep(s, a), PoolStep(s, a), x, After(s, a, Boxed(w, i)))
  {
    BoxedIsBusy(s, x, w, i);
    if a == Read(w) && PcOf(s, w).Idle? {
      ReadMoves(s, x, w, i);
    } else {
      InboxKept(s, a, w, i);
      StreamKeeps(s, a, s.pool.workers[w].inbox[i]);
    }
  }

  lemma BoxedIsBusy(s: Sys, x: TaskId, w: nat, i: nat)
    requires At(s.ticker, s.pool, x, Boxed(w, i))
    ensures Busy(s, w, x)
  {
    assert s.pool.workers[w].inbox[i] in s.pool.workers[w].inbox;
  }

  lemma StreamKeeps(s: Sys, a: Action, m: nat)
    requires m in s.ticker.stream
    ensures m in TickerStep(s, a).stream && TickerStep(s, a).stream[m] == s.ticker.stream[m]
  {
  }

  lemma HeldAfter(s: Sys, a: Action, x: TaskId, w: nat)
    requires Calm(s, a, x) && At(s.ticker, s.pool, x, Held(w)) && !Commits(s, a, x)
    ensures At(TickerStep(s, a), PoolStep(s, a), x, Held(w))
  {
    assert Busy(s, w, x);
    if !Acts(a, w) {
      BystanderStays(s, a, w);
    }
  }

  lemma GoesOn(s: Sys, a: Action, x: TaskId, pl: Place)
    requires Calm(s, a, x) && StreamSound(s) && WorkersSound(s) && x in s.db.tasks && !Terminal(s.db.tasks[x].status)
    requires !Commits(s, a, x) && At(s.ticker, s.pool, x, pl)
    ensures Somewhere(TickerStep(s, a), PoolStep(s, a), x)
  {
    match pl
    case Queued(p, i) => QueuedAfter(s, a, x, p, i);
    case Posted(m) => PostedAfter(s, a, x, m);
    case Boxed(w, i) => BoxedAfter(s, a, x, w, i);
    case Held(w) => HeldAfter(s, a, x, w);
  }

  lemma PickedGoesOn(s: Sys, a: Action, x: TaskId)
    requires OpOf(s, a).Mark? && x in OpOf(s, a).batch
    ensures Somewhere(TickerStep(s, a), PoolStep(s, a), x)
  {
    var batch := OpOf(s, a).batch;
    var i :| 0 <= i < |batch| && batch[i] == x;
    assert At(TickerStep(s, a), PoolStep(s, a), x, Queued(a.p, i));
  }

  lemma RunningGoesOn(s: Sys, a: Action, x: TaskId, b: Base)
    requires StreamSound(s) && WorkersSound(s) && Chain(s, x, b) && Calm(s, a, x) && !Commits(s, a, x) &&
             RowQuiet(s, a, x)
    ensures DbAfter(s, a).tasks[x].status.Running? ==> Somewhere(TickerStep(s, a), PoolStep(s, a), x)
  {
    if OpOf(s, a).Mark? && x in OpOf(s, a).batch {
      PickedGoesOn(s, a, x);
    } else if s.db.tasks[x].status.Running? {
      var u :| At(s.ticker, s.pool, x, u);
      GoesOn(s, a, x, u);
    }
  }

  // ----- the commit on x -----

  /** The committed verdict ends the delivery. */
  lemma CommitEndsDelivery(s: Sys, w: nat, x: TaskId, b: Base, u: Place)
    requires Inv(s) && Chain(s, x, b) && Commits(s, Commit(w), x)
    ensures !At(s.ticker, PoolStep(s, Commit(w)), x, u)
  {
    CommitsAreOpen(s, x, b);
    if At(s.ticker, PoolStep(s, Commit(w)), x, u) {
      assert TickerStep(s, Commit(w)) == s.ticker;
      CameFrom(s, Commit(w), x, u);
      assert At(s.ticker, s.pool, x, Held(w));
      CommittedPc(s, w, x);
    }
  }

  lemma CommittedPc(s: Sys, w: nat, x: TaskId)
    requires Commits(s, Commit(w), x) && Updatable(s, x, PcOf(s, w).mutation)
    ensures !Undecided(PoolStep(s, Commit(w)).workers[w].pc, x)
    ensures PoolStep(s, Commit(w)).started == s.pool.started
  {
  }

  /** The row a verdict leaves, by the two kinds of verdict. */
  lemma CommittedRow(s: Sys, w: nat, x: TaskId, b: Base)
    requires Commits(s, Commit(w), x) && Updatable(s, x, PcOf(s, w).mutation)
    requires x in s.db.tasks && RowSound(s.db.tasks[x]) && s.db.tasks[x].status.Running? &&
             Verdict(s.db.tasks[x], PcOf(s, w).mutation, b)
    ensures x in DbAfter(s, Commit(w)).tasks
    ensures var t, u := s.db.tasks[x], DbAfter(s, Commit(w)).tasks[x];
            var l' := Record(s.ledger, s.db, OpOf(s, Commit(w)));
            && u.retryLimit == t.retryLimit
            && if t.attemptCount + 1 < t.retryLimit
               then && u.status.Pending? && u.attemptCount == t.attemptCount + 1 &&
                 u.scheduledAt >= Earliest(b, u.attemptCount)
                    && l'.failures == s.ledger.failures
               else && u.status.Failed? && u.attemptCount == t.attemptCount && u.scheduledAt == t.scheduledAt
                    && l'.failures[x] == s.ledger.failures[x] + 1
  {
  }

  lemma ChainCommit(s: Sys, w: nat, x: TaskId, b: Base)
    requires Inv(s) && Chain(s, x, b) && Commits(s, Commit(w), x)
    ensures Chain(Next(s, Commit(w)), x, b)
  {
    var t := Next(s, Commit(w));
    CommitsAreOpen(s, x, b);
    assert At(s.ticker, s.pool, x, Held(w)) && DecidedBy(s.pool, x, w);
    assert RowSound(s.db.tasks[x]);
    CommittedRow(s, w, x, b);
    CommittedPc(s, w, x);
    forall u ensures !At(t.ticker, t.pool, x, u) {
      CommitEndsDelivery(s, w, x, b, u);
    }
    forall v | v in t.pool.workers ensures !Undecided(t.pool.workers[v].pc, x) {
      assert !At(t.ticker, t.pool, x, Held(v));
    }
  }

  lemma ChainStep(s: Sys, a: Action, x: TaskId, b: Base)
    requires Inv(s) && Chain(s, x, b) && Calm(s, a, x)
    ensures Chain(Next(s, a), x, b)
  {
    if Commits(s, a, x) {
      ChainCommit(s, a.w, x, b);
    } else {
      RowOfX(s, a, x);
      LocatedKept(s, a, x, b);
      BooksKept(s, a, x, b);
      RunningGoesOn(s, a, x, b);
      assert RowSound(s.db.tasks[x]);
      forall w | w in PoolStep(s, a).workers && Undecided(PoolStep(s, a).workers[w].pc, x)
        ensures Agrees(DbAfter(s, a).tasks[x], PoolStep(s, a).workers[w].pc, b)
      {
        AgreementKept(s, a, x, b, w);
      }
    }
  }

  // ----- the whole chain -----

  ghost predicate CalmRun(s: Sys, acts: seq<Action>, x: TaskId)
    decreases |acts|
  {
    acts == [] || (Calm(s, acts[0], x) && CalmRun(Next(s, acts[0]), acts[1..], x))
  }

  lemma {:induction false} ChainRun(s: Sys, acts: seq<Action>, x: TaskId, b: Base)
    requires Inv(s) && Chain(s, x, b) && CalmRun(s, acts, x)
    ensures Chain(Exec(s, acts), x, b)
    decreases |acts|
  {
    if acts != [] {
      ChainStep(s, acts[0], x, b);
      NextInv(s, acts[0]);
      ChainRun(Next(s, acts[0]), acts[1..], x, b);
    }
  }

  lemma ChainStarts(s: Sys, x: TaskId)
    requires Inv(s) && x in s.db.tasks && s.db.tasks[x].status.Pending? && x !in s.ledger.picks
    ensures Chain(s, x, Base(s.pool.started[x], s.ledger.failures[x], s.db.tasks[x].scheduledAt))
  {
    forall u ensures !At(s.ticker, s.pool, x, u) {
      NowhereBeforePick(s, x, u);
    }
    forall w | w in s.pool.workers ensures !Undecided(s.pool.workers[w].pc, x) {
      assert !At(s.ticker, s.pool, x, Held(w));
    }
    assert !Started(s.db.tasks[x]);
  }

  lemma NowhereBeforePick(s: Sys, x: TaskId, u: Place)
    requires Inv(s) && x !in s.ledger.picks
    ensures !At(s.ticker, s.pool, x, u)
  {
    match u
    case Queued(p, i) => assert p in s.ticker.scheds ==> SchedSound(s, s.ticker.scheds[p]);
    case Posted(m) =>
    case Boxed(w, i) =>
    case Held(w) => assert w in s.pool.workers ==> WorkerSound(s, s.pool.workers[w]);
  }

  /** What the regime makes of x, relative to the counts and the schedule it started with. */
  ghost predicate ChainOutcome(t: Sys, x: TaskId, b: Base, limit: nat) {
    && x in t.db.tasks
    && b.runs <= t.pool.started[x] <= b.runs + limit
    && (t.db.tasks[x].status.Pending? || t.db.tasks[x].status.Running? || t.db.tasks[x].status.Failed?)
    && (t.db.tasks[x].status.Running? <==> Somewhere(t.ticker, t.pool, x))
    && (forall u, v :: At(t.ticker, t.pool, x, u) && At(t.ticker, t.pool, x, v) ==> u == v)
    && (t.db.tasks[x].status.Failed? <==> t.pool.started[x] == b.runs + limit && !Decided(t.pool, x))
    && (t.db.tasks[x].status.Failed? ==>
          && t.db.tasks[x].attemptCount == limit - 1
          && t.ledger.failures[x] == b.fails + 1
          && t.now >= Earliest(b, limit - 1))
  }

  lemma ChainConcludes(t: Sys, x: TaskId, b: Base)
    requires Inv(t) && Chain(t, x, b)
    ensures ChainOutcome(t, x, b, MaxRuns(t.db.tasks[x].retryLimit))
  {
    assert RowSound(t.db.tasks[x]);
    if w :| DecidedBy(t.pool, x, w) {
      assert At(t.ticker, t.pool, x, Held(w));
    }
  }

  lemma ChainFrom(s: Sys, acts: seq<Action>, x: TaskId, b: Base)
    requires Inv(s) && Chain(s, x, b) && CalmRun(s, acts, x)
    ensures ChainOutcome(Exec(s, acts), x, b, MaxRuns(s.db.tasks[x].retryLimit))
  {
    ChainRun(s, acts, x, b);
    ExecInv(s, acts);
    ChainConcludes(Exec(s, acts), x, b);
    IdentityForever(s, acts, x);
  }

  /** From a task never picked before, through any calm run: it has been run at most
      max(1, limit) times; exactly one delivery is under way while it is running, and none
      otherwise; it is failed exactly when it was run that often and the last outcome
      is committed, and then it failed once, stores one attempt less, and failed no earlier than
      its schedule plus all its backoffs. */
  lemma AlwaysFailingChain(before: seq<Action>, acts: seq<Action>, x: TaskId)
    requires var s := Exec(INIT, before);
             x in s.db.tasks && s.db.tasks[x].status.Pending? && x !in s.ledger.picks && CalmRun(s, acts, x)
    ensures var s := Exec(INIT, before);
            ChainOutcome(Exec(s, acts), x, Base(s.pool.started[x], s.ledger.failures[x], s.db.tasks[x].scheduledAt),
                    MaxRuns(s.db.tasks[x].retryLimit))
  {
    var s := Exec(INIT, before);
    ReachableInv(s);
    ChainStarts(s, x);
    ChainFrom(s, acts, x, Base(s.pool.started[x], s.ledger.failures[x], s.db.tasks[x].scheduledAt));
  }
}
