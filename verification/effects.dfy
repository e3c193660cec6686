/** What each action does to the tables, column by column and in the columns' own terms, for every
    state of the system.  Together these lemmas say what every action does to every row. */
module Effects {
  import opened Domain
  import opened Store
  import opened Protocol
  import Ranking
  import Backoff

  /** An open pick transaction holds the row. */
  ghost predicate HeldByPick(s: Sys, x: TaskId) {
    exists p :: p in s.ticker.scheds && s.ticker.scheds[p].Selected? && x in s.ticker.scheds[p].batch
  }

  // ----- the pick -----

  /** The row may be picked: pending, due, held by no open pick, and each task it depends on is
      completed or gone. */
  ghost predicate Pickable(s: Sys, x: TaskId) {
    && x in s.db.tasks
    && s.db.tasks[x].status == Pending
    && s.db.tasks[x].scheduledAt <= s.now
    && !HeldByPick(s, x)
    && forall d :: d in s.db.tasks && (x, d) in s.db.deps ==> s.db.tasks[d].status == Completed
  }

  /** Row x may stand before row y: higher priority, or the same and not later. */
  predicate MayPrecede(t: Task, u: Task) {
    t.priority > u.priority || (t.priority == u.priority && t.scheduledAt <= u.scheduledAt)
  }

  /** The batch a scheduler may get: distinct pickable rows, each in its place before the later
      ones and before every pickable row left behind, as many as limit and table allow. */
  ghost predicate RightBatch(s: Sys, limit: int, batch: seq<TaskId>) {
    && Int32(limit) >= 0
    && (forall i :: 0 <= i < |batch| ==> Pickable(s, batch[i]))
    && (forall i, j :: 0 <= i < j < |batch| ==>
          batch[i] != batch[j] && MayPrecede(s.db.tasks[batch[i]], s.db.tasks[batch[j]]))
    && (forall i, x :: 0 <= i < |batch| && Pickable(s, x) && x !in batch ==>
          MayPrecede(s.db.tasks[batch[i]], s.db.tasks[x]))
    && |batch| == var all := |AllPickable(s)|; if Int32(limit) <= all then Int32(limit) else all
  }

  ghost function AllPickable(s: Sys): set<TaskId> {
    set x | x in s.db.tasks && Pickable(s, x)
  }

  lemma PickableIff(s: Sys, x: TaskId)
    ensures Pickable(s, x) <==> x in PickKeys(s.db, Locked(s), s.now)
  {
    assert HeldByPick(s, x) <==> x in Locked(s);
    if x in s.db.tasks {
      DependenciesIff(s.db, x);
    }
  }

  lemma DependenciesIff(db: Db, x: TaskId)
    ensures (forall d :: d in db.tasks && (x, d) in db.deps ==> db.tasks[d].status == Completed) <==>
            (forall e :: e in db.deps && e.0 == x && e.1 in db.tasks ==> db.tasks[e.1].status.Completed?)
  {
    if forall d :: d in db.tasks && (x, d) in db.deps ==> db.tasks[d].status == Completed {
      forall e | e in db.deps && e.0 == x && e.1 in db.tasks ensures db.tasks[e.1].status.Completed? {
        assert (x, e.1) in db.deps;
      }
    }
  }

  lemma PrecedeIff(s: Sys, x: TaskId, y: TaskId)
    requires x in s.db.tasks && y in s.db.tasks
    requires x in PickKeys(s.db, Locked(s), s.now) && y in PickKeys(s.db, Locked(s), s.now)
    ensures var keys := PickKeys(s.db, Locked(s), s.now);
            MayPrecede(s.db.tasks[x], s.db.tasks[y]) <==> Ranking.Leq(keys[x], keys[y])
  {
  }

  lemma PickableSize(s: Sys)
    ensures |PickKeys(s.db, Locked(s), s.now)| == |AllPickable(s)|
  {
    var keys := PickKeys(s.db, Locked(s), s.now);
    forall x ensures x in keys.Keys <==> x in AllPickable(s) {
      PickableIff(s, x);
    }
    assert keys.Keys == AllPickable(s);
    assert |keys.Keys| == |keys|;
  }

  lemma TopIsRight(s: Sys, limit: int, batch: seq<TaskId>)
    ensures Int32(limit) >= 0 && Ranking.IsTop(PickKeys(s.db, Locked(s), s.now), Int32(limit), batch) <==>
            RightBatch(s, limit, batch)
  {
    var keys := PickKeys(s.db, Locked(s), s.now);
    PickableSize(s);
    forall x ensures Pickable(s, x) <==> x in keys {
      PickableIff(s, x);
    }
    forall x, y | x in keys && y in keys
      ensures MayPrecede(s.db.tasks[x], s.db.tasks[y]) <==> Ranking.Leq(keys[x], keys[y])
    {
      PrecedeIff(s, x, y);
    }
  }

  /** A scheduler at rest can select a batch exactly if it is such a batch. */
  lemma SelectedIff(s: Sys, p: nat, limit: int, batch: seq<TaskId>)
    requires p !in s.ticker.scheds || s.ticker.scheds[p] == Resting
    ensures var t := Next(s, Select(p, limit, batch)).ticker;
            p in t.scheds && t.scheds[p] == Selected(batch) <==> RightBatch(s, limit, batch)
  {
    TopIsRight(s, limit, batch);
  }

  /** The commit of a pick marks the selected rows, and nothing else. */
  lemma PickMarks(s: Sys, p: nat)
    ensures var db := Next(s, CommitPick(p)).db;
            && db.deps == s.db.deps && db.tasks.Keys == s.db.tasks.Keys
            && forall x :: x in s.db.tasks ==>
                 db.tasks[x] ==
                 if p in s.ticker.scheds && s.ticker.scheds[p].Selected? && x in s.ticker.scheds[p].batch
                 then s.db.tasks[x].(status := Running, updatedAt := s.now) else s.db.tasks[x]
  {
  }

  // ----- enqueue -----

  /** A call that built its task inserts it if the schema lets it, with exactly the listed
      dependencies, which are recorded as declared. */
  lemma InsertEffect(s: Sys, c: nat, id: TaskId, t: Task, on: seq<TaskId>)
    requires c in s.api.calls && s.api.calls[c] == Built(id, t, on)
    ensures var n := Next(s, InsertTask(c));
            if && id !in s.db.tasks && t.priority <= 10
               && (t.key != "" ==> forall x :: x in s.db.tasks ==> s.db.tasks[x].key != t.key)
               && (forall i, j :: 0 <= i < j < |on| ==> on[i] != on[j])
               && (forall i :: 0 <= i < |on| ==> on[i] in s.db.tasks || on[i] == id)
            then && n.db.tasks ==
                    s.db.tasks[id := t.(attemptCount := Int32(t.attemptCount), retryLimit := Int32(t.retryLimit))]
                 && (forall e :: e in n.db.deps <==> e in s.db.deps || (e.0 == id && e.1 in on))
                 && n.ledger.declared == s.ledger.declared[id := set d | d in on]
                 && (t.key, id) in n.api.answers
            else n.db == s.db && n.ledger == s.ledger && n.api.answers == s.api.answers
  {
    InsertableIff(s.db, id, t, on);
  }

  // ----- workers -----

  /** A heartbeat stamps a running row with the time and the worker's name. */
  lemma HeartbeatEffect(s: Sys, w: nat)
    requires w in s.pool.workers && s.pool.workers[w].pc.Executing?
    ensures var db, x := Next(s, Heartbeat(w)).db, s.pool.workers[w].pc.id;
            && db.deps == s.db.deps
            && db.tasks == if x in s.db.tasks && s.db.tasks[x].status == Running
                           then s.db.tasks[x := s.db.tasks[x].(updatedAt := s.now, workerId := s.pool.workers[w].name)]
                           else s.db.tasks
  {
  }

  /** The row a closure leaves; the count and the limit pass through 32-bit columns. */
  predicate Wrote(t: Task, u: Task, m: Mutation, now: int) {
    var n, l := Int32(t.attemptCount), Int32(t.retryLimit);
    match m
    case Complete(result, worker) =>
      u == t.(status := Completed, updatedAt := now, result := result, workerId := worker,
              attemptCount := n, retryLimit := l)
    case Retry(attempt, error, nextAt) =>
      u == t.(status := Pending, updatedAt := now, lastError := error, scheduledAt := nextAt, workerId := "",
              attemptCount := Int32(attempt), retryLimit := l)
    case Fail(error) =>
      u == t.(status := Failed, updatedAt := now, lastError := error, workerId := "", attemptCount := n,
        retryLimit := l)
    case Cancel => u == t.(status := Cancelled, updatedAt := now, attemptCount := n, retryLimit := l)
    case Republish =>
      u == t.(status := Pending, updatedAt := now, lastError := "", attemptCount := 0, retryLimit := l)
  }

  /** The statuses from which a closure is accepted. */
  predicate Accepts(st: Status, m: Mutation) {
    match m
    case Complete(_, _) => st == Running
    case Fail(_) => st == Running
    case Cancel => st == Pending
    case _ => st == Running || st == Failed
  }

  /** UpdateTask writes exactly what its closure writes, to an unlocked row whose status allows it. */
  ghost predicate UpdateEffect(s: Sys, db: Db, x: TaskId, m: Mutation) {
    if x in s.db.tasks && !HeldByPick(s, x) && Accepts(s.db.tasks[x].status, m)
    then && db.deps == s.db.deps && db.tasks.Keys == s.db.tasks.Keys
         && Wrote(s.db.tasks[x], db.tasks[x], m, s.now)
         && forall y :: y in s.db.tasks && y != x ==> db.tasks[y] == s.db.tasks[y]
    else db == s.db
  }

  lemma UpdateIsRight(s: Sys, x: TaskId, m: Mutation)
    ensures UpdateEffect(s, if Updatable(s, x, m) then Apply(s.db, Update(x, m, s.now)) else s.db, x, m)
    ensures Updatable(s, x, m) <==> x in s.db.tasks && !HeldByPick(s, x) && Accepts(s.db.tasks[x].status, m)
  {
    assert HeldByPick(s, x) <==> x in Locked(s);
  }

  lemma CommitEffect(s: Sys, w: nat)
    requires w in s.pool.workers && s.pool.workers[w].pc.Deciding?
    ensures UpdateEffect(s, Next(s, Commit(w)).db, s.pool.workers[w].pc.id, s.pool.workers[w].pc.mutation)
  {
    UpdateIsRight(s, s.pool.workers[w].pc.id, s.pool.workers[w].pc.mutation);
  }

  lemma CancelEffect(s: Sys, x: TaskId)
    ensures UpdateEffect(s, Next(s, CancelTask(x)).db, x, Cancel)
  {
    UpdateIsRight(s, x, Cancel);
  }

  lemma RepublishEffect(s: Sys, x: TaskId)
    ensures UpdateEffect(s, Next(s, RepublishTask(x)).db, x, Republish)
  {
    UpdateIsRight(s, x, Republish);
  }

  // ----- maintenance -----

  /** The stuck check takes back exactly the running rows older than the timeout. */
  lemma ResetEffect(s: Sys, timeout: int)
    ensures var db := Next(s, ResetStuck(timeout)).db;
            && db.deps == s.db.deps && db.tasks.Keys == s.db.tasks.Keys
            && forall x :: x in s.db.tasks ==>
                 var t := s.db.tasks[x];
                 db.tasks[x] == if t.status == Running && t.updatedAt + timeout < s.now
                                then t.(status := Pending, workerId := "", updatedAt := s.now) else t
  {
  }

  /** The cleanup deletes exactly the completed and cancelled rows older than the ttl. */
  lemma CleanupRows(s: Sys, ttl: int)
    ensures var n := Next(s, Cleanup(ttl));
            && (forall x :: x in n.db.tasks <==>
                  && x in s.db.tasks
                  && var t := s.db.tasks[x];
                     !((t.status == Completed || t.status == Cancelled) && t.updatedAt + ttl < s.now))
            && (forall x :: x in n.db.tasks ==> n.db.tasks[x] == s.db.tasks[x])
            && (forall x :: x in n.ledger.purgedCancelled <==>
                  || x in s.ledger.purgedCancelled
                  || (x in s.db.tasks && x !in n.db.tasks && s.db.tasks[x].status == Cancelled))
  {
  }

  /** And with them the edges that mention one of them. */
  lemma CleanupEdges(s: Sys, ttl: int)
    requires forall e :: e in s.db.deps ==> e.0 in s.db.tasks && e.1 in s.db.tasks
    ensures var db := Next(s, Cleanup(ttl)).db;
            forall e :: e in db.deps <==> e in s.db.deps && e.0 in db.tasks && e.1 in db.tasks
  {
    CleanupRows(s, ttl);
  }

  /** No other action touches the tables. */
  lemma NoOtherEffect(s: Sys, a: Action)
    requires !a.InsertTask? && !a.CommitPick? && !a.Heartbeat? && !a.Commit?
    requires !a.CancelTask? && !a.RepublishTask? && !a.ResetStuck? && !a.Cleanup?
    ensures Next(s, a).db == s.db && Next(s, a).ledger == s.ledger
  {
  }

  // ----- API calls -----

  /** What Handle accepts, in the command's own fields. */
  predicate Valid(cmd: Cmd, known: set<string>) {
    && !cmd.kindBlank
    && (cmd.payload == "" || cmd.payloadIsJson)
    && 0 <= cmd.priority <= 10
    && (known == {} || cmd.kind in known)
  }

  /** The key lookup of an accepted command answers with the row that carries the key, or misses
      if there is none. */
  lemma LookupEffect(s: Sys, c: nat, cmd: Cmd, known: set<string>, found: Option<TaskId>)
    requires c !in s.api.calls
    ensures var api := Next(s, Lookup(c, cmd, known, found)).api;
            if && Valid(cmd, known) && found.Some?
               && cmd.key != "" && found.value in s.db.tasks && s.db.tasks[found.value].key == cmd.key
            then api == s.api.(answers := s.api.answers + {(cmd.key, found.value)})
            else if && Valid(cmd, known) && found.None?
                    && (cmd.key == "" || forall x :: x in s.db.tasks ==> s.db.tasks[x].key != cmd.key)
            then api == s.api.(calls := s.api.calls[c := Missed(cmd)])
            else api == s.api
  {
  }

  /** The columns of a task as the caller described it, built at the given time. */
  predicate AsDescribed(t: Task, cmd: Cmd, now: int) {
    && t.kind == cmd.kind && t.payload == cmd.payload && t.priority == cmd.priority && t.key == cmd.key
    && t.scheduledAt == (match cmd.scheduledAt case Some(at) => at case None => now)
    && t.createdAt == now && t.updatedAt == now
    && t.status == Pending && t.attemptCount == 0 && t.retryLimit == cmd.retryLimit
    && t.lastError == "" && t.workerId == "" && t.result == None
  }

  lemma BuildEffect(s: Sys, c: nat, id: TaskId, cmd: Cmd)
    requires c in s.api.calls && s.api.calls[c] == Missed(cmd)
    ensures var api := Next(s, Build(c, id)).api;
            if id !in s.api.used && id !in cmd.on
            then && api.used == s.api.used + {id} && c in api.calls && api.calls[c].Built?
                 && api.calls[c].id == id && api.calls[c].on == cmd.on && AsDescribed(api.calls[c].task, cmd, s.now)
            else api == s.api
  {
  }

  /** A call that gives up leaves nothing behind. */
  lemma HangUpEffect(s: Sys, c: nat)
    ensures Next(s, HangUp(c)).api == s.api.(calls := s.api.calls - {c})
  {
  }

  /** Time passes, and nothing else happens. */
  lemma ClockEffect(s: Sys, elapsed: nat)
    ensures Next(s, Clock(elapsed)) == s.(now := s.now + elapsed)
  {
  }

  // ----- schedulers and the stream -----

  /** A publish takes the next row off the queue; if it succeeds, its id is in the stream. */
  lemma PublishStepEffect(s: Sys, p: nat, entry: Option<nat>)
    requires p in s.ticker.scheds && s.ticker.scheds[p].Publishing? && s.ticker.scheds[p].queue != []
    ensures var q, t := s.ticker.scheds[p].queue, Next(s, Publish(p, entry)).ticker;
            match entry
            case None =>
              && t.stream == s.ticker.stream && t.published == s.ticker.published
              && t.lost == s.ticker.lost + multiset{q[0]}
              && t.scheds == s.ticker.scheds[p := if |q| == 1 then Resting else Publishing(q[1..])]
            case Some(m) =>
              if m in s.ticker.stream then t == s.ticker
              else && t.stream == s.ticker.stream[m := q[0]] && t.published == s.ticker.published + multiset{q[0]}
                   && t.lost == s.ticker.lost
                   && t.scheds == s.ticker.scheds[p := if |q| == 1 then Resting else Publishing(q[1..])]
  {
  }

  /** The commit of a pick hands the selected rows to the publish loop, in their order. */
  lemma CommitPickQueues(s: Sys, p: nat, batch: seq<TaskId>)
    requires p in s.ticker.scheds && s.ticker.scheds[p] == Selected(batch)
    ensures Next(s, CommitPick(p)).ticker ==
            s.ticker.(scheds := s.ticker.scheds[p := if batch == [] then Resting else Publishing(batch)])
  {
  }

  /** A crash forgets what a scheduler had selected or still had to publish, and nothing else. */
  lemma CrashEffect(s: Sys, p: nat)
    requires p in s.ticker.scheds
    ensures var t, c := Next(s, CrashSched(p)).ticker, s.ticker.scheds[p];
            && t.scheds == s.ticker.scheds[p := Resting]
            && t.stream == s.ticker.stream && t.published == s.ticker.published
            && t.lost == (if c.Publishing? then s.ticker.lost + multiset(c.queue) else s.ticker.lost)
  {
  }

  // ----- worker processes -----

  /** A call that fails drops the entry about to be read, or leaves the one in hand unacknowledged. */
  lemma AbandonEffect(s: Sys, w: nat)
    requires w in s.pool.workers
    ensures var k := s.pool.workers[w];
            Next(s, Abandon(w)).pool ==
            if k.pc == Idle && k.inbox != []
            then s.pool.(workers := s.pool.workers[w := k.(inbox := k.inbox[1..])])
            else if k.pc.Deciding? || k.pc.Acking? then s.pool.(workers := s.pool.workers[w := k.(pc := Idle)])
            else s.pool
  {
  }

  /** A worker that starts, or starts again, has nothing in hand. */
  lemma RestartEffect(s: Sys, w: nat, name: string)
    ensures var l := Next(s, Restart(w, name)).pool;
            && l.workers == s.pool.workers[w := Worker(name, [], Idle)]
            && l.acked == s.pool.acked && l.delivered == s.pool.delivered && l.dlq == s.pool.dlq
  {
  }

  /** A posted entry that is not acknowledged goes to the end of the worker's inbox. */
  lemma DeliverEffect(s: Sys, w: nat, m: nat)
    requires w in s.pool.workers
    ensures var l, k := Next(s, Deliver(w, m)).pool, s.pool.workers[w];
            if m in s.ticker.stream && m !in s.pool.acked
            then && l.workers == s.pool.workers[w := k.(inbox := k.inbox + [m])]
                 && l.delivered == s.pool.delivered + {m} && l.acked == s.pool.acked
            else l == s.pool
  {
  }

  /** A worker takes the first entry of its inbox: an unknown task is dropped, a completed or
      cancelled one only acknowledged, any other one executed on the row as it is. */
  lemma ReadEffect(s: Sys, w: nat)
    requires w in s.pool.workers && s.pool.workers[w].pc == Idle && s.pool.workers[w].inbox != []
    ensures var k, u := s.pool.workers[w], Next(s, Read(w)).pool.workers[w];
            var m := k.inbox[0];
            && u.name == k.name && u.inbox == k.inbox[1..]
            && u.pc == if m !in s.ticker.stream || s.ticker.stream[m] !in s.db.tasks then Idle
                       else
                         var x := s.ticker.stream[m];
                         if s.db.tasks[x].status == Completed || s.db.tasks[x].status == Cancelled then Acking(m, x)
                         else Executing(m, x, s.db.tasks[x])
  {
  }

  /** What the outcome of a handler makes a worker ask for: its name and result on a return, the
      error with the next attempt and its backoff while attempts are left and the error is no
      cancellation, the error otherwise. */
  predicate RightChoice(m: Mutation, name: string, snap: Task, o: Outcome, now: int) {
    match o
    case NoHandler => m == Fail("no handler for type \"" + snap.kind + "\"")
    case Success(result) => m == Complete(result, name)
    case Failure(error, cancelled) =>
      var n := snap.attemptCount + 1;
      if n < snap.retryLimit && !cancelled
      then && m.Retry? && m.attempt == n && m.error == error
           && (n >= 0 ==> m.nextAt == now + Min(1_000_000_000 * Backoff.Pow2(n), 300_000_000_000))
      else m == Fail(error)
  }

  lemma DecideIsRight(name: string, snap: Task, o: Outcome, now: int)
    ensures RightChoice(Decide(name, snap, o, now), name, snap, o, now)
  {
    Backoff.DefaultIsExact(snap.attemptCount + 1);
  }

  lemma FinishEffect(s: Sys, w: nat, o: Outcome)
    requires w in s.pool.workers && s.pool.workers[w].pc.Executing?
    ensures var k, l := s.pool.workers[w], Next(s, Finish(w, o)).pool;
            && w in l.workers && l.workers[w].name == k.name && l.workers[w].inbox == k.inbox
            && l.workers[w].pc.Deciding? && l.workers[w].pc.msg == k.pc.msg && l.workers[w].pc.id == k.pc.id
            && RightChoice(l.workers[w].pc.mutation, k.name, k.pc.snap, o, s.now)
            && l.started == (if o == NoHandler then s.pool.started else s.pool.started + multiset{k.pc.id})
            && l.runs ==
               (if o.Success? then s.pool.runs + {Run(k.pc.id, k.pc.snap.payload, o.result, k.name)} else s.pool.runs)
  {
    DecideIsRight(s.pool.workers[w].name, s.pool.workers[w].pc.snap, o, s.now);
  }

  /** After UpdateTask: on with the report for an applied failure, with the ack for any other
      applied change, back to the inbox after a refusal; a lock makes it wait. */
  lemma CommitPoolEffect(s: Sys, w: nat)
    requires w in s.pool.workers && s.pool.workers[w].pc.Deciding?
    ensures var k, l := s.pool.workers[w], Next(s, Commit(w)).pool;
            var x := k.pc.id;
            if HeldByPick(s, x) then l == s.pool
            else if x in s.db.tasks && Accepts(s.db.tasks[x].status, k.pc.mutation)
            then && l.commits == s.pool.commits + {(k.pc.msg, x)} && l.acked == s.pool.acked && l.dlq == s.pool.dlq
                 && l.seenDone == s.pool.seenDone
                 && l.workers ==
                    s.pool.workers[w := k.(pc := if k.pc.mutation.Fail? then Reporting(k.pc.msg, x)
                                                 else Acking(k.pc.msg, x))]
            else l == s.pool.(workers := s.pool.workers[w := k.(pc := Idle)])
  {
    UpdateIsRight(s, s.pool.workers[w].pc.id, s.pool.workers[w].pc.mutation);
    assert HeldByPick(s, s.pool.workers[w].pc.id) <==> s.pool.workers[w].pc.id in Locked(s);
  }

  lemma ReportEffect(s: Sys, w: nat, ok: bool)
    requires w in s.pool.workers && s.pool.workers[w].pc.Reporting?
    ensures var k, l := s.pool.workers[w], Next(s, Report(w, ok)).pool;
            && l.workers == s.pool.workers[w := k.(pc := Acking(k.pc.msg, k.pc.id))]
            && l.dlq == (if ok then s.pool.dlq + multiset{k.pc.id} else s.pool.dlq)
            && l.acked == s.pool.acked
  {
  }

  lemma AckEffect(s: Sys, w: nat)
    requires w in s.pool.workers && s.pool.workers[w].pc.Acking?
    ensures var k, l := s.pool.workers[w], Next(s, Ack(w)).pool;
            && l.workers == s.pool.workers[w := k.(pc := Idle)] && l.acked == s.pool.acked + {k.pc.msg}
            && l.dlq == s.pool.dlq
  {
  }
}
