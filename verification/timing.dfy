/** The heartbeat contract between internal/usecase/execute.go and internal/usecase/heartbeat.go. */
module Timing {
  import opened Domain
  import opened Store
  import opened Protocol
  import opened TableInvariant
  import opened ActorInvariant
  import opened Guarantees
  import Backoff

  const HEARTBEAT_INTERVAL: int := 5 * Backoff.SECOND

  /** Throughout the run the worker executes x, and its ticker never lets more than one
      interval pass since `since`, the later of the handler's start and its last heartbeat. */
  ghost predicate Beating(s: Sys, acts: seq<Action>, w: nat, x: TaskId, since: int)
    decreases |acts|
  {
    && PcOf(s, w).Executing? && PcOf(s, w).id == x
    && since <= s.now <= since + HEARTBEAT_INTERVAL
    && (acts == [] ||
        Beating(Next(s, acts[0]), acts[1..], w, x, if acts[0] == Heartbeat(w) then s.now else since))
  }

  /** While the row is running, its update is recent enough to last until the next heartbeat. */
  ghost predicate Covered(s: Sys, x: TaskId, timeout: int, since: int) {
    x in s.db.tasks && s.db.tasks[x].status.Running? ==>
      s.db.tasks[x].updatedAt + timeout >= since + HEARTBEAT_INTERVAL
  }

  /** The time a transaction stamps on the rows it changes. */
  predicate StampedNow(op: Op, now: int) {
    op.Skip? || op.Purge? || op.Insert? || op.at == now
  }

  lemma RunningAfterOp(db: Db, l: Ledger, op: Op, x: TaskId, now: int)
    requires OpSound(db, l, op) && StampedNow(op, now) && x in db.tasks && db.tasks[x].updatedAt <= now
    requires x in Apply(db, op).tasks && Apply(db, op).tasks[x].status.Running?
    ensures var t, u := db.tasks[x], Apply(db, op).tasks[x];
            (t.status.Running? && u.updatedAt >= t.updatedAt) || u.updatedAt == now
  {
  }

  lemma CoveredOp(s: Sys, a: Action, x: TaskId)
    requires Inv(s) && x in s.ledger.birth
    requires var db := Apply(s.db, OpOf(s, a)); x in db.tasks && db.tasks[x].status.Running?
    ensures x in s.db.tasks
    ensures var t, u := s.db.tasks[x], Apply(s.db, OpOf(s, a)).tasks[x];
            (t.status.Running? && u.updatedAt >= t.updatedAt) || u.updatedAt == s.now
  {
    NotReborn(s, a, x);
    OpIsSound(s, a);
    OpNow(s, a);
    assert RowHistorySound(s, x, s.db.tasks[x]);
    RunningAfterOp(s.db, s.ledger, OpOf(s, a), x, s.now);
  }

  lemma BeatUpdates(s: Sys, w: nat, x: TaskId)
    requires PcOf(s, w).Executing? && PcOf(s, w).id == x && x in s.db.tasks && s.db.tasks[x].status.Running?
    ensures Next(s, Heartbeat(w)).db.tasks[x].updatedAt == s.now
  {
  }

  lemma CoveredKept(s: Sys, a: Action, w: nat, x: TaskId, timeout: int, since: int)
    requires Inv(s) && x in s.ledger.birth && HEARTBEAT_INTERVAL <= timeout
    requires PcOf(s, w).Executing? && PcOf(s, w).id == x && since <= s.now
    requires Covered(s, x, timeout, since)
    ensures Covered(Next(s, a), x, timeout, if a == Heartbeat(w) then s.now else since)
  {
    if x in Next(s, a).db.tasks && Next(s, a).db.tasks[x].status.Running? {
      CoveredOp(s, a, x);
      if a == Heartbeat(w) && s.db.tasks[x].status.Running? {
        BeatUpdates(s, w, x);
      }
    }
  }

  /** The action leaves the row exactly as it is. */
  ghost predicate Spared(s: Sys, a: Action, x: TaskId) {
    x in s.db.tasks ==> x in Next(s, a).db.tasks && Next(s, a).db.tasks[x] == s.db.tasks[x]
  }

  lemma RecentIsSpared(s: Sys, x: TaskId, timeout: int)
    requires x in s.db.tasks && s.db.tasks[x].status.Running? ==> s.db.tasks[x].updatedAt + timeout >= s.now
    ensures Spared(s, ResetStuck(timeout), x)
  {
  }

  /** No stuck check of the run, made with this timeout, changes the row. */
  ghost predicate SparedThroughout(s: Sys, acts: seq<Action>, timeout: int, x: TaskId)
    decreases |acts|
  {
    acts == [] ||
    ((acts[0] == ResetStuck(timeout) ==> Spared(s, acts[0], x)) &&
     SparedThroughout(Next(s, acts[0]), acts[1..], timeout, x))
  }

  /** Everything the argument needs at one moment of the execution. */
  ghost predicate Guarded(s: Sys, acts: seq<Action>, w: nat, x: TaskId, timeout: int, since: int) {
    && Inv(s) && x in s.ledger.birth && HEARTBEAT_INTERVAL <= timeout
    && Beating(s, acts, w, x, since) && Covered(s, x, timeout, since)
  }

  function Since(s: Sys, a: Action, w: nat, since: int): int {
    if a == Heartbeat(w) then s.now else since
  }

  lemma GuardedStep(s: Sys, acts: seq<Action>, w: nat, x: TaskId, timeout: int, since: int)
    requires Guarded(s, acts, w, x, timeout, since) && acts != []
    ensures Guarded(Next(s, acts[0]), acts[1..], w, x, timeout, Since(s, acts[0], w, since))
  {
    NextInv(s, acts[0]);
    BirthAfter(s, acts[0], x);
    CoveredKept(s, acts[0], w, x, timeout, since);
  }

  /** A task whose handler started early enough after the last update of its row, and whose
      worker keeps its heartbeat interval, is left alone by every stuck check of the run. */
  lemma {:induction false} NeverResetWhileExecuting(s: Sys, acts: seq<Action>, w: nat, x: TaskId, timeout: int,
      since: int)
    requires Guarded(s, acts, w, x, timeout, since)
    ensures SparedThroughout(s, acts, timeout, x)
    decreases |acts|
  {
    if acts != [] {
      RecentIsSpared(s, x, timeout);
      GuardedStep(s, acts, w, x, timeout, since);
      NeverResetWhileExecuting(Next(s, acts[0]), acts[1..], w, x, timeout, Since(s, acts[0], w, since));
    }
  }

  /** The same from the pick: the handler starts within timeout - 5s of it. */
  lemma PickedTaskSurvives(before: seq<Action>, acts: seq<Action>, w: nat, x: TaskId, timeout: int)
    requires var s := Exec(INIT, before);
             && Beating(s, acts, w, x, s.now)
             && x in s.db.tasks && s.db.tasks[x].status.Running?
             && s.now <= s.db.tasks[x].updatedAt + timeout - HEARTBEAT_INTERVAL
    ensures SparedThroughout(Exec(INIT, before), acts, timeout, x)
  {
    var s := Exec(INIT, before);
    ReachableInv(s);
    assert RowHistorySound(s, x, s.db.tasks[x]);
    NeverResetWhileExecuting(s, acts, w, x, timeout, s.now);
  }

  /** Stuck checks with the given timeout come at most timeout/2 apart, the last one at `last`. */
  ghost predicate Checking(s: Sys, acts: seq<Action>, timeout: nat, last: int)
    decreases |acts|
  {
    && last <= s.now <= last + timeout / 2
    && (acts == [] ||
        Checking(Next(s, acts[0]), acts[1..], timeout, if acts[0] == ResetStuck(timeout) then s.now else last))
  }

  /** The row is running and has not been touched since u. */
  ghost predicate SilentSince(db: Db, x: TaskId, u: int) {
    x in db.tasks && db.tasks[x].status.Running? && db.tasks[x].updatedAt == u
  }

  lemma SilentBeforeOp(db: Db, l: Ledger, op: Op, x: TaskId, now: int)
    requires OpSound(db, l, op) && StampedNow(op, now) && x in db.tasks
    requires x in Apply(db, op).tasks && Apply(db, op).tasks[x].status.Running? &&
             Apply(db, op).tasks[x].updatedAt != now
    ensures Apply(db, op).tasks[x] == db.tasks[x]
    ensures op.Reset? ==> op.cutoff <= db.tasks[x].updatedAt
  {
  }

  lemma SilenceStep(s: Sys, a: Action, x: TaskId, u: int)
    requires CallsSound(s) && SchedsSound(s) && WorkersSound(s)
    requires x in s.ledger.birth && SilentSince(Apply(s.db, OpOf(s, a)), x, u)
    ensures SilentSince(s.db, x, u) || u == s.now
    ensures a.ResetStuck? && SilentSince(s.db, x, u) && u != s.now ==> s.now - a.timeout <= u
  {
    NotReborn(s, a, x);
    OpIsSound(s, a);
    OpNow(s, a);
    if u != s.now {
      SilentBeforeOp(s.db, s.ledger, OpOf(s, a), x, s.now);
    }
  }

  /** A running row nobody updates is reset no later than one and a half timeouts after its
      last update: past that moment it is no longer running and untouched. */
  lemma {:induction false} StuckTaskIsReset(s: Sys, acts: seq<Action>, x: TaskId, u: int, timeout: nat, last: int)
    requires Inv(s) && x in s.ledger.birth && Checking(s, acts, timeout, last)
    requires SilentSince(s.db, x, u) ==> last <= u + timeout
    ensures SilentSince(Exec(s, acts).db, x, u) ==> Exec(s, acts).now <= u + timeout + timeout / 2
    decreases |acts|
  {
    if acts != [] {
      var n := Next(s, acts[0]);
      NextInv(s, acts[0]);
      BirthAfter(s, acts[0], x);
      var last' := if acts[0] == ResetStuck(timeout) then s.now else last;
      if SilentSince(n.db, x, u) {
        SilenceStep(s, acts[0], x, u);
      }
      StuckTaskIsReset(n, acts[1..], x, u, timeout, last');
    }
  }
}
