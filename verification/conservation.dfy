/** Messages are neither invented nor silently dropped: every committed pick is one stream entry,
    one recorded loss, or still waiting in a scheduler; likewise failures and the DLQ. */
module Conservation {
  import opened Domain
  import opened Store
  import opened Protocol
  import opened ActorInvariant
  import opened Guarantees

  // ----- sums over finite maps -----

  type Parts = map<nat, nat>

  ghost function Sum(m: Parts): nat
    decreases m.Keys
  {
    if m.Keys == {} then 0
    else var p :| p in m.Keys; m[p] + Sum(m - {p})
  }

  function Part(m: Parts, p: nat): nat {
    if p in m then m[p] else 0
  }

  lemma {:induction false} SumSplit(m: Parts, p: nat)
    requires p in m
    ensures Sum(m) == m[p] + Sum(m - {p})
    decreases m.Keys
  {
    var q :| q in m.Keys && Sum(m) == m[q] + Sum(m - {q});
    if q != p {
      SumSplit(m - {q}, p);
      SumSplit(m - {p}, q);
      assert m - {q} - {p} == m - {p} - {q};
    }
  }

  /** Replacing one part changes the sum by that part. */
  lemma SumUpdate(m: Parts, p: nat, v: nat)
    ensures Sum(m[p := v]) + Part(m, p) == Sum(m) + v
  {
    SumSplit(m[p := v], p);
    if p in m {
      SumSplit(m, p);
      assert m[p := v] - {p} == m - {p};
    } else {
      assert m[p := v] - {p} == m;
    }
  }

  lemma {:induction false} SumZero(m: Parts)
    requires forall p :: p in m ==> m[p] == 0
    ensures Sum(m) == 0
    decreases m.Keys
  {
    if m.Keys != {} {
      var q :| q in m.Keys && Sum(m) == m[q] + Sum(m - {q});
      SumZero(m - {q});
    }
  }

  // ----- the books of one task -----

  /** Publishes a scheduler still has to do for x. */
  function Waiting(c: Sched, x: TaskId): nat {
    if c.Publishing? then multiset(c.queue)[x] else 0
  }

  /** DLQ publishes a worker still has to do for x. */
  function Owed(k: Worker, x: TaskId): nat {
    if k.pc.Reporting? && k.pc.id == x then 1 else 0
  }

  ghost function Queues(scheds: map<nat, Sched>, x: TaskId): Parts {
    map p | p in scheds :: Waiting(scheds[p], x)
  }

  ghost function Reports(workers: map<nat, Worker>, x: TaskId): Parts {
    map w | w in workers :: Owed(workers[w], x)
  }

  ghost function Entries(stream: map<nat, TaskId>, x: TaskId): Parts {
    map m | m in stream :: if stream[m] == x then 1 else 0
  }

  ghost predicate PicksConserved(l: Ledger, t: Ticker, x: TaskId) {
    l.picks[x] == t.published[x] + t.lost[x] + Sum(Queues(t.scheds, x))
  }

  ghost predicate FailuresConserved(l: Ledger, k: Pool, x: TaskId) {
    l.failures[x] == k.dlq[x] + k.reportsLost[x] + Sum(Reports(k.workers, x))
  }

  ghost predicate PublishedAreEntries(t: Ticker, x: TaskId) {
    t.published[x] == Sum(Entries(t.stream, x))
  }

  ghost predicate Balanced(s: Sys, x: TaskId) {
    PicksConserved(s.ledger, s.ticker, x) && FailuresConserved(s.ledger, s.pool, x) && PublishedAreEntries(s.ticker, x)
  }

  // ----- picks and the stream -----

  lemma QueueUpdate(scheds: map<nat, Sched>, p: nat, c: Sched, x: TaskId)
    ensures var was := if p in scheds then scheds[p] else Resting;
            Sum(Queues(scheds[p := c], x)) + Waiting(was, x) == Sum(Queues(scheds, x)) + Waiting(c, x)
  {
    SumUpdate(Queues(scheds, x), p, Waiting(c, x));
    assert Queues(scheds[p := c], x) == Queues(scheds, x)[p := Waiting(c, x)];
  }

  predicate Schedules(a: Action) {
    a.Select? || a.CommitPick? || a.Publish? || a.CrashSched?
  }

  lemma OthersKeepPicks(s: Sys, a: Action)
    requires !Schedules(a)
    ensures TickerStep(s, a) == s.ticker && Record(s.ledger, s.db, OpOf(s, a)).picks == s.ledger.picks
  {
  }

  lemma QueueHead(q: seq<TaskId>, x: TaskId)
    requires q != []
    ensures multiset(q)[x] == (if q[0] == x then 1 else 0) + multiset(q[1..])[x]
  {
    assert q == [q[0]] + q[1..];
  }

  /** One scheduler step balances: new picks become queue entries, queue entries become
      published or lost. */
  lemma SchedulerBooks(s: Sys, a: Action, x: TaskId)
    requires Schedules(a) && TickerStep(s, a) != s.ticker
    ensures var t := TickerStep(s, a);
            && a.p in t.scheds && t.scheds == s.ticker.scheds[a.p := t.scheds[a.p]]
            && Record(s.ledger, s.db, OpOf(s, a)).picks[x] +
               s.ticker.published[x] + s.ticker.lost[x] + Waiting(SchedOf(s, a.p), x) ==
               s.ledger.picks[x] + t.published[x] + t.lost[x] + Waiting(t.scheds[a.p], x)
  {
    var c := SchedOf(s, a.p);
    if a.Publish? && c.Publishing? && c.queue != [] {
      QueueHead(c.queue, x);
    }
  }

  lemma DisabledPicksNothing(s: Sys, a: Action, x: TaskId)
    requires Schedules(a) && TickerStep(s, a) == s.ticker
    ensures Record(s.ledger, s.db, OpOf(s, a)).picks[x] == s.ledger.picks[x]
  {
    if a.CommitPick? && SchedOf(s, a.p).Selected? {
      CommitChangesPhase(s, a.p);
    }
  }

  lemma CommitChangesPhase(s: Sys, p: nat)
    requires SchedOf(s, p).Selected?
    ensures CommitPickStep(s, p) != s.ticker
  {
    assert !CommitPickStep(s, p).scheds[p].Selected?;
  }

  lemma PicksStayConserved(s: Sys, a: Action, x: TaskId)
    requires PicksConserved(s.ledger, s.ticker, x)
    ensures PicksConserved(Record(s.ledger, s.db, OpOf(s, a)), TickerStep(s, a), x)
  {
    if !Schedules(a) {
      OthersKeepPicks(s, a);
    } else if TickerStep(s, a) == s.ticker {
      DisabledPicksNothing(s, a, x);
    } else {
      SchedulerBooks(s, a, x);
      QueueUpdate(s.ticker.scheds, a.p, TickerStep(s, a).scheds[a.p], x);
    }
  }

  lemma EntryAdded(s: Sys, a: Action)
    requires TickerStep(s, a).stream != s.ticker.stream
    ensures a.Publish? && a.entry.Some? && a.entry.value !in s.ticker.stream
    ensures SchedOf(s, a.p).Publishing? && SchedOf(s, a.p).queue != []
    ensures var y := SchedOf(s, a.p).queue[0];
            && TickerStep(s, a).stream == s.ticker.stream[a.entry.value := y]
            && TickerStep(s, a).published == s.ticker.published + multiset{y}
  {
  }

  lemma NoEntryAdded(s: Sys, a: Action)
    requires TickerStep(s, a).stream == s.ticker.stream
    ensures TickerStep(s, a).published == s.ticker.published
  {
    if a.Publish? && a.entry.Some? && a.entry.value !in s.ticker.stream {
      assert a.entry.value !in TickerStep(s, a).stream;
    }
  }

  lemma EntriesStayPublished(s: Sys, a: Action, x: TaskId)
    requires PublishedAreEntries(s.ticker, x)
    ensures PublishedAreEntries(TickerStep(s, a), x)
  {
    var t := TickerStep(s, a);
    if t.stream != s.ticker.stream {
      EntryAdded(s, a);
      var m, y := a.entry.value, SchedOf(s, a.p).queue[0];
      var v := if y == x then 1 else 0;
      SumUpdate(Entries(s.ticker.stream, x), m, v);
      assert Entries(t.stream, x) == Entries(s.ticker.stream, x)[m := v];
    } else {
      NoEntryAdded(s, a);
    }
  }

  // ----- failures and the dead letter queue -----

  lemma ReportUpdate(workers: map<nat, Worker>, w: nat, k: Worker, x: TaskId)
    ensures var was := if w in workers then Owed(workers[w], x) else 0;
            Sum(Reports(workers[w := k], x)) + was == Sum(Reports(workers, x)) + Owed(k, x)
  {
    SumUpdate(Reports(workers, x), w, Owed(k, x));
    assert Reports(workers[w := k], x) == Reports(workers, x)[w := Owed(k, x)];
  }

  predicate Works(a: Action) {
    a.Deliver? || a.Read? || a.Finish? || a.Commit? || a.Report? || a.Ack? || a.Abandon? || a.Restart?
  }

  lemma OthersKeepFailures(s: Sys, a: Action)
    requires !Works(a)
    ensures PoolStep(s, a) == s.pool && Record(s.ledger, s.db, OpOf(s, a)).failures == s.ledger.failures
  {
  }

  lemma OneWorkerMoves(s: Sys, a: Action) returns (k: Worker)
    requires Works(a) && (a.Restart? || a.w in s.pool.workers)
    ensures PoolStep(s, a).workers == s.pool.workers[a.w := k] && k == PoolStep(s, a).workers[a.w]
  {
    k := PoolStep(s, a).workers[a.w];
    if a.w in s.pool.workers {
      assert s.pool.workers[a.w := s.pool.workers[a.w]] == s.pool.workers;
    }
  }

  lemma OnlyCommitsFail(s: Sys, a: Action)
    requires !a.Commit?
    ensures Record(s.ledger, s.db, OpOf(s, a)).failures == s.ledger.failures
  {
  }

  lemma CommitBooks(s: Sys, w: nat, x: TaskId)
    requires w in s.pool.workers
    ensures var t := PoolStep(s, Commit(w));
            && w in t.workers && t.dlq == s.pool.dlq && t.reportsLost == s.pool.reportsLost
            && Record(s.ledger, s.db, OpOf(s, Commit(w))).failures[x] + Owed(s.pool.workers[w], x) ==
               s.ledger.failures[x] + Owed(t.workers[w], x)
  {
  }

  lemma ReportBooks(s: Sys, a: Action, x: TaskId)
    requires Works(a) && !a.Commit? && (a.Restart? || a.w in s.pool.workers)
    ensures var t := PoolStep(s, a);
            var was := if a.w in s.pool.workers then Owed(s.pool.workers[a.w], x) else 0;
            && a.w in t.workers
            && s.pool.dlq[x] + s.pool.reportsLost[x] + was == t.dlq[x] + t.reportsLost[x] + Owed(t.workers[a.w], x)
  {
  }

  /** One worker step balances: a committed failure is owed, then reported or lost. */
  lemma WorkerBooks(s: Sys, a: Action, x: TaskId)
    requires Works(a) && (a.Restart? || a.w in s.pool.workers)
    ensures var t := PoolStep(s, a);
            var was := if a.w in s.pool.workers then Owed(s.pool.workers[a.w], x) else 0;
            && a.w in t.workers
            && Record(s.ledger, s.db, OpOf(s, a)).failures[x] + s.pool.dlq[x] + s.pool.reportsLost[x] + was ==
               s.ledger.failures[x] + t.dlq[x] + t.reportsLost[x] + Owed(t.workers[a.w], x)
  {
    if a.Commit? {
      CommitBooks(s, a.w, x);
    } else {
      OnlyCommitsFail(s, a);
      ReportBooks(s, a, x);
    }
  }

  lemma NobodyWorks(s: Sys, a: Action)
    requires Works(a) && !a.Restart? && a.w !in s.pool.workers
    ensures PoolStep(s, a) == s.pool && Record(s.ledger, s.db, OpOf(s, a)).failures == s.ledger.failures
  {
  }

  lemma FailuresStayConserved(s: Sys, a: Action, x: TaskId)
    requires FailuresConserved(s.ledger, s.pool, x)
    ensures FailuresConserved(Record(s.ledger, s.db, OpOf(s, a)), PoolStep(s, a), x)
  {
    if Works(a) && (a.Restart? || a.w in s.pool.workers) {
      var k := OneWorkerMoves(s, a);
      WorkerBooks(s, a, x);
      ReportUpdate(s.pool.workers, a.w, k, x);
    } else if !Works(a) {
      OthersKeepFailures(s, a);
    } else {
      NobodyWorks(s, a);
    }
  }

  // ----- handler runs and deliveries -----

  /** Entries of x in an inbox. */
  function Mine(box: seq<nat>, stream: map<nat, TaskId>, x: TaskId): nat {
    if box == [] then 0 else (if IsOf(box[0], stream, x) then 1 else 0) + Mine(box[1..], stream, x)
  }

  predicate IsOf(m: nat, stream: map<nat, TaskId>, x: TaskId) {
    m in stream && stream[m] == x
  }

  lemma {:induction false} MineAppend(box: seq<nat>, m: nat, stream: map<nat, TaskId>, x: TaskId)
    ensures Mine(box + [m], stream, x) == Mine(box, stream, x) + if IsOf(m, stream, x) then 1 else 0
  {
    if box == [] {
      assert box + [m] == [m];
    } else {
      MineAppend(box[1..], m, stream, x);
      assert (box + [m])[1..] == box[1..] + [m];
    }
  }

  lemma {:induction false} MineInLargerStream(box: seq<nat>, was: map<nat, TaskId>, now: map<nat, TaskId>, x: TaskId)
    requires forall m :: m in box ==> m in was
    requires forall m :: m in was ==> m in now && now[m] == was[m]
    ensures Mine(box, now, x) == Mine(box, was, x)
  {
    if box != [] {
      assert box[0] in box;
      MineInLargerStream(box[1..], was, now, x);
    }
  }

  /** Runs of x a worker is yet to finish: the one under way and those its inbox may lead to. */
  function Load(k: Worker, stream: map<nat, TaskId>, x: TaskId): nat {
    Mine(k.inbox, stream, x) + if k.pc.Executing? && k.pc.id == x then 1 else 0
  }

  ghost function Loads(workers: map<nat, Worker>, stream: map<nat, TaskId>, x: TaskId): Parts {
    map w | w in workers :: Load(workers[w], stream, x)
  }

  /** The action delivers an entry of x. */
  predicate Delivers(s: Sys, a: Action, x: TaskId) {
    a.Deliver? && a.w in s.pool.workers && IsOf(a.msg, s.ticker.stream, x) && a.msg !in s.pool.acked
  }

  /** How often a run delivers an entry of x. */
  ghost function Deliveries(s: Sys, acts: seq<Action>, x: TaskId): nat
    decreases |acts|
  {
    if acts == [] then 0
    else (if Delivers(s, acts[0], x) then 1 else 0) + Deliveries(Next(s, acts[0]), acts[1..], x)
  }

  lemma LoadUpdate(workers: map<nat, Worker>, stream: map<nat, TaskId>, w: nat, k: Worker, x: TaskId)
    ensures var was := if w in workers then Load(workers[w], stream, x) else 0;
            Sum(Loads(workers[w := k], stream, x)) + was == Sum(Loads(workers, stream, x)) + Load(k, stream, x)
  {
    SumUpdate(Loads(workers, stream, x), w, Load(k, stream, x));
    assert Loads(workers[w := k], stream, x) == Loads(workers, stream, x)[w := Load(k, stream, x)];
  }

  lemma DeliverLoad(s: Sys, w: nat, m: nat, x: TaskId)
    requires w in s.pool.workers
    ensures var t, d := PoolStep(s, Deliver(w, m)), if Delivers(s, Deliver(w, m), x) then 1 else 0;
            && t.started == s.pool.started && w in t.workers
            && Load(t.workers[w], s.ticker.stream, x) <= Load(s.pool.workers[w], s.ticker.stream, x) + d
  {
    MineAppend(s.pool.workers[w].inbox, m, s.ticker.stream, x);
  }

  lemma ReadLoad(s: Sys, w: nat, x: TaskId)
    requires w in s.pool.workers
    ensures var t := PoolStep(s, Read(w));
            && t.started == s.pool.started && w in t.workers
            && Load(t.workers[w], s.ticker.stream, x) <= Load(s.pool.workers[w], s.ticker.stream, x)
  {
  }

  lemma OtherLoad(s: Sys, a: Action, x: TaskId)
    requires Works(a) && !a.Deliver? && !a.Read? && (a.Restart? || a.w in s.pool.workers)
    ensures var t := PoolStep(s, a);
            var was := if a.w in s.pool.workers then Load(s.pool.workers[a.w], s.ticker.stream, x) else 0;
            a.w in t.workers && t.started[x] + Load(t.workers[a.w], s.ticker.stream, x) <= s.pool.started[x] + was
  {
  }

  lemma WorkerLoad(s: Sys, a: Action, x: TaskId)
    requires Works(a) && (a.Restart? || a.w in s.pool.workers)
    ensures var t, d := PoolStep(s, a), if Delivers(s, a, x) then 1 else 0;
            var was := if a.w in s.pool.workers then Load(s.pool.workers[a.w], s.ticker.stream, x) else 0;
            a.w in t.workers && t.started[x] + Load(t.workers[a.w], s.ticker.stream, x) <= s.pool.started[x] + was + d
  {
    if a.Deliver? {
      DeliverLoad(s, a.w, a.msg, x);
    } else if a.Read? {
      ReadLoad(s, a.w, x);
    } else {
      OtherLoad(s, a, x);
    }
  }

  /** Handler runs of x so far, and those deliveries may still lead to. */
  ghost function Runs(l: Pool, stream: map<nat, TaskId>, x: TaskId): nat {
    l.started[x] + Sum(Loads(l.workers, stream, x))
  }

  lemma PoolLoad(s: Sys, a: Action, x: TaskId)
    ensures Runs(PoolStep(s, a), s.ticker.stream, x) <=
            Runs(s.pool, s.ticker.stream, x) + if Delivers(s, a, x) then 1 else 0
  {
    if Works(a) && (a.Restart? || a.w in s.pool.workers) {
      var k := OneWorkerMoves(s, a);
      WorkerLoad(s, a, x);
      LoadUpdate(s.pool.workers, s.ticker.stream, a.w, k, x);
    } else if !Works(a) {
      OthersKeepFailures(s, a);
    } else {
      NobodyWorks(s, a);
    }
  }

  lemma LoadsInLargerStream(s: Sys, workers: map<nat, Worker>, now: map<nat, TaskId>, x: TaskId)
    requires forall w :: w in workers ==> forall m :: m in workers[w].inbox ==> m in s.ticker.stream
    requires forall m :: m in s.ticker.stream ==> m in now && now[m] == s.ticker.stream[m]
    ensures Loads(workers, now, x) == Loads(workers, s.ticker.stream, x)
  {
    forall w | w in workers ensures Load(workers[w], now, x) == Load(workers[w], s.ticker.stream, x) {
      MineInLargerStream(workers[w].inbox, s.ticker.stream, now, x);
    }
  }

  lemma InboxesPosted(s: Sys, a: Action)
    requires DeliveriesSound(s)
    ensures forall w :: w in PoolStep(s, a).workers ==>
              forall m :: m in PoolStep(s, a).workers[w].inbox ==> m in s.ticker.stream
  {
    forall w, m | w in PoolStep(s, a).workers && m in PoolStep(s, a).workers[w].inbox ensures m in s.ticker.stream {
      HeldWasDelivered(s, a, w, m);
      DeliveredAfter(s, a, m);
    }
  }

  lemma RunsStep(s: Sys, a: Action, x: TaskId)
    requires DeliveriesSound(s)
    ensures Runs(PoolStep(s, a), TickerStep(s, a).stream, x) <=
            Runs(s.pool, s.ticker.stream, x) + if Delivers(s, a, x) then 1 else 0
  {
    PoolLoad(s, a, x);
    InboxesPosted(s, a);
    NextGrows(s, a);
    LoadsInLargerStream(s, PoolStep(s, a).workers, TickerStep(s, a).stream, x);
  }

  lemma {:induction false} RunsFrom(s: Sys, acts: seq<Action>, x: TaskId)
    requires DeliveriesSound(s)
    ensures var t := Exec(s, acts);
            Runs(t.pool, t.ticker.stream, x) <= Runs(s.pool, s.ticker.stream, x) + Deliveries(s, acts, x)
    decreases |acts|
  {
    if acts != [] {
      RunsStep(s, acts[0], x);
      DeliveriesKept(s, acts[0]);
      RunsFrom(Next(s, acts[0]), acts[1..], x);
    }
  }

  /** No run executes a handler for a task more often than it delivers an entry of it. */
  lemma RunsNeedDeliveries(acts: seq<Action>, x: TaskId)
    ensures Exec(INIT, acts).pool.started[x] <= Deliveries(INIT, acts, x)
  {
    RunsFrom(INIT, acts, x);
    SumZero(Loads(INIT.pool.workers, INIT.ticker.stream, x));
  }

  // ----- over whole runs -----

  lemma {:induction false} BooksBalance(s: Sys, acts: seq<Action>, x: TaskId)
    requires Balanced(s, x)
    ensures Balanced(Exec(s, acts), x)
    decreases |acts|
  {
    if acts != [] {
      PicksStayConserved(s, acts[0], x);
      FailuresStayConserved(s, acts[0], x);
      EntriesStayPublished(s, acts[0], x);
      BooksBalance(Next(s, acts[0]), acts[1..], x);
    }
  }

  lemma NothingQueued(s: Sys, x: TaskId)
    requires TicksDone(s.ticker)
    ensures Sum(Queues(s.ticker.scheds, x)) == 0
  {
    SumZero(Queues(s.ticker.scheds, x));
  }

  lemma NothingOwed(s: Sys, x: TaskId)
    requires ReportsDone(s.pool)
    ensures Sum(Reports(s.pool.workers, x)) == 0
  {
    SumZero(Reports(s.pool.workers, x));
  }

  lemma InitBooks(x: TaskId)
    ensures Balanced(INIT, x)
    ensures INIT.ledger.picks[x] == INIT.ledger.failures[x] == 0
  {
  }

  lemma RunBooks(acts: seq<Action>, x: TaskId)
    ensures var s := Exec(INIT, acts);
            && Balanced(s, x)
            && s.ledger.picks[x] == Moves(INIT, acts, x, Pending, Running)
            && s.ledger.failures[x] == Moves(INIT, acts, x, Running, Failed)
  {
    InitInv();
    InitBooks(x);
    LedgerCountsMoves(INIT, acts, x);
    BooksBalance(INIT, acts, x);
  }

  // ----- runs without failures -----

  /** No publish of the run fails and no scheduler crashes. */
  predicate Reliable(acts: seq<Action>) {
    forall i :: 0 <= i < |acts| ==> !acts[i].CrashSched? && (acts[i].Publish? ==> acts[i].entry.Some?)
  }

  lemma {:induction false} NothingLost(s: Sys, acts: seq<Action>)
    requires Reliable(acts)
    ensures Exec(s, acts).ticker.lost == s.ticker.lost
    decreases |acts|
  {
    if acts != [] {
      assert !acts[0].CrashSched? && (acts[0].Publish? ==> acts[0].entry.Some?);
      LostByFailure(s, acts[0]);
      NothingLost(Next(s, acts[0]), acts[1..]);
    }
  }

  lemma LostByFailure(s: Sys, a: Action)
    requires !a.CrashSched? && (a.Publish? ==> a.entry.Some?)
    ensures TickerStep(s, a).lost == s.ticker.lost
  {
  }

  /** No DLQ publish of the run fails and no worker dies owing one. */
  ghost predicate Reported(s: Sys, acts: seq<Action>)
    decreases |acts|
  {
    acts == [] ||
    (&& (acts[0].Report? ==> acts[0].ok)
     && (acts[0].Restart? ==> !PcOf(s, acts[0].w).Reporting?)
     && Reported(Next(s, acts[0]), acts[1..]))
  }

  lemma {:induction false} NoReportLost(s: Sys, acts: seq<Action>)
    requires Reported(s, acts)
    ensures Exec(s, acts).pool.reportsLost == s.pool.reportsLost
    decreases |acts|
  {
    if acts != [] {
      ReportLostByFailure(s, acts[0]);
      NoReportLost(Next(s, acts[0]), acts[1..]);
    }
  }

  lemma ReportLostByFailure(s: Sys, a: Action)
    requires (a.Report? ==> a.ok) && (a.Restart? ==> !PcOf(s, a.w).Reporting?)
    ensures PoolStep(s, a).reportsLost == s.pool.reportsLost
  {
  }

  /** Every tick of the state has finished its publish loop. */
  ghost predicate TicksDone(t: Ticker) {
    forall p :: p in t.scheds ==> !t.scheds[p].Publishing?
  }

  /** No worker of the state still has a DLQ publish to do. */
  ghost predicate ReportsDone(l: Pool) {
    forall w :: w in l.workers ==> !l.workers[w].pc.Reporting?
  }

  /** In every run the stream holds at most one entry per pending -> running step of a task;
      what is missing is exactly what was lost or is still queued, so nothing is missing once
      every tick has finished its loop, if no publish failed and no scheduler crashed. */
  lemma StreamConservation(acts: seq<Action>, x: TaskId)
    ensures var t := Exec(INIT, acts).ticker;
            var entries, picks := Sum(Entries(t.stream, x)), Moves(INIT, acts, x, Pending, Running);
            && picks == entries + t.lost[x] + Sum(Queues(t.scheds, x))
            && (TicksDone(t) ==> picks == entries + t.lost[x])
            && (Reliable(acts) ==> t.lost[x] == 0)
            && (Reliable(acts) && TicksDone(t) ==> entries == picks)
  {
    RunBooks(acts, x);
    if TicksDone(Exec(INIT, acts).ticker) {
      NothingQueued(Exec(INIT, acts), x);
    }
    if Reliable(acts) {
      NothingLost(INIT, acts);
    }
  }

  /** Likewise the DLQ against running -> failed steps. */
  lemma DlqConservation(acts: seq<Action>, x: TaskId)
    ensures var t := Exec(INIT, acts).pool;
            var fails := Moves(INIT, acts, x, Running, Failed);
            && fails == t.dlq[x] + t.reportsLost[x] + Sum(Reports(t.workers, x))
            && (ReportsDone(t) ==> fails == t.dlq[x] + t.reportsLost[x])
            && (Reported(INIT, acts) ==> t.reportsLost[x] == 0)
            && (Reported(INIT, acts) && ReportsDone(t) ==> t.dlq[x] == fails)
  {
    RunBooks(acts, x);
    if ReportsDone(Exec(INIT, acts).pool) {
      NothingOwed(Exec(INIT, acts), x);
    }
    if Reported(INIT, acts) {
      NoReportLost(INIT, acts);
    }
  }
}
