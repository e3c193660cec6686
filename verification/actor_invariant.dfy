/** What every action of every actor keeps true of the whole system. */
module ActorInvariant {
  import opened Domain
  import opened Store
  import opened Protocol
  import opened TableInvariant
  import Dag
  import Ranking

  ghost predicate CallsSound(s: Sys) {
    && s.ledger.birth.Keys <= s.api.used
    && (forall c :: c in s.api.calls && s.api.calls[c].Built? ==> CallSound(s, s.api.calls[c]))
    && (forall c, d ::
          c in s.api.calls && d in s.api.calls && c != d && s.api.calls[c].Built? && s.api.calls[d].Built? ==>
          s.api.calls[c].id != s.api.calls[d].id)
  }

  ghost predicate CallSound(s: Sys, c: Call)
    requires c.Built?
  {
    c.id in s.api.used && c.id !in s.ledger.birth && c.id !in c.on && FreshTask(c.task) &&
    c.task.updatedAt <= s.now
  }

  ghost predicate AnswersSound(s: Sys) {
    forall r :: r in s.api.answers && r.0 != "" ==>
      r.1 in s.ledger.birth && (r.1 in s.db.tasks ==> s.db.tasks[r.1].key == r.0)
  }

  ghost predicate SchedSound(s: Sys, c: Sched) {
    match c
    case Resting => true
    case Selected(batch) =>
      Dag.Distinct(batch) && forall x :: x in batch ==> Ready(s.db, x) && s.db.tasks[x].scheduledAt <= s.now
    case Publishing(queue) => forall x :: x in queue ==> x in s.ledger.picks
  }

  /** Open pick transactions hold disjoint batches. */
  ghost predicate LocksDisjoint(s: Sys) {
    forall p, q, x ::
      p in s.ticker.scheds && q in s.ticker.scheds && p != q && s.ticker.scheds[p].Selected? &&
        s.ticker.scheds[q].Selected? && x in s.ticker.scheds[p].batch ==>
        x !in s.ticker.scheds[q].batch
  }

  ghost predicate SchedsSound(s: Sys) {
    LocksDisjoint(s) && forall p :: p in s.ticker.scheds ==> SchedSound(s, s.ticker.scheds[p])
  }

  ghost predicate StreamSound(s: Sys) {
    && (forall m :: m in s.ticker.stream ==> s.ticker.stream[m] in s.ledger.picks)
    && s.pool.acked <= s.ticker.stream.Keys
  }

  /** Why a message may be acknowledged. */
  ghost predicate Grounds(s: Sys, m: nat) {
    m in s.ticker.stream && (m in s.pool.seenDone || (m, s.ticker.stream[m]) in s.pool.commits)
  }

  ghost predicate WorkerSound(s: Sys, k: Worker) {
    && (forall m :: m in k.inbox ==> m in s.ticker.stream)
    && PcSound(s, k.pc)
  }

  ghost predicate PcSound(s: Sys, pc: Pc) {
    match pc
    case Idle => true
    case Executing(m, id, snap) =>
      && Holds(s, m, id)
      && AttemptsBounded(snap)
      && (id in s.db.tasks ==> SameIdentity(snap, s.db.tasks[id]))
    case Deciding(m, id, mutation) =>
      && Holds(s, m, id)
      && !mutation.Cancel? && !mutation.Republish?
      && (id in s.db.tasks && mutation.Retry? ==> 0 < mutation.attempt < s.db.tasks[id].retryLimit)
      && (id in s.db.tasks && mutation.Complete? ==>
            Run(id, s.db.tasks[id].payload, mutation.result, mutation.worker) in s.pool.runs)
    case Reporting(m, id) => Holds(s, m, id) && Grounds(s, m)
    case Acking(m, id) => Holds(s, m, id) && Grounds(s, m)
  }

  ghost predicate Holds(s: Sys, m: nat, id: TaskId) {
    m in s.ticker.stream && s.ticker.stream[m] == id
  }

  /** No worker has the message, in its inbox or in work. */
  ghost predicate Unheld(l: Pool, m: nat) {
    forall w :: w in l.workers ==> !InHands(l.workers[w], m)
  }

  predicate InHands(k: Worker, m: nat) {
    m in k.inbox || (!k.pc.Idle? && k.pc.msg == m)
  }

  ghost predicate WorkersSound(s: Sys) {
    forall w :: w in s.pool.workers ==> WorkerSound(s, s.pool.workers[w])
  }

  ghost predicate AcksSound(s: Sys) {
    && (forall m :: m in s.pool.acked ==> Grounds(s, m))
    && (forall m :: m in s.pool.seenDone ==> m in s.ticker.stream && SeenDone(s, s.ticker.stream[m]))
  }

  ghost predicate SeenDone(s: Sys, x: TaskId) {
    x in s.db.tasks ==> Terminal(s.db.tasks[x].status)
  }

  /** Whatever is held or acknowledged was delivered, and whatever was delivered was posted. */
  ghost predicate DeliveriesSound(s: Sys) {
    && s.pool.delivered <= s.ticker.stream.Keys && s.pool.acked <= s.pool.delivered
    && forall w, m :: w in s.pool.workers && InHands(s.pool.workers[w], m) ==> m in s.pool.delivered
  }

  lemma UndeliveredIsUnheld(s: Sys, m: nat)
    requires DeliveriesSound(s) && m !in s.pool.delivered
    ensures m !in s.pool.acked && Unheld(s.pool, m)
  {
  }

  ghost predicate RowHistorySound(s: Sys, x: TaskId, t: Task) {
    && t.updatedAt <= s.now
    && (t.status.Completed? ==> Run(x, t.payload, t.result, t.workerId) in s.pool.runs)
    && (s.strictRepublish && t.status.Pending? ==> t.workerId == "")
  }

  ghost predicate RowsExplained(s: Sys) {
    forall x :: x in s.db.tasks ==> RowHistorySound(s, x, s.db.tasks[x])
  }

  ghost predicate Inv(s: Sys) {
    && TableInv(s.db, s.ledger)
    && CallsSound(s)
    && AnswersSound(s)
    && SchedsSound(s)
    && StreamSound(s)
    && WorkersSound(s)
    && AcksSound(s)
    && DeliveriesSound(s)
    && RowsExplained(s)
  }

  // ----- what an action can only add -----

  ghost predicate Grows(s: Sys, t: Sys) {
    && s.now <= t.now
    && s.api.used <= t.api.used
    && (forall m :: m in s.ticker.stream ==> m in t.ticker.stream && t.ticker.stream[m] == s.ticker.stream[m])
    && s.pool.runs <= t.pool.runs
    && s.pool.commits <= t.pool.commits
    && s.pool.seenDone <= t.pool.seenDone
  }

  lemma NextGrows(s: Sys, a: Action)
    ensures Grows(s, Next(s, a))
  {
  }

  /** Every transaction an action starts is sound for the tables. */
  lemma OpIsSound(s: Sys, a: Action)
    requires CallsSound(s) && SchedsSound(s) && WorkersSound(s)
    ensures OpSound(s.db, s.ledger, OpOf(s, a))
  {
    match a
    case InsertTask(c) =>
    case CommitPick(p) =>
    case Commit(w) =>
    case _ =>
  }

  lemma TablesKept(s: Sys, a: Action)
    requires Inv(s)
    ensures TableInv(Next(s, a).db, Next(s, a).ledger)
  {
    OpIsSound(s, a);
    TablesPreserved(s.db, s.ledger, OpOf(s, a));
  }

  lemma BirthAfter(s: Sys, a: Action, x: TaskId)
    ensures x in Next(s, a).ledger.birth <==>
              x in s.ledger.birth || (OpOf(s, a).Insert? && x == OpOf(s, a).id)
    ensures x in s.ledger.picks ==> x in Next(s, a).ledger.picks
    ensures x in Next(s, a).db.tasks && x !in s.db.tasks ==> OpOf(s, a).Insert? && x == OpOf(s, a).id
  {
  }

  /** An id is inserted once: a deleted row never comes back. */
  lemma NotReborn(s: Sys, a: Action, x: TaskId)
    requires CallsSound(s) && x in s.ledger.birth && x in Apply(s.db, OpOf(s, a)).tasks
    ensures x in s.db.tasks
  {
  }

  // ----- enqueue calls -----

  lemma CallAfter(s: Sys, a: Action, c: nat)
    requires c in ApiStep(s, a).calls && ApiStep(s, a).calls[c].Built?
    ensures var b := ApiStep(s, a).calls[c];
            || (c in s.api.calls && b == s.api.calls[c] && !(a.InsertTask? && a.call == c))
            || (a.Build? && a.call == c && a.id !in s.api.used && b.id == a.id && b.id in ApiStep(s, a).used &&
                b.id !in b.on && FreshTask(b.task) && b.task.updatedAt == s.now)
  {
  }

  lemma CallStaysSound(s: Sys, a: Action, c: nat)
    requires CallsSound(s)
    requires c in Next(s, a).api.calls && Next(s, a).api.calls[c].Built?
    ensures CallSound(Next(s, a), Next(s, a).api.calls[c])
  {
    CallAfter(s, a, c);
    BirthAfter(s, a, Next(s, a).api.calls[c].id);
    NextGrows(s, a);
    if c in s.api.calls && s.api.calls[c].Built? {
      assert CallSound(s, s.api.calls[c]);
    }
  }

  lemma CallsKept(s: Sys, a: Action)
    requires CallsSound(s)
    ensures CallsSound(Next(s, a))
  {
    var t := Next(s, a);
    forall x | x in t.ledger.birth ensures x in t.api.used {
      BirthAfter(s, a, x);
      NextGrows(s, a);
    }
    forall c | c in t.api.calls && t.api.calls[c].Built? ensures CallSound(t, t.api.calls[c]) {
      CallStaysSound(s, a, c);
    }
    forall c, d | c in t.api.calls && d in t.api.calls && c != d && t.api.calls[c].Built? && t.api.calls[d].Built?
      ensures t.api.calls[c].id != t.api.calls[d].id
    {
      CallAfter(s, a, c);
      CallAfter(s, a, d);
    }
  }

  lemma AnswersKept(s: Sys, a: Action)
    requires Inv(s)
    ensures AnswersSound(Next(s, a))
  {
    var t := Next(s, a);
    forall r | r in t.api.answers && r.0 != ""
      ensures r.1 in t.ledger.birth && (r.1 in t.db.tasks ==> t.db.tasks[r.1].key == r.0)
    {
      AnswerAfter(s, a, r);
    }
  }

  lemma NewAnswer(s: Sys, a: Action, r: (string, TaskId))
    requires r in ApiStep(s, a).answers && r !in s.api.answers && r.0 != ""
    ensures || (r.1 in s.db.tasks && s.db.tasks[r.1].key == r.0)
            || (OpOf(s, a).Insert? && OpOf(s, a).id == r.1 && OpOf(s, a).task.key == r.0 && r.1 !in s.db.tasks)
  {
  }

  lemma AnswerAfter(s: Sys, a: Action, r: (string, TaskId))
    requires EdgesAged(s.db, s.ledger) && AnswersSound(s) && CallsSound(s)
    requires r in ApiStep(s, a).answers && r.0 != ""
    ensures r.1 in Record(s.ledger, s.db, OpOf(s, a)).birth
    ensures var db := Apply(s.db, OpOf(s, a)); r.1 in db.tasks ==> db.tasks[r.1].key == r.0
  {
    if r !in s.api.answers {
      NewAnswer(s, a, r);
    }
    if r.1 in Apply(s.db, OpOf(s, a)).tasks {
      KeyAfter(s.db, OpOf(s, a), r.1);
      if r in s.api.answers {
        NotReborn(s, a, r.1);
      }
    }
  }

  // ----- schedulers -----

  /** A ready row keeps being ready under every transaction that does not touch it. */
  lemma ReadyKept(db: Db, l: Ledger, op: Op, x: TaskId)
    requires EdgesAged(db, l) && OpSound(db, l, op) && Ready(db, x)
    requires op.Update? ==> op.id != x
    requires op.Mark? ==> x !in op.batch
    ensures Ready(Apply(db, op), x) && Apply(db, op).tasks[x] == db.tasks[x]
  {
    forall e | e in Apply(db, op).deps && e.0 == x
      ensures e.1 in Apply(db, op).tasks && Apply(db, op).tasks[e.1].status.Completed?
    {
      EdgeAfter(db, l, op, e);
    }
  }

  lemma EligibleIsReady(s: Sys, x: TaskId)
    requires EdgesAged(s.db, s.ledger) && Eligible(s.db, Locked(s), s.now, x)
    ensures Ready(s.db, x) && s.db.tasks[x].scheduledAt <= s.now
  {
  }

  /** An action of scheduler p. */
  predicate OfSched(a: Action, p: nat) {
    (a.Select? || a.CommitPick? || a.Publish? || a.CrashSched?) && a.p == p
  }

  lemma SchedBystander(s: Sys, a: Action, p: nat)
    requires !OfSched(a, p)
    ensures SchedOf(s.(ticker := TickerStep(s, a)), p) == SchedOf(s, p)
    ensures p in s.ticker.scheds <==> p in TickerStep(s, a).scheds
  {
  }

  lemma SelectedAfter(s: Sys, a: Action, p: nat)
    requires p in Next(s, a).ticker.scheds && Next(s, a).ticker.scheds[p].Selected?
    ensures || (p in s.ticker.scheds && s.ticker.scheds[p] == Next(s, a).ticker.scheds[p] &&
                !(a.CommitPick? && a.p == p))
            || (a.Select? && a.p == p && a.batch == Next(s, a).ticker.scheds[p].batch && Int32(a.limit) >= 0 &&
                Ranking.IsTop(PickKeys(s.db, Locked(s), s.now), Int32(a.limit), a.batch) && OpOf(s, a).Skip?)
  {
  }

  lemma PublishingAfter(s: Sys, a: Action, p: nat, x: TaskId)
    requires p in Next(s, a).ticker.scheds && Next(s, a).ticker.scheds[p].Publishing? &&
             x in Next(s, a).ticker.scheds[p].queue
    ensures || (p in s.ticker.scheds && s.ticker.scheds[p].Publishing? && x in s.ticker.scheds[p].queue)
            || (a.CommitPick? && a.p == p && OpOf(s, a).Mark? && x in OpOf(s, a).batch)
  {
  }

  lemma LockedMember(s: Sys, p: nat, x: TaskId)
    requires p in s.ticker.scheds && s.ticker.scheds[p].Selected? && x in s.ticker.scheds[p].batch
    ensures x in Locked(s)
  {
  }

  /** A row locked by an open pick is untouched by every other transaction. */
  lemma LockedUntouched(s: Sys, a: Action, p: nat, x: TaskId)
    requires LocksDisjoint(s)
    requires p in s.ticker.scheds && s.ticker.scheds[p].Selected? && x in s.ticker.scheds[p].batch &&
             !(a.CommitPick? && a.p == p)
    ensures OpOf(s, a).Update? ==> OpOf(s, a).id != x
    ensures OpOf(s, a).Mark? ==> x !in OpOf(s, a).batch
  {
    LockedMember(s, p, x);
  }

  lemma SelectedStaysSound(s: Sys, a: Action, p: nat)
    requires Inv(s)
    requires p in Next(s, a).ticker.scheds && Next(s, a).ticker.scheds[p].Selected?
    ensures SchedSound(Next(s, a), Next(s, a).ticker.scheds[p])
  {
    var t := Next(s, a);
    SelectedAfter(s, a, p);
    NextGrows(s, a);
    if p in s.ticker.scheds && s.ticker.scheds[p] == t.ticker.scheds[p] && !(a.CommitPick? && a.p == p) {
      OpIsSound(s, a);
      assert SchedSound(s, s.ticker.scheds[p]);
      forall x | x in t.ticker.scheds[p].batch ensures Ready(t.db, x) && t.db.tasks[x].scheduledAt <= t.now {
        LockedUntouched(s, a, p, x);
        ReadyKept(s.db, s.ledger, OpOf(s, a), x);
      }
    } else {
      assert t.db == s.db;
      forall x | x in t.ticker.scheds[p].batch ensures Ready(t.db, x) && t.db.tasks[x].scheduledAt <= t.now {
        EligibleIsReady(s, x);
      }
    }
  }

  lemma DisjointAfter(s: Sys, a: Action, p: nat, q: nat, x: TaskId)
    requires SchedsSound(s) && p != q
    requires p in Next(s, a).ticker.scheds && Next(s, a).ticker.scheds[p].Selected? &&
             x in Next(s, a).ticker.scheds[p].batch
    requires q in Next(s, a).ticker.scheds && Next(s, a).ticker.scheds[q].Selected?
    ensures x !in Next(s, a).ticker.scheds[q].batch
  {
    SelectedAfter(s, a, p);
    SelectedAfter(s, a, q);
    if x in Next(s, a).ticker.scheds[q].batch {
      if a.Select? && a.p == p {
        LockedMember(s, q, x);
      } else if a.Select? && a.p == q {
        LockedMember(s, p, x);
      }
    }
  }

  lemma SchedsKept(s: Sys, a: Action)
    requires Inv(s)
    ensures SchedsSound(Next(s, a))
  {
    var t := Next(s, a);
    forall p, q, x | p in t.ticker.scheds && q in t.ticker.scheds && p != q && t.ticker.scheds[p].Selected? &&
      t.ticker.scheds[q].Selected? && x in t.ticker.scheds[p].batch
      ensures x !in t.ticker.scheds[q].batch
    {
      DisjointAfter(s, a, p, q, x);
    }
    forall p | p in t.ticker.scheds ensures SchedSound(t, t.ticker.scheds[p]) {
      match t.ticker.scheds[p]
      case Resting =>
      case Selected(_) => SelectedStaysSound(s, a, p);
      case Publishing(queue) =>
        forall x | x in queue ensures x in t.ledger.picks {
          PublishingAfter(s, a, p, x);
          PicksAfter(s.db, s.ledger, OpOf(s, a), x);
          assert p in s.ticker.scheds ==> SchedSound(s, s.ticker.scheds[p]);
        }
    }
  }

  // ----- stream -----

  lemma StreamAfter(s: Sys, a: Action, m: nat)
    requires m in TickerStep(s, a).stream
    ensures || (m in s.ticker.stream && TickerStep(s, a).stream[m] == s.ticker.stream[m])
            || (a.Publish? && a.p in s.ticker.scheds && s.ticker.scheds[a.p].Publishing? &&
                TickerStep(s, a).stream[m] in s.ticker.scheds[a.p].queue)
  {
  }

  lemma StreamKept(s: Sys, a: Action)
    requires Inv(s)
    ensures StreamSound(Next(s, a))
  {
    var t := Next(s, a);
    forall m | m in t.ticker.stream ensures t.ticker.stream[m] in t.ledger.picks {
      StreamAfter(s, a, m);
      PicksAfter(s.db, s.ledger, OpOf(s, a), t.ticker.stream[m]);
      assert a.Publish? && a.p in s.ticker.scheds ==> SchedSound(s, s.ticker.scheds[a.p]);
    }
    forall m | m in t.pool.acked ensures m in t.ticker.stream {
      AckedAfter(s, a, m);
    }
  }

  lemma AckedAfter(s: Sys, a: Action, m: nat)
    requires WorkersSound(s) && s.pool.acked <= s.ticker.stream.Keys && m in Next(s, a).pool.acked
    ensures m in Next(s, a).ticker.stream
    ensures || m in s.pool.acked
            || (a.Ack? && a.w in s.pool.workers && s.pool.workers[a.w].pc.Acking? && s.pool.workers[a.w].pc.msg == m)
  {
    NextGrows(s, a);
    assert a.Ack? && a.w in s.pool.workers ==> WorkerSound(s, s.pool.workers[a.w]);
  }

  // ----- workers -----

  /** A worker that does not act stays sound: the stream and the history only grow, and no
      transaction changes the identity of the row it holds. */
  lemma PcFrame(s: Sys, a: Action, pc: Pc)
    requires TableInv(s.db, s.ledger) && StreamSound(s) && CallsSound(s) && PcSound(s, pc)
    ensures PcSound(Next(s, a), pc)
  {
    NextGrows(s, a);
    if !pc.Idle? {
      BirthAfter(s, a, pc.id);
      assert pc.id in s.ledger.picks && pc.id in s.ledger.birth;
      if pc.id in Next(s, a).db.tasks {
        NotReborn(s, a, pc.id);
        assert RowSound(s.db.tasks[pc.id]);
        IdentityKept(s.db, OpOf(s, a), pc.id);
      }
    }
  }

  lemma WorkerFrame(s: Sys, a: Action, k: Worker)
    requires TableInv(s.db, s.ledger) && StreamSound(s) && CallsSound(s) && WorkerSound(s, k)
    ensures WorkerSound(Next(s, a), k)
  {
    NextGrows(s, a);
    PcFrame(s, a, k.pc);
  }

  lemma DecisionSound(s: Sys, k: Worker, o: Outcome)
    requires WorkerSound(s, k) && k.pc.Executing?
    requires o.Success? ==> Run(k.pc.id, k.pc.snap.payload, o.result, k.name) in s.pool.runs
    ensures PcSound(s, Deciding(k.pc.msg, k.pc.id, Decide(k.name, k.pc.snap, o, s.now)))
  {
  }

  predicate Acts(a: Action, w: nat) {
    (a.Deliver? || a.Read? || a.Finish? || a.Commit? || a.Report? || a.Ack? || a.Abandon? || a.Restart?) && a.w == w
  }

  lemma BystanderKept(s: Sys, a: Action, w: nat)
    requires w in PoolStep(s, a).workers && !Acts(a, w)
    ensures w in s.pool.workers && PoolStep(s, a).workers[w] == s.pool.workers[w]
  {
  }

  lemma BystanderStays(s: Sys, a: Action, w: nat)
    requires w in s.pool.workers && !Acts(a, w)
    ensures w in PoolStep(s, a).workers && PoolStep(s, a).workers[w] == s.pool.workers[w]
  {
  }

  lemma ReadStaysSound(s: Sys, w: nat)
    requires TableInv(s.db, s.ledger) && WorkersSound(s) && w in s.pool.workers
    ensures WorkerSound(Next(s, Read(w)), Next(s, Read(w)).pool.workers[w])
  {
    var k, t := s.pool.workers[w], Next(s, Read(w));
    var k' := t.pool.workers[w];
    assert WorkerSound(s, k);
    assert k' == ReadStep(s, w, k).workers[w];
    if k.pc.Idle? && k.inbox != [] {
      var m := k.inbox[0];
      assert k'.inbox == k.inbox[1..];
      if s.ticker.stream[m] in s.db.tasks {
        ReadPcSound(s, t, m, k'.pc);
      }
    }
  }

  lemma ReadPcSound(s: Sys, t: Sys, m: nat, pc: Pc)
    requires RowsSound(s.db) && t.db == s.db && t.ticker == s.ticker
    requires m in s.ticker.stream && s.ticker.stream[m] in s.db.tasks
    requires var id := s.ticker.stream[m];
             || (pc == Executing(m, id, s.db.tasks[id]))
             || (pc == Acking(m, id) && m in t.pool.seenDone)
    ensures PcSound(t, pc)
  {
    assert RowSound(s.db.tasks[s.ticker.stream[m]]);
  }

  lemma FinishStaysSound(s: Sys, w: nat, o: Outcome)
    requires TableInv(s.db, s.ledger) && StreamSound(s) && CallsSound(s) && WorkersSound(s) && w in s.pool.workers
    ensures WorkerSound(Next(s, Finish(w, o)), Next(s, Finish(w, o)).pool.workers[w])
  {
    var k := s.pool.workers[w];
    WorkerFrame(s, Finish(w, o), k);
    if k.pc.Executing? {
      DecisionSound(Next(s, Finish(w, o)), k, o);
    }
  }

  lemma ActorStaysSound(s: Sys, a: Action, w: nat)
    requires TableInv(s.db, s.ledger) && StreamSound(s) && CallsSound(s) && WorkersSound(s)
    requires Acts(a, w) && w in Next(s, a).pool.workers
    ensures WorkerSound(Next(s, a), Next(s, a).pool.workers[w])
  {
    if a.Restart? || w !in s.pool.workers {
    } else if a.Read? {
      ReadStaysSound(s, w);
    } else if a.Finish? {
      FinishStaysSound(s, w, a.outcome);
    } else if a.Commit? {
      CommitStaysSound(s, w);
    } else {
      var k := s.pool.workers[w];
      WorkerFrame(s, a, k);
      RelabelSound(s, a, k);
    }
  }

  /** Delivery, report, ack and abandon move a worker between states that promise no more. */
  lemma RelabelSound(s: Sys, a: Action, k: Worker)
    requires (a.Deliver? || a.Report? || a.Ack? || a.Abandon?) && a.w in s.pool.workers && s.pool.workers[a.w] == k
    requires WorkerSound(Next(s, a), k)
    ensures WorkerSound(Next(s, a), PoolStep(s, a).workers[a.w])
  {
  }

  lemma CommitStaysSound(s: Sys, w: nat)
    requires TableInv(s.db, s.ledger) && StreamSound(s) && CallsSound(s) && WorkersSound(s) && w in s.pool.workers
    ensures WorkerSound(Next(s, Commit(w)), Next(s, Commit(w)).pool.workers[w])
  {
    assert WorkerSound(s, s.pool.workers[w]);
    PcFrame(s, Commit(w), s.pool.workers[w].pc);
  }

  lemma WorkersKept(s: Sys, a: Action)
    requires Inv(s)
    ensures WorkersSound(Next(s, a))
  {
    var t := Next(s, a);
    forall w | w in t.pool.workers ensures WorkerSound(t, t.pool.workers[w]) {
      if Acts(a, w) {
        ActorStaysSound(s, a, w);
      } else {
        BystanderKept(s, a, w);
        WorkerFrame(s, a, s.pool.workers[w]);
      }
    }
  }

  // ----- acknowledgements -----

  lemma GroundsKept(s: Sys, a: Action, m: nat)
    requires Grounds(s, m)
    ensures Grounds(Next(s, a), m)
  {
    NextGrows(s, a);
  }

  /** A finished row stays finished or disappears. */
  lemma TerminalKept(s: Sys, a: Action, x: TaskId)
    requires TableInv(s.db, s.ledger) && CallsSound(s) && SchedsSound(s) && WorkersSound(s)
    requires x in s.ledger.birth && SeenDone(s, x)
    ensures SeenDone(Next(s, a), x)
  {
    OpIsSound(s, a);
    BirthAfter(s, a, x);
    RowAfter(s.db, s.ledger, OpOf(s, a), x);
    if x in s.db.tasks && x in Next(s, a).db.tasks {
      TerminalFrozen(s.db, s.ledger, OpOf(s, a), x);
    }
  }

  lemma TerminalFrozen(db: Db, l: Ledger, op: Op, x: TaskId)
    requires OpSound(db, l, op) && x in db.tasks && Terminal(db.tasks[x].status) && x in Apply(db, op).tasks
    ensures Apply(db, op).tasks[x] == db.tasks[x]
  {
  }

  lemma SeenDoneAfter(s: Sys, a: Action, m: nat)
    requires WorkersSound(s) && m in PoolStep(s, a).seenDone && m !in s.pool.seenDone
    ensures OpOf(s, a).Skip? && m in s.ticker.stream && s.ticker.stream[m] in s.db.tasks
    ensures Terminal(s.db.tasks[s.ticker.stream[m]].status)
  {
  }

  lemma AcksKept(s: Sys, a: Action)
    requires Inv(s)
    ensures AcksSound(Next(s, a))
  {
    var t := Next(s, a);
    NextGrows(s, a);
    forall m | m in t.pool.acked ensures Grounds(t, m) {
      AckedAfter(s, a, m);
      if m !in s.pool.acked {
        assert WorkerSound(s, s.pool.workers[a.w]);
      }
      GroundsKept(s, a, m);
    }
    forall m | m in t.pool.seenDone ensures m in t.ticker.stream && SeenDone(t, t.ticker.stream[m]) {
      if m !in s.pool.seenDone {
        SeenDoneAfter(s, a, m);
      }
      TerminalKept(s, a, s.ticker.stream[m]);
    }
  }

  // ----- rows -----

  lemma CommitExplained(s: Sys, a: Action)
    requires WorkersSound(s) && OpOf(s, a).Update? && OpOf(s, a).mutation.Complete?
    ensures var op := OpOf(s, a);
            Run(op.id, s.db.tasks[op.id].payload, op.mutation.result, op.mutation.worker) in s.pool.runs
  {
    assert WorkerSound(s, s.pool.workers[a.w]);
  }

  lemma RowExplained(s: Sys, t: Sys, op: Op, x: TaskId)
    requires t.db == Apply(s.db, op) && OpSound(s.db, s.ledger, op)
    requires op.Skip? || op.Purge? || op.Insert? || op.at <= t.now
    requires op.Insert? ==> op.task.updatedAt <= t.now
    requires s.now <= t.now && s.pool.runs <= t.pool.runs
    requires t.strictRepublish ==> s.strictRepublish
    requires t.strictRepublish && op.Update? && op.mutation.Republish? && op.id in s.db.tasks ==>
             !s.db.tasks[op.id].status.Running?
    requires op.Update? && op.mutation.Complete? ==>
               Run(op.id, s.db.tasks[op.id].payload, op.mutation.result, op.mutation.worker) in s.pool.runs
    requires x in s.db.tasks ==> RowHistorySound(s, x, s.db.tasks[x]) && RowSound(s.db.tasks[x])
    requires x in t.db.tasks
    ensures RowHistorySound(t, x, t.db.tasks[x])
  {
  }

  lemma OpTimes(s: Sys, a: Action)
    requires CallsSound(s)
    ensures var op := OpOf(s, a);
            && (op.Skip? || op.Purge? || op.Insert? || op.at <= Next(s, a).now)
            && (op.Insert? ==> op.task.updatedAt <= Next(s, a).now)
    ensures var op := OpOf(s, a);
            Next(s, a).strictRepublish ==>
              && s.strictRepublish
              && (op.Update? && op.mutation.Republish? && WorkersSound(s) && op.id in s.db.tasks ==>
                    !s.db.tasks[op.id].status.Running?)
  {
    if a.Commit? && a.w in s.pool.workers && WorkersSound(s) {
      assert WorkerSound(s, s.pool.workers[a.w]);
    }
    if a.InsertTask? && OpOf(s, a).Insert? {
      assert CallSound(s, s.api.calls[a.call]);
    }
  }

  lemma RowsKept(s: Sys, a: Action)
    requires Inv(s)
    ensures RowsExplained(Next(s, a))
  {
    var t := Next(s, a);
    var op := OpOf(s, a);
    NextGrows(s, a);
    OpIsSound(s, a);
    OpTimes(s, a);
    if op.Update? && op.mutation.Complete? {
      CommitExplained(s, a);
    }
    forall x | x in t.db.tasks ensures RowHistorySound(t, x, t.db.tasks[x]) {
      RowExplained(s, t, op, x);
    }
  }

  // ----- deliveries -----

  /** Nobody comes to hold a message except by its delivery. */
  lemma HandsBefore(s: Sys, a: Action, m: nat, w: nat)
    requires w in PoolStep(s, a).workers && InHands(PoolStep(s, a).workers[w], m)
    ensures w in s.pool.workers && (InHands(s.pool.workers[w], m) || a == Deliver(w, m))
  {
    if !Acts(a, w) {
      BystanderKept(s, a, w);
    } else if a.Read? {
      assert PoolStep(s, a) == ReadStep(s, w, s.pool.workers[w]);
    } else if a.Deliver? {
      assert PoolStep(s, a) == DeliverStep(s, w, s.pool.workers[w], a.msg);
    }
  }

  lemma DeliveredAfter(s: Sys, a: Action, m: nat)
    ensures m in PoolStep(s, a).delivered <==>
            || m in s.pool.delivered
            || (a.Deliver? && a.msg == m && a.w in s.pool.workers && m in s.ticker.stream && m !in s.pool.acked)
  {
  }

  lemma AckWasHeld(s: Sys, a: Action, m: nat)
    requires m in PoolStep(s, a).acked && m !in s.pool.acked
    ensures a.Ack? && a.w in s.pool.workers && InHands(s.pool.workers[a.w], m)
  {
  }

  lemma HeldWasDelivered(s: Sys, a: Action, w: nat, m: nat)
    requires DeliveriesSound(s) && w in PoolStep(s, a).workers && InHands(PoolStep(s, a).workers[w], m)
    ensures m in PoolStep(s, a).delivered
  {
    HandsBefore(s, a, m, w);
    DeliveredAfter(s, a, m);
    if !InHands(s.pool.workers[w], m) {
      FreshlyHeld(s, w, m);
    }
  }

  lemma FreshlyHeld(s: Sys, w: nat, m: nat)
    requires w in s.pool.workers && !InHands(s.pool.workers[w], m)
    requires InHands(PoolStep(s, Deliver(w, m)).workers[w], m)
    ensures m in s.ticker.stream && m !in s.pool.acked
  {
  }

  lemma DeliveriesKept(s: Sys, a: Action)
    requires DeliveriesSound(s)
    ensures DeliveriesSound(Next(s, a))
  {
    NextGrows(s, a);
    forall m ensures m in PoolStep(s, a).delivered ==> m in TickerStep(s, a).stream {
      DeliveredAfter(s, a, m);
    }
    forall m ensures m in PoolStep(s, a).acked ==> m in PoolStep(s, a).delivered {
      DeliveredAfter(s, a, m);
      if m in PoolStep(s, a).acked && m !in s.pool.acked {
        AckWasHeld(s, a, m);
      }
    }
    forall w, m | w in PoolStep(s, a).workers && InHands(PoolStep(s, a).workers[w], m)
      ensures m in PoolStep(s, a).delivered
    {
      HeldWasDelivered(s, a, w, m);
    }
  }

  // ----- the whole invariant -----

  lemma InitInv()
    ensures Inv(INIT)
  {
  }

  /** Every action of every actor keeps the invariant. */
  lemma NextInv(s: Sys, a: Action)
    requires Inv(s)
    ensures Inv(Next(s, a))
  {
    TablesKept(s, a);
    CallsKept(s, a);
    AnswersKept(s, a);
    SchedsKept(s, a);
    StreamKept(s, a);
    WorkersKept(s, a);
    AcksKept(s, a);
    DeliveriesKept(s, a);
    RowsKept(s, a);
  }

  /** So does every run, of any length and any interleaving. */
  lemma {:induction false} ExecInv(s: Sys, acts: seq<Action>)
    requires Inv(s)
    ensures Inv(Exec(s, acts))
    decreases |acts|
  {
    if acts != [] {
      NextInv(s, acts[0]);
      ExecInv(Next(s, acts[0]), acts[1..]);
    }
  }
}
