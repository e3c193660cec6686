/** What every transaction keeps true of the tables and their history. */
module TableInvariant {
  import opened Domain
  import opened Store
  import opened Protocol

  // Both foreign keys hold, and every edge points to an older row.
  ghost predicate EdgesAged(db: Db, l: Ledger) {
    && db.tasks.Keys <= l.birth.Keys
    && (forall e :: e in db.deps ==> e.0 in db.tasks && e.1 in db.tasks && l.birth[e.1] < l.birth[e.0])
    && (forall x :: x in l.birth ==> l.birth[x] < |l.birth|)
  }

  ghost predicate KeysUnique(db: Db) {
    forall x, y :: x in db.tasks && y in db.tasks && x != y && db.tasks[x].key != "" ==>
      db.tasks[x].key != db.tasks[y].key
  }

  predicate Started(t: Task) {
    t.status.Running? || t.status.Completed? || t.status.Failed? || t.attemptCount != 0
  }

  // A row that left its first `pending` was picked; a picked row has its dependencies completed.
  ghost predicate PickedAreReady(db: Db, l: Ledger) {
    && (forall x :: x in l.picks ==> x in l.birth)
    && (forall x :: x in db.tasks && Started(db.tasks[x]) ==> x in l.picks)
    && (forall x :: x in l.completions ==> x in l.picks)
    && (forall e :: e in db.deps && e.0 in l.picks ==> e.1 in db.tasks && db.tasks[e.1].status.Completed?)
  }

  predicate AttemptsBounded(t: Task) {
    t.attemptCount == 0 || 0 < t.attemptCount < t.retryLimit
  }

  ghost predicate RowsSound(db: Db) {
    forall x :: x in db.tasks ==> RowSound(db.tasks[x])
  }

  predicate RowSound(t: Task) {
    && AttemptsBounded(t)
    && -TWO31 <= t.retryLimit < TWO31
    && (t.result.Some? ==> t.status.Completed?)
    && (t.status.Failed? ==> t.workerId == "")
  }

  // A row is completed at most once, and exactly the completed rows (or deleted ones) were.
  ghost predicate CompletedOnce(db: Db, l: Ledger) {
    && (forall x :: x in l.completions ==> x in l.birth && l.completions[x] == 1)
    && (forall x :: x in db.tasks ==> (db.tasks[x].status.Completed? <==> x in l.completions))
    && (forall x :: x in l.birth && x !in db.tasks ==> (x in l.completions <==> x !in l.purgedCancelled))
    && (forall x :: x in l.purgedCancelled ==> x in l.birth && x !in db.tasks)
  }

  // Declared dependencies survive as edges until their target is deleted.
  ghost predicate DeclaredKept(db: Db, l: Ledger) {
    && l.declared.Keys == l.birth.Keys
    && (forall x, d :: x in l.declared && d in l.declared[x] ==> PairKept(db, l, x, d))
  }

  ghost predicate PairKept(db: Db, l: Ledger, x: TaskId, d: TaskId) {
    && d in l.birth
    && (x in db.tasks ==> (x, d) in db.deps || d !in db.tasks)
    && (x in l.picks ==> d in l.completions || d in l.purgedCancelled)
  }

  ghost predicate TableInv(db: Db, l: Ledger) {
    EdgesAged(db, l) && KeysUnique(db) && PickedAreReady(db, l) && RowsSound(db) && CompletedOnce(db, l) &&
      DeclaredKept(db, l)
  }

  predicate FreshTask(t: Task) {
    t.status.Pending? && t.attemptCount == 0 && t.result.None? && t.workerId == ""
  }

  /** What the actors guarantee of a transaction they start. */
  ghost predicate OpSound(db: Db, l: Ledger, op: Op) {
    match op
    case Insert(id, t, on) => id !in l.birth && id !in on && FreshTask(t) && Insertable(db, id, t, on)
    case Mark(batch, _) => forall x :: x in batch ==> Ready(db, x)
    case Update(id, m, at) =>
      && id in db.tasks
      && Mutate(db.tasks[id], m, at).Some?
      && (m.Retry? ==> 0 < m.attempt < db.tasks[id].retryLimit)
    case _ => true
  }

  /** Pending with every dependency completed: it stays so until it is picked or cancelled. */
  ghost predicate Ready(db: Db, x: TaskId) {
    && x in db.tasks
    && db.tasks[x].status.Pending?
    && forall e :: e in db.deps && e.0 == x ==> e.1 in db.tasks && db.tasks[e.1].status.Completed?
  }

  lemma EdgesStayAged(db: Db, l: Ledger, op: Op)
    requires EdgesAged(db, l) && OpSound(db, l, op)
    ensures EdgesAged(Apply(db, op), Record(l, db, op))
  {
  }

  /** No transaction changes what a row is, only where it stands. */
  lemma IdentityKept(db: Db, op: Op, x: TaskId)
    requires x in db.tasks && x in Apply(db, op).tasks
    requires -TWO31 <= db.tasks[x].retryLimit < TWO31
    ensures SameIdentity(db.tasks[x], Apply(db, op).tasks[x])
    ensures var t, u := db.tasks[x], Apply(db, op).tasks[x];
            && u.kind == t.kind && u.payload == t.payload && u.priority == t.priority
            && u.createdAt == t.createdAt && u.retryLimit == t.retryLimit && u.key == t.key
  {
  }

  lemma KeyAfter(db: Db, op: Op, x: TaskId)
    requires x in Apply(db, op).tasks
    ensures x in db.tasks ==> Apply(db, op).tasks[x].key == db.tasks[x].key
    ensures x !in db.tasks ==> op.Insert? && x == op.id && Apply(db, op).tasks[x].key == op.task.key &&
                               !KeyTaken(db, op.task.key)
  {
  }

  lemma KeysStayUnique(db: Db, l: Ledger, op: Op)
    requires KeysUnique(db)
    ensures KeysUnique(Apply(db, op))
  {
    var db' := Apply(db, op);
    forall x, y | x in db'.tasks && y in db'.tasks && x != y && db'.tasks[x].key != ""
      ensures db'.tasks[x].key != db'.tasks[y].key
    {
      KeyAfter(db, op, x);
      KeyAfter(db, op, y);
    }
  }

  /** An edge after a transaction is an edge before it or leaves the inserted row; a completed
      row stays completed while it exists. */
  lemma EdgeAfter(db: Db, l: Ledger, op: Op, e: (TaskId, TaskId))
    requires EdgesAged(db, l) && OpSound(db, l, op) && e in Apply(db, op).deps
    ensures e in db.deps || (op.Insert? && e.0 == op.id)
    ensures e in db.deps && db.tasks[e.1].status.Completed? ==>
              e.1 in Apply(db, op).tasks && Apply(db, op).tasks[e.1].status.Completed?
  {
  }

  /** Only a pick starts a row. */
  lemma StartedAfter(db: Db, l: Ledger, op: Op, x: TaskId)
    requires OpSound(db, l, op) && x in Apply(db, op).tasks && Started(Apply(db, op).tasks[x])
    ensures (x in db.tasks && Started(db.tasks[x])) || (op.Mark? && x in op.batch)
  {
  }

  lemma PicksAfter(db: Db, l: Ledger, op: Op, x: TaskId)
    ensures x in Record(l, db, op).picks <==> x in l.picks || (op.Mark? && x in op.batch)
    ensures x in l.birth ==> x in Record(l, db, op).birth
  {
  }

  /** Only a running row completes. */
  lemma CompletionIsPicked(db: Db, l: Ledger, op: Op, x: TaskId)
    requires PickedAreReady(db, l) && OpSound(db, l, op) && x in Record(l, db, op).completions
    ensures x in l.picks
  {
    if x !in l.completions {
      assert Started(db.tasks[x]);
    }
  }

  lemma PickedStayReady(db: Db, l: Ledger, op: Op)
    requires EdgesAged(db, l) && PickedAreReady(db, l) && OpSound(db, l, op)
    ensures PickedAreReady(Apply(db, op), Record(l, db, op))
  {
    var db', l' := Apply(db, op), Record(l, db, op);
    forall x | x in l'.picks ensures x in l'.birth {
      PicksAfter(db, l, op, x);
    }
    forall x | x in db'.tasks && Started(db'.tasks[x]) ensures x in l'.picks {
      StartedAfter(db, l, op, x);
      PicksAfter(db, l, op, x);
    }
    forall x | x in l'.completions ensures x in l'.picks {
      CompletionIsPicked(db, l, op, x);
      PicksAfter(db, l, op, x);
    }
    forall e | e in db'.deps && e.0 in l'.picks ensures e.1 in db'.tasks && db'.tasks[e.1].status.Completed? {
      EdgeAfter(db, l, op, e);
      PicksAfter(db, l, op, e.0);
    }
  }

  lemma RowStaysSound(db: Db, l: Ledger, op: Op, x: TaskId)
    requires OpSound(db, l, op) && x in Apply(db, op).tasks
    requires x in db.tasks ==> RowSound(db.tasks[x])
    ensures RowSound(Apply(db, op).tasks[x])
  {
  }

  lemma RowsStaySound(db: Db, l: Ledger, op: Op)
    requires RowsSound(db) && OpSound(db, l, op)
    ensures RowsSound(Apply(db, op))
  {
    forall x | x in Apply(db, op).tasks ensures RowSound(Apply(db, op).tasks[x]) {
      RowStaysSound(db, l, op, x);
    }
  }

  lemma CompletionsAfter(db: Db, l: Ledger, op: Op, x: TaskId)
    requires OpSound(db, l, op)
    ensures var l' := Record(l, db, op);
            l'.completions[x] == l.completions[x] + if op.Update? && op.mutation.Complete? && op.id == x then 1 else 0
    ensures var l' := Record(l, db, op);
            (x in l'.purgedCancelled <==>
               || x in l.purgedCancelled
               || (op.Purge? && x in db.tasks && Expired(db.tasks[x], op.cutoff) && db.tasks[x].status.Cancelled?))
    ensures x in Record(l, db, op).birth <==> x in l.birth || (op.Insert? && x == op.id)
  {
  }

  /** Presence and completion of a row after a transaction. */
  lemma RowAfter(db: Db, l: Ledger, op: Op, x: TaskId)
    requires OpSound(db, l, op)
    ensures x in Apply(db, op).tasks <==>
              (x in db.tasks && !(op.Purge? && Expired(db.tasks[x], op.cutoff))) || (op.Insert? && x == op.id)
    ensures x in Apply(db, op).tasks ==>
              (Apply(db, op).tasks[x].status.Completed? <==>
                 (x in db.tasks && db.tasks[x].status.Completed?) ||
                 (op.Update? && op.mutation.Complete? && op.id == x))
    ensures op.Update? && op.mutation.Complete? ==> op.id in db.tasks && !db.tasks[op.id].status.Completed?
  {
  }

  lemma CompletionsStayUnique(db: Db, l: Ledger, op: Op)
    requires EdgesAged(db, l) && CompletedOnce(db, l) && OpSound(db, l, op)
    ensures CompletedOnce(Apply(db, op), Record(l, db, op))
  {
    var db', l' := Apply(db, op), Record(l, db, op);
    forall x
      ensures x in l'.completions ==> x in l'.birth && l'.completions[x] == 1
      ensures x in db'.tasks ==> (db'.tasks[x].status.Completed? <==> x in l'.completions)
      ensures x in l'.birth && x !in db'.tasks ==> (x in l'.completions <==> x !in l'.purgedCancelled)
      ensures x in l'.purgedCancelled ==> x in l'.birth && x !in db'.tasks
    {
      CompletionsAfter(db, l, op, x);
      RowAfter(db, l, op, x);
    }
  }

  lemma DeclaredAfter(db: Db, l: Ledger, op: Op, x: TaskId)
    requires OpSound(db, l, op)
    ensures var l' := Record(l, db, op);
            l'.declared == if op.Insert? then l.declared[op.id := set d | d in op.on] else l.declared
    ensures op.Insert? ==> forall d :: d in op.on ==> (op.id, d) in Apply(db, op).deps
    ensures op.Purge? || db.deps <= Apply(db, op).deps
  {
  }

  lemma EdgeOrGone(db: Db, l: Ledger, op: Op, x: TaskId, d: TaskId)
    requires OpSound(db, l, op)
    requires x in Apply(db, op).tasks && x in db.tasks && ((x, d) in db.deps || d !in db.tasks)
    requires op.Insert? ==> d != op.id
    ensures (x, d) in Apply(db, op).deps || d !in Apply(db, op).tasks
  {
    RowAfter(db, l, op, d);
  }

  lemma PairAfter(db: Db, l: Ledger, op: Op, x: TaskId, d: TaskId)
    requires EdgesAged(db, l) && CompletedOnce(db, l) && OpSound(db, l, op)
    requires x in l.declared && PairKept(db, l, x, d)
    requires op.Insert? ==> x != op.id
    ensures PairKept(Apply(db, op), Record(l, db, op), x, d)
  {
    RowAfter(db, l, op, x);
    CompletionsAfter(db, l, op, d);
    PicksAfter(db, l, op, x);
    if x in Apply(db, op).tasks {
      EdgeOrGone(db, l, op, x, d);
    }
    if op.Mark? && x in op.batch && d in db.tasks {
      assert Ready(db, x) && (x, d) in db.deps;
    }
  }

  lemma NewPair(db: Db, l: Ledger, op: Op, d: TaskId)
    requires EdgesAged(db, l) && PickedAreReady(db, l) && OpSound(db, l, op)
    requires op.Insert? && d in op.on
    ensures PairKept(Apply(db, op), Record(l, db, op), op.id, d)
  {
    DeclaredAfter(db, l, op, op.id);
  }

  lemma DeclaredKeys(db: Db, l: Ledger, op: Op)
    requires l.declared.Keys == l.birth.Keys
    ensures Record(l, db, op).declared.Keys == Record(l, db, op).birth.Keys
  {
  }

  lemma DeclaredStayKept(db: Db, l: Ledger, op: Op)
    requires EdgesAged(db, l) && PickedAreReady(db, l) && CompletedOnce(db, l) && DeclaredKept(db, l)
    requires OpSound(db, l, op)
    ensures DeclaredKept(Apply(db, op), Record(l, db, op))
  {
    DeclaredKeys(db, l, op);
    var db', l' := Apply(db, op), Record(l, db, op);
    forall x, d | x in l'.declared && d in l'.declared[x] ensures PairKept(db', l', x, d) {
      DeclaredAfter(db, l, op, x);
      if op.Insert? && x == op.id {
        NewPair(db, l, op, d);
      } else {
        PairAfter(db, l, op, x, d);
      }
    }
  }

  lemma TablesPreserved(db: Db, l: Ledger, op: Op)
    requires TableInv(db, l) && OpSound(db, l, op)
    ensures TableInv(Apply(db, op), Record(l, db, op))
  {
    EdgesStayAged(db, l, op);
    KeysStayUnique(db, l, op);
    PickedStayReady(db, l, op);
    RowsStaySound(db, l, op);
    CompletionsStayUnique(db, l, op);
    DeclaredStayKept(db, l, op);
  }
}
