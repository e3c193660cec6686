/** The running system: API calls, schedulers, workers, the Redis stream and the tables, as one
    state advanced by atomic actions.  Every SQL transaction and every broker call is one
    action, so actors interleave between any two of them; a disabled action changes nothing. */
module Protocol {
  import opened Domain
  import opened Store
  import Ranking
  import Backoff

  // ----- enqueue (internal/usecase/enqueue.go) -----

  /** EnqueueCmd; whether the type is blank and the payload is JSON is decided by library code. */
  datatype Cmd = Cmd(
    kind: string, kindBlank: bool,
    payload: string, payloadIsJson: bool,
    priority: nat,
    on: seq<TaskId>,
    scheduledAt: Option<int>,
    retryLimit: int,
    key: string)

  /** EnqueueCmd.Validate and the known-type check; an empty set of known types accepts all. */
  predicate Accepted(cmd: Cmd, known: set<string>) {
    && !cmd.kindBlank
    && (cmd.payload == "" || cmd.payloadIsJson)
    && cmd.priority <= 10
    && (known == {} || cmd.kind in known)
  }

  function NewTask(cmd: Cmd, now: int): Task {
    Task(cmd.kind, cmd.payload, cmd.priority, Pending,
         if cmd.scheduledAt.Some? then cmd.scheduledAt.value else now, now, now,
         0, cmd.retryLimit, "", None, "", cmd.key)
  }

  /** A Handle call: after its key lookup missed, and after it built the task. */
  datatype Call = Missed(cmd: Cmd) | Built(id: TaskId, task: Task, on: seq<TaskId>)

  // ----- scheduler (internal/usecase/schedule.go) -----

  /** A tick: locks held by its open transaction, then the ids it still has to publish. */
  datatype Sched = Resting | Selected(batch: seq<TaskId>) | Publishing(queue: seq<TaskId>)

  // ----- worker (internal/usecase/execute.go) -----

  datatype Outcome =
    | NoHandler
    | Success(result: Option<string>)
    | Failure(error: string, cancelled: bool)

  /** Where `process` stands: between reading the row and the handler's outcome, before its
      UpdateTask, before the DLQ publish, before the ack. */
  datatype Pc =
    | Idle
    | Executing(msg: nat, id: TaskId, snap: Task)
    | Deciding(msg: nat, id: TaskId, mutation: Mutation)
    | Reporting(msg: nat, id: TaskId)
    | Acking(msg: nat, id: TaskId)

  /** The inbox is the channel of delivered messages not yet processed. */
  datatype Worker = Worker(name: string, inbox: seq<nat>, pc: Pc)

  /** The mutation `process` chooses from its snapshot and the handler's outcome. */
  function Decide(name: string, snap: Task, o: Outcome, now: int): Mutation {
    match o
    case NoHandler => Fail("no handler for type \"" + snap.kind + "\"")
    case Success(result) => Complete(result, name)
    case Failure(error, cancelled) =>
      var n := snap.attemptCount + 1;
      if n < snap.retryLimit && !cancelled
      then Retry(n, error, now + Backoff.Delay(Backoff.DEFAULT, n))
      else Fail(error)
  }

  // ----- history: written by actions, read by none -----

  /** A handler run that returned normally. */
  datatype Run = Run(id: TaskId, payload: string, result: Option<string>, worker: string)

  /** History of the tables. */
  datatype Ledger = Ledger(
    birth: map<TaskId, nat>,              // insertion order of every row ever inserted
    declared: map<TaskId, set<TaskId>>,   // the dependencies it was inserted with
    picks: multiset<TaskId>,              // committed pending -> running steps
    completions: multiset<TaskId>,        // committed running -> completed steps
    failures: multiset<TaskId>,           // committed running -> failed steps
    purgedCancelled: set<TaskId>)         // rows deleted while cancelled

  /** The API side: ids handed out, open calls, and the successful answers (key, id). */
  datatype Api = Api(used: set<TaskId>, calls: map<nat, Call>, answers: set<(string, TaskId)>)

  /** The scheduling side and the stream it feeds.  `published` counts the XADDs, `lost` the
      picks whose publish failed or died with its scheduler. */
  datatype Ticker = Ticker(
    scheds: map<nat, Sched>,
    stream: map<nat, TaskId>,
    published: multiset<TaskId>,
    lost: multiset<TaskId>)

  /** The workers, their acknowledgements and the dead letter queue, then their history:
      messages ever delivered, handler executions, normal returns, messages on whose behalf a task was changed or was
      read as finished, and failures whose DLQ publish failed or died with the worker. */
  datatype Pool = Pool(
    workers: map<nat, Worker>,
    acked: set<nat>,
    dlq: multiset<TaskId>,
    delivered: set<nat>,
    started: multiset<TaskId>,
    runs: set<Run>,
    commits: set<(nat, TaskId)>,
    seenDone: set<nat>,
    reportsLost: multiset<TaskId>)

  /** `strictRepublish`: no Republish has hit a running task. */
  datatype Sys = Sys(
    db: Db, ledger: Ledger, now: int, api: Api, ticker: Ticker, pool: Pool, strictRepublish: bool)

  const INIT: Sys := Sys(
    Db(map[], {}),
    Ledger(map[], map[], multiset{}, multiset{}, multiset{}, {}),
    0,
    Api({}, map[], {}),
    Ticker(map[], map[], multiset{}, multiset{}),
    Pool(map[], {}, multiset{}, {}, multiset{}, {}, {}, {}, multiset{}),
    true)

  datatype Action =
    | Clock(elapsed: nat)
    | Lookup(call: nat, cmd: Cmd, known: set<string>, found: Option<TaskId>)
    | Build(call: nat, id: TaskId)
    | InsertTask(call: nat)
    | HangUp(call: nat)
    | Select(p: nat, limit: int, batch: seq<TaskId>)
    | CommitPick(p: nat)
    | Publish(p: nat, entry: Option<nat>)
    | CrashSched(p: nat)
    | Deliver(w: nat, msg: nat)
    | Read(w: nat)
    | Heartbeat(w: nat)
    | Finish(w: nat, outcome: Outcome)
    | Commit(w: nat)
    | Report(w: nat, ok: bool)
    | Ack(w: nat)
    | Abandon(w: nat)
    | Restart(w: nat, name: string)
    | ResetStuck(timeout: int)
    | CancelTask(id: TaskId)
    | RepublishTask(id: TaskId)
    | Cleanup(ttl: int)

  function SchedOf(s: Sys, p: nat): Sched {
    if p in s.ticker.scheds then s.ticker.scheds[p] else Resting
  }

  /** Rows locked by open pick transactions. */
  function Locked(s: Sys): set<TaskId> {
    set p, x | p in s.ticker.scheds && s.ticker.scheds[p].Selected? && x in s.ticker.scheds[p].batch :: x
  }

  /** UpdateTask waits for a locked row; otherwise it applies when the closure accepts. */
  predicate Updatable(s: Sys, id: TaskId, m: Mutation) {
    id in s.db.tasks && id !in Locked(s) && Mutate(s.db.tasks[id], m, s.now).Some?
  }

  function PcOf(s: Sys, w: nat): Pc {
    if w in s.pool.workers then s.pool.workers[w].pc else Idle
  }

  /** The transaction an action runs, Skip when it runs none or is disabled. */
  function OpOf(s: Sys, a: Action): Op {
    match a
    case InsertTask(c) =>
      if c in s.api.calls && s.api.calls[c].Built? &&
         Insertable(s.db, s.api.calls[c].id, s.api.calls[c].task, s.api.calls[c].on)
      then Insert(s.api.calls[c].id, s.api.calls[c].task, s.api.calls[c].on) else Skip
    case CommitPick(p) =>
      if SchedOf(s, p).Selected? then Mark(SchedOf(s, p).batch, s.now) else Skip
    case Heartbeat(w) =>
      if PcOf(s, w).Executing? then Beat(PcOf(s, w).id, s.pool.workers[w].name, s.now) else Skip
    case Commit(w) =>
      if PcOf(s, w).Deciding? && Updatable(s, PcOf(s, w).id, PcOf(s, w).mutation)
      then Update(PcOf(s, w).id, PcOf(s, w).mutation, s.now) else Skip
    case CancelTask(id) =>
      if Updatable(s, id, Cancel) then Update(id, Cancel, s.now) else Skip
    case RepublishTask(id) =>
      if Updatable(s, id, Republish) then Update(id, Republish, s.now) else Skip
    case ResetStuck(timeout) => Reset(s.now - timeout, s.now)
    case Cleanup(ttl) => Purge(s.now - ttl)
    case _ => Skip
  }

  function Record(l: Ledger, db: Db, op: Op): Ledger {
    match op
    case Insert(id, _, on) =>
      l.(birth := l.birth[id := |l.birth|], declared := l.declared[id := set d | d in on])
    case Mark(batch, _) => l.(picks := l.picks + multiset(batch))
    case Update(id, Complete(_, _), _) => l.(completions := l.completions + multiset{id})
    case Update(id, Fail(_), _) => l.(failures := l.failures + multiset{id})
    case Purge(cutoff) =>
      l.(purgedCancelled := l.purgedCancelled +
        set x | x in db.tasks && Expired(db.tasks[x], cutoff) && db.tasks[x].status.Cancelled?)
    case _ => l
  }

  // ----- API calls -----

  /** SELECT by idempotency key. */
  predicate KeyLookup(db: Db, key: string, found: Option<TaskId>) {
    match found
    case None => !KeyTaken(db, key)
    case Some(x) => key != "" && x in db.tasks && db.tasks[x].key == key
  }

  function LookupStep(s: Sys, c: nat, cmd: Cmd, known: set<string>, found: Option<TaskId>): Api {
    if c !in s.api.calls && Accepted(cmd, known) && KeyLookup(s.db, cmd.key, found) then
      if found.Some? then s.api.(answers := s.api.answers + {(cmd.key, found.value)})
      else s.api.(calls := s.api.calls[c := Missed(cmd)])
    else s.api
  }

  /** Clock, fresh id and the new task; the generator never repeats an id and the caller
      cannot have listed it as a dependency. */
  function BuildStep(s: Sys, c: nat, id: TaskId): Api {
    if c in s.api.calls && s.api.calls[c].Missed? && id !in s.api.used && id !in s.api.calls[c].cmd.on then
      var cmd := s.api.calls[c].cmd;
      s.api.(used := s.api.used + {id}, calls := s.api.calls[c := Built(id, NewTask(cmd, s.now), cmd.on)])
    else s.api
  }

  function InsertStep(s: Sys, c: nat): Api {
    if c in s.api.calls && s.api.calls[c].Built? then
      var b := s.api.calls[c];
      s.api.(calls := s.api.calls - {c},
             answers := if Insertable(s.db, b.id, b.task, b.on)
                        then s.api.answers + {(b.task.key, b.id)} else s.api.answers)
    else s.api
  }

  function ApiStep(s: Sys, a: Action): Api {
    match a
    case Lookup(c, cmd, known, found) => LookupStep(s, c, cmd, known, found)
    case Build(c, id) => BuildStep(s, c, id)
    case InsertTask(c) => InsertStep(s, c)
    case HangUp(c) => s.api.(calls := s.api.calls - {c})
    case _ => s.api
  }

  // ----- schedulers -----

  function SetSched(s: Sys, p: nat, c: Sched): Ticker {
    s.ticker.(scheds := s.ticker.scheds[p := c])
  }

  /** The locking SELECT; the batch size is cast to int32, and a negative LIMIT is an error. */
  function SelectStep(s: Sys, p: nat, limit: int, batch: seq<TaskId>): Ticker {
    if SchedOf(s, p).Resting? && Int32(limit) >= 0 &&
       Ranking.IsTop(PickKeys(s.db, Locked(s), s.now), Int32(limit), batch)
    then SetSched(s, p, Selected(batch)) else s.ticker
  }

  function Queue(q: seq<TaskId>): Sched {
    if q == [] then Resting else Publishing(q)
  }

  function CommitPickStep(s: Sys, p: nat): Ticker {
    if SchedOf(s, p).Selected? then SetSched(s, p, Queue(SchedOf(s, p).batch)) else s.ticker
  }

  /** XADD of the next picked id under a fresh message id; None is a failed publish, after
      which the loop continues. */
  function PublishStep(s: Sys, p: nat, entry: Option<nat>): Ticker {
    var c := SchedOf(s, p);
    if c.Publishing? && c.queue != [] && (entry.Some? ==> entry.value !in s.ticker.stream) then
      var next := SetSched(s, p, Queue(c.queue[1..]));
      if entry.Some?
      then next.(stream := s.ticker.stream[entry.value := c.queue[0]],
                 published := s.ticker.published + multiset{c.queue[0]})
      else next.(lost := s.ticker.lost + multiset{c.queue[0]})
    else s.ticker
  }

  /** An open transaction rolls back; an unfinished publish loop is forgotten. */
  function CrashSchedStep(s: Sys, p: nat): Ticker {
    var c := SchedOf(s, p);
    SetSched(s, p, Resting).(lost := s.ticker.lost + if c.Publishing? then multiset(c.queue) else multiset{})
  }

  function TickerStep(s: Sys, a: Action): Ticker {
    match a
    case Select(p, limit, batch) => SelectStep(s, p, limit, batch)
    case CommitPick(p) => CommitPickStep(s, p)
    case Publish(p, entry) => PublishStep(s, p, entry)
    case CrashSched(p) => CrashSchedStep(s, p)
    case _ => s.ticker
  }

  // ----- workers -----

  function SetWorker(s: Sys, w: nat, k: Worker): Pool {
    s.pool.(workers := s.pool.workers[w := k])
  }

  /** First delivery or a reclaim of an entry that is not acknowledged. */
  function DeliverStep(s: Sys, w: nat, k: Worker, m: nat): Pool {
    if m in s.ticker.stream && m !in s.pool.acked
    then SetWorker(s, w, k.(inbox := k.inbox + [m])).(delivered := s.pool.delivered + {m})
    else s.pool
  }

  /** Take a message and GetByID: an unknown id drops it, a finished task is only acknowledged. */
  function ReadStep(s: Sys, w: nat, k: Worker): Pool {
    if k.pc.Idle? && k.inbox != [] then
      var m := k.inbox[0];
      var rest := k.(inbox := k.inbox[1..]);
      if m !in s.ticker.stream || s.ticker.stream[m] !in s.db.tasks then SetWorker(s, w, rest)
      else
        var id := s.ticker.stream[m];
        if Terminal(s.db.tasks[id].status)
        then SetWorker(s, w, rest.(pc := Acking(m, id))).(seenDone := s.pool.seenDone + {m})
        else SetWorker(s, w, rest.(pc := Executing(m, id, s.db.tasks[id])))
    else s.pool
  }

  function FinishStep(s: Sys, w: nat, k: Worker, o: Outcome): Pool {
    if k.pc.Executing? then
      SetWorker(s, w, k.(pc := Deciding(k.pc.msg, k.pc.id, Decide(k.name, k.pc.snap, o, s.now)))).(
        started := s.pool.started + if o.NoHandler? then multiset{} else multiset{k.pc.id},
        runs := s.pool.runs + if o.Success? then {Run(k.pc.id, k.pc.snap.payload, o.result, k.name)} else {})
    else s.pool
  }

  /** UpdateTask: waits on a lock; an error leaves the message unacknowledged. */
  function CommitStep(s: Sys, w: nat, k: Worker): Pool {
    if k.pc.Deciding? && k.pc.id !in Locked(s) then
      if Updatable(s, k.pc.id, k.pc.mutation) then
        SetWorker(s, w, k.(pc := if k.pc.mutation.Fail? then Reporting(k.pc.msg, k.pc.id)
                                 else Acking(k.pc.msg, k.pc.id)))
          .(commits := s.pool.commits + {(k.pc.msg, k.pc.id)})
      else SetWorker(s, w, k.(pc := Idle))
    else s.pool
  }

  /** The DLQ publish; its error is ignored. */
  function ReportStep(s: Sys, w: nat, k: Worker, ok: bool): Pool {
    if k.pc.Reporting? then
      var next := SetWorker(s, w, k.(pc := Acking(k.pc.msg, k.pc.id)));
      if ok then next.(dlq := s.pool.dlq + multiset{k.pc.id})
      else next.(reportsLost := s.pool.reportsLost + multiset{k.pc.id})
    else s.pool
  }

  function AckStep(s: Sys, w: nat, k: Worker): Pool {
    if k.pc.Acking?
    then SetWorker(s, w, k.(pc := Idle)).(acked := s.pool.acked + {k.pc.msg})
    else s.pool
  }

  /** A failed GetByID, UpdateTask or XACK call: `process` returns without the effect. */
  function AbandonStep(s: Sys, w: nat, k: Worker): Pool {
    if k.pc.Idle? && k.inbox != [] then SetWorker(s, w, k.(inbox := k.inbox[1..]))
    else if k.pc.Deciding? || k.pc.Acking? then SetWorker(s, w, k.(pc := Idle))
    else s.pool
  }

  /** A worker process starts, or dies at any point and starts again. */
  function RestartStep(s: Sys, w: nat, name: string): Pool {
    SetWorker(s, w, Worker(name, [], Idle))
      .(reportsLost := s.pool.reportsLost + if PcOf(s, w).Reporting? then multiset{PcOf(s, w).id} else multiset{})
  }

  function PoolStep(s: Sys, a: Action): Pool {
    match a
    case Deliver(w, m) => if w in s.pool.workers then DeliverStep(s, w, s.pool.workers[w], m) else s.pool
    case Read(w) => if w in s.pool.workers then ReadStep(s, w, s.pool.workers[w]) else s.pool
    case Finish(w, o) => if w in s.pool.workers then FinishStep(s, w, s.pool.workers[w], o) else s.pool
    case Commit(w) => if w in s.pool.workers then CommitStep(s, w, s.pool.workers[w]) else s.pool
    case Report(w, ok) => if w in s.pool.workers then ReportStep(s, w, s.pool.workers[w], ok) else s.pool
    case Ack(w) => if w in s.pool.workers then AckStep(s, w, s.pool.workers[w]) else s.pool
    case Abandon(w) => if w in s.pool.workers then AbandonStep(s, w, s.pool.workers[w]) else s.pool
    case Restart(w, name) => RestartStep(s, w, name)
    case _ => s.pool
  }

  // ----- runs -----

  /** One action: at most one transaction, and the acting side's own bookkeeping. */
  function Next(s: Sys, a: Action): Sys {
    Sys(Apply(s.db, OpOf(s, a)),
        Record(s.ledger, s.db, OpOf(s, a)),
        if a.Clock? then s.now + a.elapsed else s.now,
        ApiStep(s, a),
        TickerStep(s, a),
        PoolStep(s, a),
        s.strictRepublish && !(a.RepublishTask? && Updatable(s, a.id, Republish) && s.db.tasks[a.id].status.Running?))
  }

  /** A whole run. */
  function Exec(s: Sys, acts: seq<Action>): Sys
    decreases |acts|
  {
    if acts == [] then s else Exec(Next(s, acts[0]), acts[1..])
  }
}
