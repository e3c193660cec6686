/** The use cases as the source writes them, statement by statement, with the rest of the system
    running between any two of their calls.  Each is proved to be a run of the protocol. */
module UseCases {
  import opened Domain
  import opened Store
  import opened Protocol
  import opened Guarantees
  import opened TableInvariant
  import opened ActorInvariant
  import Backoff
  import Effects

  /** The deployed system as one mutable object; `trace` is every action since its start.  The
      contracts below give the exact stretch a call adds to the trace, its own calls and those
      of the others in order, and with it the exact new state. */
  class System {
    var s: Sys
    ghost var trace: seq<Action>

    ghost predicate Valid()
      reads this
    {
      s == Exec(INIT, trace)
    }

    /** From state s0 and trace t0, exactly these actions happened. */
    ghost predicate Ran(s0: Sys, t0: seq<Action>, acts: seq<Action>)
      reads this
    {
      Valid() && trace == t0 + acts && s == Exec(s0, acts)
    }

    constructor ()
      ensures Valid() && s == INIT && trace == []
    {
      s := INIT;
      trace := [];
    }

    method Step(a: Action)
      requires Valid()
      modifies this
      ensures Ran(old(s), old(trace), [a]) && s == Next(old(s), a)
    {
      ExecConcat(INIT, trace, [a]);
      ExecOne(s, a);
      s := Next(s, a);
      trace := trace + [a];
    }

    /** Everybody else, in any order, between two calls. */
    method Others(acts: seq<Action>)
      requires Valid()
      modifies this
      ensures Ran(old(s), old(trace), acts)
    {
      for i := 0 to |acts|
        invariant Ran(old(s), old(trace), acts[..i])
      {
        assert acts[..i + 1] == acts[..i] + [acts[i]];
        ExecConcat(old(s), acts[..i], [acts[i]]);
        ExecOne(s, acts[i]);
        Step(acts[i]);
      }
      assert acts[..|acts|] == acts;
    }

    /** One call of an actor, after whatever the others did meanwhile. */
    method Turn(env: seq<Action>, a: Action)
      requires Valid()
      modifies this
      ensures Ran(old(s), old(trace), env + [a]) && s == Next(Exec(old(s), env), a)
    {
      Others(env);
      ExecConcat(old(s), env, [a]);
      ExecOne(s, a);
      Step(a);
    }
  }

  lemma ExecOne(s: Sys, a: Action)
    ensures Exec(s, [a]) == Next(s, a)
  {
    assert [a][1..] == [];
    assert Exec(Next(s, a), []) == Next(s, a);
  }

  /** Two stretches in a row are one. */
  lemma Joined(sys: System, s0: Sys, t0: seq<Action>, a: seq<Action>, s1: Sys, t1: seq<Action>, b: seq<Action>)
    requires s1 == Exec(s0, a) && t1 == t0 + a && sys.Ran(s1, t1, b)
    ensures sys.Ran(s0, t0, a + b)
  {
    ExecConcat(s0, a, b);
    assert t0 + a + b == t0 + (a + b);
  }

  /** One call of an actor, and what the others did before it. */
  datatype Move = Move(before: seq<Action>, call: Action)

  /** Moves one after the other. */
  function Weave(moves: seq<Move>): seq<Action> {
    if moves == [] then []
    else
      var n := |moves| - 1;
      Weave(moves[..n]) + (moves[n].before + [moves[n].call])
  }

  lemma WeaveOneMore(moves: seq<Move>, m: Move)
    ensures Weave(moves + [m]) == Weave(moves) + (m.before + [m.call])
  {
    assert (moves + [m])[..|moves|] == moves;
  }

  /** One more move after those woven so far. */
  lemma WovenOn(sys: System, s0: Sys, t0: seq<Action>, moves: seq<Move>, s1: Sys, t1: seq<Action>, m: Move)
    requires s1 == Exec(s0, Weave(moves)) && t1 == t0 + Weave(moves) && sys.Ran(s1, t1, m.before + [m.call])
    ensures sys.Ran(s0, t0, Weave(moves + [m]))
  {
    Joined(sys, s0, t0, Weave(moves), s1, t1, m.before + [m.call]);
    WeaveOneMore(moves, m);
  }

  // ----- whose action it is -----

  ghost predicate ForeignSched(acts: seq<Action>, p: nat) {
    forall i :: 0 <= i < |acts| ==> !OfSched(acts[i], p)
  }

  lemma {:induction false} SchedUntouched(s: Sys, env: seq<Action>, p: nat)
    requires ForeignSched(env, p)
    ensures SchedOf(Exec(s, env), p) == SchedOf(s, p)
    decreases |env|
  {
    if env != [] {
      assert !OfSched(env[0], p);
      SchedStep(s, env[0], p);
      SchedUntouched(Next(s, env[0]), env[1..], p);
    }
  }

  lemma SchedStep(s: Sys, a: Action, p: nat)
    requires !OfSched(a, p)
    ensures SchedOf(Next(s, a), p) == SchedOf(s, p)
  {
  }

  // ----- enqueue -----

  predicate OfCall(a: Action, c: nat) {
    (a.Lookup? || a.Build? || a.InsertTask? || a.HangUp?) && a.call == c
  }

  ghost predicate ForeignCall(acts: seq<Action>, c: nat) {
    forall i :: 0 <= i < |acts| ==> !OfCall(acts[i], c)
  }

  function CallOf(api: Api, c: nat): Option<Call> {
    if c in api.calls then Some(api.calls[c]) else None
  }

  lemma CallStep(s: Sys, a: Action, c: nat)
    requires !OfCall(a, c)
    ensures CallOf(ApiStep(s, a), c) == CallOf(s.api, c)
  {
  }

  lemma {:induction false} CallUntouched(s: Sys, env: seq<Action>, c: nat)
    requires ForeignCall(env, c)
    ensures CallOf(Exec(s, env).api, c) == CallOf(s.api, c)
    decreases |env|
  {
    if env != [] {
      assert !OfCall(env[0], c);
      CallStep(s, env[0], c);
      CallUntouched(Next(s, env[0]), env[1..], c);
    }
  }

  lemma LookupNow(s: Sys, c: nat, cmd: Cmd, known: set<string>, found: Option<TaskId>)
    requires CallOf(s.api, c).None? && Accepted(cmd, known) && KeyLookup(s.db, cmd.key, found)
    ensures var api := ApiStep(s, Lookup(c, cmd, known, found));
            if found.Some? then (cmd.key, found.value) in api.answers && CallOf(api, c).None?
            else CallOf(api, c) == Some(Missed(cmd))
  {
  }

  lemma BuildNow(s: Sys, c: nat, id: TaskId, cmd: Cmd)
    requires CallOf(s.api, c) == Some(Missed(cmd)) && id !in s.api.used && id !in cmd.on
    ensures CallOf(ApiStep(s, Build(c, id)), c) == Some(Built(id, NewTask(cmd, s.now), cmd.on))
  {
  }

  lemma InsertNow(s: Sys, c: nat, id: TaskId, t: Task, on: seq<TaskId>)
    requires CallOf(s.api, c) == Some(Built(id, t, on))
    ensures var a := InsertTask(c);
            && CallOf(ApiStep(s, a), c).None?
            && (Insertable(s.db, id, t, on) ==> (t.key, id) in ApiStep(s, a).answers)
            && Apply(s.db, OpOf(s, a)) == Apply(s.db, Insert(id, t, on))
  {
  }

  /** FindByIdempotencyKey, skipped for an empty key. */
  method FindKey(sys: System, c: nat, cmd: Cmd, known: set<string>, found: Option<TaskId>)
    requires sys.Valid() && CallOf(sys.s.api, c).None? && Accepted(cmd, known) && KeyLookup(sys.s.db, cmd.key, found)
    modifies sys
    ensures sys.Ran(old(sys.s), old(sys.trace), [Lookup(c, cmd, known, found)])
    ensures sys.s == Next(old(sys.s), Lookup(c, cmd, known, found)) && sys.s.db == old(sys.s).db
    ensures if found.Some? then (cmd.key, found.value) in sys.s.api.answers && CallOf(sys.s.api, c).None?
            else CallOf(sys.s.api, c) == Some(Missed(cmd))
  {
    LookupNow(sys.s, c, cmd, known, found);
    sys.Step(Lookup(c, cmd, known, found));
  }

  /** Reads the clock, takes an id the generator never gave out before, and builds the task. */
  method BuildTask(sys: System, c: nat, id: TaskId, cmd: Cmd, env: seq<Action>) returns (t: Task)
    requires sys.Valid() && CallOf(sys.s.api, c) == Some(Missed(cmd)) && ForeignCall(env, c)
    requires id !in Exec(sys.s, env).api.used && id !in cmd.on
    modifies sys
    ensures sys.Ran(old(sys.s), old(sys.trace), env + [Build(c, id)])
    ensures sys.s == Next(Exec(old(sys.s), env), Build(c, id))
    ensures t == NewTask(cmd, Exec(old(sys.s), env).now) && CallOf(sys.s.api, c) == Some(Built(id, t, cmd.on))
  {
    ghost var m := Exec(sys.s, env);
    CallUntouched(sys.s, env, c);
    BuildNow(m, c, id, cmd);
    sys.Turn(env, Build(c, id));
    t := NewTask(cmd, sys.s.now);
  }

  ghost predicate DependsOn(db: Db, id: TaskId, on: seq<TaskId>) {
    forall d :: (id, d) in db.deps <==> d in on
  }

  lemma EdgesOfNew(s: Sys, id: TaskId, t: Task, on: seq<TaskId>)
    requires Reachable(s)
    ensures Insertable(s.db, id, t, on) ==> DependsOn(Apply(s.db, Insert(id, t, on)), id, on)
  {
    ReachableInv(s);
  }

  /** repo.Create. */
  method CreateTask(sys: System, c: nat, id: TaskId, t: Task, on: seq<TaskId>, env: seq<Action>) returns (ok: bool)
    requires sys.Valid() && CallOf(sys.s.api, c) == Some(Built(id, t, on)) && ForeignCall(env, c)
    modifies sys
    ensures sys.Ran(old(sys.s), old(sys.trace), env + [InsertTask(c)]) && CallOf(sys.s.api, c).None?
    ensures var was := Exec(old(sys.s), env).db;
            ok == Insertable(was, id, t, on) && sys.s.db == Apply(was, Insert(id, t, on))
    ensures ok ==> (t.key, id) in sys.s.api.answers && DependsOn(sys.s.db, id, on)
  {
    CallUntouched(sys.s, env, c);
    ghost var s0, t0 := sys.s, sys.trace;
    sys.Others(env);
    EdgesOfNew(sys.s, id, t, on);
    InsertNow(sys.s, c, id, t, on);
    ok := Insertable(sys.s.db, id, t, on);
    ghost var s1, t1 := sys.s, sys.trace;
    sys.Step(InsertTask(c));
    Joined(sys, s0, t0, env, s1, t1, [InsertTask(c)]);
  }

  /** The system when a Handle call that started in s builds its task. */
  ghost function AtBuild(s: Sys, c: nat, cmd: Cmd, known: set<string>, env: seq<Action>): Sys {
    Exec(Next(s, Lookup(c, cmd, known, None)), env)
  }

  /** The system when that call inserts it. */
  ghost function AtInsert(
      s: Sys, c: nat, cmd: Cmd, known: set<string>, id: TaskId, env: seq<Action>, env2: seq<Action>): Sys {
    Exec(Next(AtBuild(s, c, cmd, known, env), Build(c, id)), env2)
  }

  /** Nothing is in the way of the INSERTs of this command: the id, the key and the dependencies. */
  ghost predicate NothingInTheWay(db: Db, id: TaskId, cmd: Cmd) {
    && id !in db.tasks
    && (cmd.key != "" ==> forall x :: x in db.tasks ==> db.tasks[x].key != cmd.key)
    && (forall i, j :: 0 <= i < j < |cmd.on| ==> cmd.on[i] != cmd.on[j])
    && (forall i :: 0 <= i < |cmd.on| ==> cmd.on[i] in db.tasks)
  }

  lemma NothingInTheWayIff(db: Db, id: TaskId, cmd: Cmd, now: int)
    requires cmd.priority <= 10 && id !in cmd.on
    ensures Insertable(db, id, NewTask(cmd, now), cmd.on) <==> NothingInTheWay(db, id, cmd)
  {
    InsertableIff(db, id, NewTask(cmd, now), cmd.on);
    assert forall i :: 0 <= i < |cmd.on| ==> cmd.on[i] != id;
  }

  /** What a Handle call adds to the trace. */
  function HandleScript(
      c: nat, cmd: Cmd, known: set<string>, broken: bool, found: Option<TaskId>, id: TaskId,
      env: seq<Action>, env2: seq<Action>): seq<Action> {
    if !Effects.Valid(cmd, known) || (cmd.key != "" && broken) then []
    else if found.Some? then [Lookup(c, cmd, known, found)]
    else [Lookup(c, cmd, known, None)] + (env + [Build(c, id)]) + (env2 + [InsertTask(c)])
  }

  /** EnqueueUseCase.Handle: validate, answer with the row that carries the key, otherwise build
      and insert.  A race lost between lookup and insert is an error, never a second row.
      `broken` is a failing lookup, `found` what a working one returned, `id` the generated id. */
  method Handle(
      sys: System, c: nat, cmd: Cmd, known: set<string>, broken: bool, found: Option<TaskId>, id: TaskId,
      env: seq<Action>, env2: seq<Action>) returns (r: Option<TaskId>)
    requires sys.Valid() && CallOf(sys.s.api, c).None?
    requires found.Some? ==>
               cmd.key != "" && found.value in sys.s.db.tasks && sys.s.db.tasks[found.value].key == cmd.key
    requires found.None? && cmd.key != "" ==> forall x :: x in sys.s.db.tasks ==> sys.s.db.tasks[x].key != cmd.key
    requires ForeignCall(env, c) && ForeignCall(env2, c) && id !in cmd.on
    requires id !in AtBuild(sys.s, c, cmd, known, env).api.used
    modifies sys
    ensures sys.Ran(old(sys.s), old(sys.trace), HandleScript(c, cmd, known, broken, found, id, env, env2))
    ensures CallOf(sys.s.api, c).None?
    ensures r.Some? <==>
            && !cmd.kindBlank && (cmd.payload == "" || cmd.payloadIsJson) && 0 <= cmd.priority <= 10
            && (known == {} || cmd.kind in known)
            && (cmd.key == "" || !broken)
            && (found.Some? || NothingInTheWay(AtInsert(old(sys.s), c, cmd, known, id, env, env2).db, id, cmd))
    ensures r.Some? ==>
              && (cmd.key, r.value) in sys.s.api.answers
              && r.value in sys.s.db.tasks && sys.s.db.tasks[r.value].key == cmd.key
    ensures r.Some? && found.Some? ==> r == found && sys.s.db == old(sys.s).db
    ensures r.Some? && found.None? ==>
              && r == Some(id)
              && FreshRow(AtInsert(old(sys.s), c, cmd, known, id, env, env2).db, sys.s.db, id, cmd,
                          AtBuild(old(sys.s), c, cmd, known, env).now)
  {
    if !Accepted(cmd, known) {
      return None;
    }
    if cmd.key != "" && broken {
      return None;
    }
    ghost var s0, t0 := sys.s, sys.trace;
    FindKey(sys, c, cmd, known, found);
    if found.Some? {
      return found;
    }
    ghost var look := [Lookup(c, cmd, known, None)];
    ghost var s1, t1 := sys.s, sys.trace;
    assert AtBuild(s0, c, cmd, known, env) == Exec(s1, env);
    var t := BuildTask(sys, c, id, cmd, env);
    Joined(sys, s0, t0, look, s1, t1, env + [Build(c, id)]);
    ghost var s2, t2 := sys.s, sys.trace;
    NothingInTheWayIff(Exec(s2, env2).db, id, cmd, Exec(s1, env).now);
    var ok := CreateTask(sys, c, id, t, cmd.on, env2);
    Joined(sys, s0, t0, look + (env + [Build(c, id)]), s2, t2, env2 + [InsertTask(c)]);
    r := if ok then Some(id) else None;
  }

  /** A newly enqueued task: the caller's columns, the clock at the build where the caller gave no
      time, exactly the listed dependencies; all other rows and edges as they were. */
  ghost predicate FreshRow(was: Db, db: Db, id: TaskId, cmd: Cmd, now: int) {
    && db.tasks.Keys == was.tasks.Keys + {id}
    && (forall x :: x in was.tasks && x != id ==> db.tasks[x] == was.tasks[x])
    && (forall e :: e in db.deps <==> e in was.deps || (e.0 == id && e.1 in cmd.on))
    && DependsOn(db, id, cmd.on)
    && var t := db.tasks[id];
       && t.kind == cmd.kind && t.payload == cmd.payload && t.priority == cmd.priority && t.key == cmd.key
       && t.scheduledAt == (match cmd.scheduledAt case Some(at) => at case None => now)
       && t.createdAt == now && t.updatedAt == now
       && t.status == Pending && t.attemptCount == 0 && t.retryLimit == Int32(cmd.retryLimit)
       && t.lastError == "" && t.workerId == "" && t.result == None
  }

  // ----- scheduler tick -----

  /** The ids a tick published, by the success of each XADD. */
  function Sent(rows: seq<TaskId>, done: seq<Move>): seq<TaskId>
    requires |done| <= |rows|
  {
    if done == [] then []
    else
      var n := |done| - 1;
      Sent(rows, done[..n]) + if Successful(done[n].call) then [rows[n]] else []
  }

  predicate Successful(a: Action) {
    a.Publish? && a.entry.Some?
  }

  ghost predicate Subsequence(a: seq<TaskId>, b: seq<TaskId>) {
    if a == [] then true
    else b != [] && (if a[|a| - 1] == b[|b| - 1] && Subsequence(a[..|a| - 1], b[..|b| - 1]) then true
                     else Subsequence(a, b[..|b| - 1]))
  }

  lemma SubsequenceGrows(a: seq<TaskId>, b: seq<TaskId>, x: TaskId)
    requires Subsequence(a, b)
    ensures Subsequence(a, b + [x]) && Subsequence(a + [x], b + [x])
  {
    assert (b + [x])[..|b|] == b && (a + [x])[..|a|] == a;
  }

  /** After these publish calls on the first rows, exactly the successful ones were sent, in order. */
  ghost predicate SentSoFar(rows: seq<TaskId>, done: seq<Move>, sent: seq<TaskId>) {
    |done| <= |rows| && sent == Sent(rows, done) && Subsequence(sent, rows[..|done|])
  }

  lemma SentOneMore(rows: seq<TaskId>, done: seq<Move>, m: Move)
    requires |done| < |rows|
    ensures Sent(rows, done + [m]) == Sent(rows, done) + if Successful(m.call) then [rows[|done|]] else []
  {
    assert (done + [m])[..|done|] == done;
  }

  lemma SentGrows(rows: seq<TaskId>, done: seq<Move>, sent: seq<TaskId>, m: Move)
    requires SentSoFar(rows, done, sent) && |done| < |rows|
    ensures SentSoFar(rows, done + [m], if Successful(m.call) then sent + [rows[|done|]] else sent)
  {
    var x := rows[|done|];
    SentOneMore(rows, done, m);
    SubsequenceGrows(sent, rows[..|done|], x);
    assert rows[..|done| + 1] == rows[..|done|] + [x];
  }

  lemma RestStep(rows: seq<TaskId>, i: nat)
    requires i < |rows|
    ensures rows[i..] != [] && rows[i..][0] == rows[i] && rows[i..][1..] == rows[i + 1..]
  {
  }

  /** Every successful call left its row's id in the stream, under a message id that was not
      there before. */
  ghost predicate Arrived(was: map<nat, TaskId>, now: map<nat, TaskId>, rows: seq<TaskId>, done: seq<Move>) {
    && |done| <= |rows|
    && forall i :: 0 <= i < |done| && Successful(done[i].call) ==> Entered(was, now, done[i].call.entry.value, rows[i])
  }

  predicate Entered(was: map<nat, TaskId>, now: map<nat, TaskId>, m: nat, x: TaskId) {
    m !in was && m in now && now[m] == x
  }

  /** What is in the stream stays there. */
  predicate Extends(was: map<nat, TaskId>, now: map<nat, TaskId>) {
    forall m :: m in was ==> m in now && now[m] == was[m]
  }

  lemma ArrivedMore(
      was: map<nat, TaskId>, mid: map<nat, TaskId>, now: map<nat, TaskId>, rows: seq<TaskId>, done: seq<Move>, m: Move)
    requires Arrived(was, mid, rows, done) && Extends(was, mid) && Extends(mid, now) && |done| < |rows|
    requires Successful(m.call) ==> Entered(mid, now, m.call.entry.value, rows[|done|])
    ensures Arrived(was, now, rows, done + [m]) && Extends(was, now)
  {
    forall i | 0 <= i < |done + [m]| && Successful((done + [m])[i].call)
      ensures Entered(was, now, (done + [m])[i].call.entry.value, rows[i])
    {
      if i < |done| {
        assert Entered(was, mid, done[i].call.entry.value, rows[i]);
      }
    }
  }

  /** XADD: Redis hands out only unused message ids; anything else counts as an error. */
  method Xadd(sys: System, p: nat, id: Option<nat>) returns (ok: bool, ghost a: Action)
    requires sys.Valid() && SchedOf(sys.s, p).Publishing? && SchedOf(sys.s, p).queue != []
    modifies sys
    ensures sys.Ran(old(sys.s), old(sys.trace), [a])
    ensures ok == (id.Some? && id.value !in old(sys.s).ticker.stream) && a == Publish(p, if ok then id else None)
    ensures SchedOf(sys.s, p) == Queue(SchedOf(old(sys.s), p).queue[1..])
    ensures sys.s.ticker.stream ==
            if ok then old(sys.s).ticker.stream[id.value := SchedOf(old(sys.s), p).queue[0]]
            else old(sys.s).ticker.stream
  {
    ok := id.Some? && id.value !in sys.s.ticker.stream;
    var entry := if ok then id else None;
    a := Publish(p, entry);
    sys.Step(Publish(p, entry));
  }

  /** One turn of the loop, after whatever the others did meanwhile. */
  method PublishOne(sys: System, p: nat, ghost rest: seq<TaskId>, id: Option<nat>, env: seq<Action>)
    returns (ok: bool, ghost a: Action)
    requires sys.Valid() && rest != [] && SchedOf(sys.s, p) == Queue(rest) && ForeignSched(env, p)
    modifies sys
    ensures sys.Ran(old(sys.s), old(sys.trace), env + [a]) && SchedOf(sys.s, p) == Queue(rest[1..])
    ensures ok == (id.Some? && id.value !in Exec(old(sys.s), env).ticker.stream)
    ensures a == Publish(p, if ok then id else None)
    ensures Extends(old(sys.s).ticker.stream, sys.s.ticker.stream)
    ensures ok ==> Entered(old(sys.s).ticker.stream, sys.s.ticker.stream, id.value, rest[0])
  {
    ghost var s0, t0 := sys.s, sys.trace;
    SchedUntouched(sys.s, env, p);
    RunGrows(sys.s, env);
    sys.Others(env);
    ghost var s1, t1 := sys.s, sys.trace;
    ok, a := Xadd(sys, p, id);
    Joined(sys, s0, t0, env, s1, t1, [a]);
  }

  /** The calls of the loop so far: each publishes under the id it was given, or failed. */
  ghost predicate PublishMoves(p: nat, ids: seq<Option<nat>>, env: seq<seq<Action>>, done: seq<Move>) {
    && |done| <= |ids| == |env|
    && forall i :: 0 <= i < |done| ==> PublishMove(p, ids[i], env[i], done[i])
  }

  predicate PublishMove(p: nat, id: Option<nat>, env: seq<Action>, m: Move) {
    m == Move(env, Publish(p, None)) || m == Move(env, Publish(p, id))
  }

  lemma MovesGrow(p: nat, ids: seq<Option<nat>>, env: seq<seq<Action>>, done: seq<Move>, m: Move)
    requires PublishMoves(p, ids, env, done) && |done| < |ids| && PublishMove(p, ids[|done|], env[|done|], m)
    ensures PublishMoves(p, ids, env, done + [m])
  {
  }

  /** Where the loop stands after the moves in `done`. */
  ghost predicate Dispatched(
      sys: System, s0: Sys, t0: seq<Action>, p: nat, rows: seq<TaskId>, ids: seq<Option<nat>>, env: seq<seq<Action>>,
      done: seq<Move>, sent: seq<TaskId>)
    reads sys
  {
    && |done| <= |rows| && PublishMoves(p, ids, env, done) && SentSoFar(rows, done, sent)
    && sys.Ran(s0, t0, Weave(done)) && SchedOf(sys.s, p) == Queue(rows[|done|..])
    && Arrived(s0.ticker.stream, sys.s.ticker.stream, rows, done) && Extends(s0.ticker.stream, sys.s.ticker.stream)
  }

  /** The publish loop of tick. */
  method Dispatch(sys: System, p: nat, rows: seq<TaskId>, ids: seq<Option<nat>>, env: seq<seq<Action>>)
    returns (sent: seq<TaskId>, ghost done: seq<Move>)
    requires sys.Valid() && SchedOf(sys.s, p) == Queue(rows)
    requires |ids| == |env| == |rows| && forall i :: 0 <= i < |env| ==> ForeignSched(env[i], p)
    modifies sys
    ensures |done| == |rows| && PublishMoves(p, ids, env, done) && SentSoFar(rows, done, sent)
    ensures sys.Ran(old(sys.s), old(sys.trace), Weave(done)) && SchedOf(sys.s, p) == Queue([])
    ensures Arrived(old(sys.s).ticker.stream, sys.s.ticker.stream, rows, done)
  {
    sent, done := [], [];
    ghost var s0, t0 := sys.s, sys.trace;
    for i := 0 to |rows|
      invariant |done| == i && Dispatched(sys, s0, t0, p, rows, ids, env, done, sent)
    {
      sent, done := DispatchOne(sys, p, rows, ids, env, i, sent, done, s0, t0);
    }
  }

  /** One turn of the loop. */
  method DispatchOne(
      sys: System, p: nat, rows: seq<TaskId>, ids: seq<Option<nat>>, env: seq<seq<Action>>, i: nat, before: seq<TaskId>,
      ghost past: seq<Move>, ghost s0: Sys, ghost t0: seq<Action>)
    returns (sent: seq<TaskId>, ghost done: seq<Move>)
    requires i < |ids| == |env| == |rows| && ForeignSched(env[i], p)
    requires |past| == i && Dispatched(sys, s0, t0, p, rows, ids, env, past, before)
    modifies sys
    ensures |done| == i + 1 && Dispatched(sys, s0, t0, p, rows, ids, env, done, sent)
  {
    RestStep(rows, i);
    ghost var s1, t1 := sys.s, sys.trace;
    var ok, a := PublishOne(sys, p, rows[i..], ids[i], env[i]);
    ghost var m := Move(env[i], a);
    WovenOn(sys, s0, t0, past, s1, t1, m);
    MovesGrow(p, ids, env, past, m);
    SentGrows(rows, past, before, m);
    ArrivedMore(s0.ticker.stream, s1.ticker.stream, sys.s.ticker.stream, rows, past, m);
    done := past + [m];
    sent := if ok then before + [rows[i]] else before;
  }

  /** One call of the scheduler, after whatever the others did meanwhile. */
  method SchedCall(sys: System, p: nat, a: Action, env: seq<Action>)
    requires sys.Valid() && OfSched(a, p) && ForeignSched(env, p)
    modifies sys
    ensures sys.Ran(old(sys.s), old(sys.trace), env + [a]) && sys.s == Next(Exec(old(sys.s), env), a)
    ensures SchedsSound(Exec(old(sys.s), env)) && SchedOf(Exec(old(sys.s), env), p) == SchedOf(old(sys.s), p)
  {
    SchedUntouched(sys.s, env, p);
    ReachableLater(sys.trace, env);
    sys.Turn(env, a);
  }

  lemma ReachableLater(trace: seq<Action>, env: seq<Action>)
    ensures SchedsSound(Exec(Exec(INIT, trace), env))
  {
    ExecConcat(INIT, trace, env);
    ReachableInv(Exec(INIT, trace + env));
  }

  lemma SelectedNow(s: Sys, p: nat, limit: int, rows: seq<TaskId>)
    requires SchedOf(s, p).Resting? && Effects.RightBatch(s, limit, rows)
    ensures SchedOf(Next(s, Select(p, limit, rows)), p) == Selected(rows)
  {
    Effects.SelectedIff(s, p, limit, rows);
  }

  lemma MarkedRow(s: Sys, p: nat, rows: seq<TaskId>, x: TaskId)
    requires SchedsSound(s) && SchedOf(s, p) == Selected(rows) && x in rows
    ensures var db := Apply(s.db, OpOf(s, CommitPick(p))); x in db.tasks && db.tasks[x].status.Running?
  {
    assert SchedSound(s, s.ticker.scheds[p]);
    assert Ready(s.db, x);
  }

  lemma MarkedNow(s: Sys, p: nat, rows: seq<TaskId>)
    requires SchedsSound(s) && SchedOf(s, p) == Selected(rows)
    ensures var t := Next(s, CommitPick(p));
            && SchedOf(t, p) == Queue(rows)
            && forall x :: x in rows ==> x in t.db.tasks && t.db.tasks[x].status.Running?
  {
    forall x | x in rows
      ensures var db := Apply(s.db, OpOf(s, CommitPick(p))); x in db.tasks && db.tasks[x].status.Running?
    {
      MarkedRow(s, p, rows, x);
    }
  }

  /** The locking SELECT of PickAndMarkRunning, which returned `rows`. */
  method SelectRows(sys: System, p: nat, limit: int, rows: seq<TaskId>)
    requires sys.Valid() && SchedOf(sys.s, p).Resting? && Effects.RightBatch(sys.s, limit, rows)
    modifies sys
    ensures sys.Ran(old(sys.s), old(sys.trace), [Select(p, limit, rows)])
    ensures SchedOf(sys.s, p) == Selected(rows) && sys.s == Next(old(sys.s), Select(p, limit, rows))
  {
    SelectedNow(sys.s, p, limit, rows);
    sys.Step(Select(p, limit, rows));
  }

  /** Its UPDATEs and commit: every selected row, still locked, is running afterwards. */
  method CommitRows(sys: System, p: nat, rows: seq<TaskId>, env: seq<Action>)
    requires sys.Valid() && SchedOf(sys.s, p) == Selected(rows) && ForeignSched(env, p)
    modifies sys
    ensures sys.Ran(old(sys.s), old(sys.trace), env + [CommitPick(p)]) && SchedOf(sys.s, p) == Queue(rows)
    ensures forall x :: x in rows ==> x in sys.s.db.tasks && sys.s.db.tasks[x].status.Running?
  {
    ghost var m := Exec(sys.s, env);
    SchedCall(sys, p, CommitPick(p), env);
    MarkedNow(m, p, rows);
  }

  lemma RolledBackNow(s: Sys, p: nat, rows: seq<TaskId>)
    requires SchedOf(s, p) == Selected(rows)
    ensures var t := Next(s, CrashSched(p));
            SchedOf(t, p).Resting? && t.db == s.db && t.ticker.lost == s.ticker.lost &&
              t.ticker.stream == s.ticker.stream
  {
  }

  /** An error after the SELECT rolls the transaction back: no row is marked, none stays locked. */
  method RollBack(sys: System, p: nat, rows: seq<TaskId>, env: seq<Action>)
    requires sys.Valid() && SchedOf(sys.s, p) == Selected(rows) && ForeignSched(env, p)
    modifies sys
    ensures sys.Ran(old(sys.s), old(sys.trace), env + [CrashSched(p)])
    ensures SchedOf(sys.s, p).Resting? && sys.s.db == Exec(old(sys.s), env).db
  {
    ghost var m := Exec(sys.s, env);
    SchedCall(sys, p, CrashSched(p), env);
    RolledBackNow(m, p, rows);
  }

  /** What a pick adds to the trace. */
  function PickScript(p: nat, limit: int, rows: seq<TaskId>, broken: bool, env: seq<Action>): seq<Action> {
    if Int32(limit) < 0 then []
    else [Select(p, limit, rows)] + (env + [if broken then CrashSched(p) else CommitPick(p)])
  }

  /** PickAndMarkRunning, with its error returns: the query refuses a negative LIMIT, and
      `broken` is an error in a later statement, which leaves the tables as the others made them. */
  method PickAndMark(sys: System, p: nat, limit: int, rows: seq<TaskId>, broken: bool, env: seq<Action>)
    returns (ok: bool)
    requires sys.Valid() && SchedOf(sys.s, p).Resting? && ForeignSched(env, p)
    requires Int32(limit) >= 0 ==> Effects.RightBatch(sys.s, limit, rows)
    modifies sys
    ensures sys.Ran(old(sys.s), old(sys.trace), PickScript(p, limit, rows, broken, env))
    ensures ok == (Int32(limit) >= 0 && !broken) && SchedOf(sys.s, p) == if ok then Queue(rows) else Resting
    ensures ok ==> forall x :: x in rows ==> x in sys.s.db.tasks && sys.s.db.tasks[x].status.Running?
    ensures Int32(limit) < 0 ==> sys.s == old(sys.s)
    ensures Int32(limit) >= 0 && broken ==> sys.s.db == Exec(Next(old(sys.s), Select(p, limit, rows)), env).db
  {
    if Int32(limit) < 0 {
      return false;
    }
    ghost var s0, t0 := sys.s, sys.trace;
    SelectRows(sys, p, limit, rows);
    ghost var s1, t1 := sys.s, sys.trace;
    if broken {
      RollBack(sys, p, rows, env);
    } else {
      CommitRows(sys, p, rows, env);
    }
    Joined(sys, s0, t0, [Select(p, limit, rows)], s1, t1, env + [if broken then CrashSched(p) else CommitPick(p)]);
    ok := !broken;
  }

  /** ScheduleUseCase.tick: pick and mark a batch, then publish each task in order, going on
      after errors.  `rows` is what the locking SELECT returned, `ids` what XADD answered, and
      `first` and `env` are what the others did before the commit and before each publish. */
  method Tick(
      sys: System, p: nat, limit: int, rows: seq<TaskId>, broken: bool, ids: seq<Option<nat>>,
      first: seq<Action>, env: seq<seq<Action>>)
    returns (ok: bool, sent: seq<TaskId>, ghost done: seq<Move>)
    requires sys.Valid() && SchedOf(sys.s, p).Resting? && ForeignSched(first, p)
    requires Int32(limit) >= 0 ==> Effects.RightBatch(sys.s, limit, rows)
    requires |ids| == |env| == |rows| && forall i :: 0 <= i < |env| ==> ForeignSched(env[i], p)
    modifies sys
    ensures ok == (Int32(limit) >= 0 && !broken) && SchedOf(sys.s, p).Resting?
    ensures !ok ==> sent == [] && sys.Ran(old(sys.s), old(sys.trace), PickScript(p, limit, rows, broken, first))
    ensures ok ==>
              && |done| == |rows| && PublishMoves(p, ids, env, done)
              && sys.Ran(old(sys.s), old(sys.trace), PickScript(p, limit, rows, broken, first) + Weave(done))
              && Arrived(old(sys.s).ticker.stream, sys.s.ticker.stream, rows, done)
              && SentSoFar(rows, done, sent) && Subsequence(sent, rows)
    ensures Int32(limit) >= 0 && broken ==> sys.s.db == Exec(Next(old(sys.s), Select(p, limit, rows)), first).db
  {
    ghost var s0, t0 := sys.s, sys.trace;
    ok := PickAndMark(sys, p, limit, rows, broken, first);
    sent, done := [], [];
    if ok {
      ghost var s1, t1 := sys.s, sys.trace;
      RunGrows(s0, PickScript(p, limit, rows, broken, first));
      sent, done := Dispatch(sys, p, rows, ids, env);
      Joined(sys, s0, t0, PickScript(p, limit, rows, broken, first), s1, t1, Weave(done));
      ArrivedEarlier(s0.ticker.stream, s1.ticker.stream, sys.s.ticker.stream, rows, done);
      AllSent(rows, done, sent);
    }
  }

  lemma ArrivedEarlier(
      was: map<nat, TaskId>, mid: map<nat, TaskId>, now: map<nat, TaskId>, rows: seq<TaskId>, done: seq<Move>)
    requires Extends(was, mid) && Arrived(mid, now, rows, done)
    ensures Arrived(was, now, rows, done)
  {
    forall i | 0 <= i < |done| && Successful(done[i].call)
      ensures Entered(was, now, done[i].call.entry.value, rows[i])
    {
      assert Entered(mid, now, done[i].call.entry.value, rows[i]);
    }
  }

  lemma AllSent(rows: seq<TaskId>, done: seq<Move>, sent: seq<TaskId>)
    requires |done| == |rows| && SentSoFar(rows, done, sent)
    ensures Subsequence(sent, rows)
  {
    assert rows[..|rows|] == rows;
  }

  // ----- worker -----

  datatype Event = HeartbeatDue | Done(outcome: Outcome)

  /** How a `process` call ended. */
  datatype End = Missing | AlreadyDone | Refused | Blocked | Completes | Retries | Fails

  /** The handler was run. */
  predicate HandledEnd(end: End) {
    !end.Missing? && !end.AlreadyDone?
  }

  predicate Settled(end: End) {
    end.Completes? || end.Retries? || end.Fails?
  }

  /** The handler's outcome is the first event that is not a heartbeat. */
  predicate FirstOutcome(events: seq<Event>, beats: nat, o: Outcome) {
    beats < |events| && events[beats] == Done(o) && forall i :: 0 <= i < beats ==> events[i].HeartbeatDue?
  }

  /** How UpdateTask answered. */
  datatype Committed = Applied | Rejected | TimedOut

  /** The end of a call that had read this snapshot, by the handler's outcome and UpdateTask's
      answer: a normal return completes; an error retries while attempts are left and it is no
      cancellation; everything else fails. */
  function Ending(r: Committed, snap: Task, o: Outcome): End {
    match r
    case TimedOut => Blocked
    case Rejected => Refused
    case Applied =>
      match o
      case NoHandler => Fails
      case Success(_) => Completes
      case Failure(_, cancelled) => if snap.attemptCount + 1 < snap.retryLimit && !cancelled then Retries else Fails
  }

  /** UpdateTask's answer to the worker's change in state s; `broken` is an error of the call. */
  function Answer(s: Sys, w: nat, broken: bool): Committed
    requires PcOf(s, w).Deciding?
  {
    var d := PcOf(s, w);
    if broken || d.id in Locked(s) then TimedOut else if Updatable(s, d.id, d.mutation) then Applied else Rejected
  }

  /** The first n heartbeats, with what the others did before each. */
  function Beats(w: nat, n: nat, env: seq<seq<Action>>): seq<Move>
    requires n <= |env|
  {
    seq(n, i requires 0 <= i < n => Move(env[i], Heartbeat(w)))
  }

  lemma BeatsOneMore(w: nat, n: nat, env: seq<seq<Action>>)
    requires n < |env|
    ensures Beats(w, n + 1, env) == Beats(w, n, env) + [Move(env[n], Heartbeat(w))]
  {
  }

  /** One call of the worker, after whatever the others did meanwhile. */
  method Call(sys: System, w: nat, a: Action, env: seq<Action>)
    requires sys.Valid() && OfWorker(a, w) && Foreign(env, w)
    modifies sys
    ensures sys.Ran(old(sys.s), old(sys.trace), env + [a]) && sys.s == Next(Exec(old(sys.s), env), a)
    ensures PcOf(Exec(old(sys.s), env), w) == PcOf(old(sys.s), w)
    ensures w in old(sys.s).pool.workers ==>
              && w in Exec(old(sys.s), env).pool.workers
              && Exec(old(sys.s), env).pool.workers[w].name == old(sys.s).pool.workers[w].name
  {
    PcUntouched(sys.s, env, w);
    sys.Turn(env, a);
  }

  /** The select loop of `process`: heartbeats until the handler's outcome (or the cancelled
      context) arrives.  The events are what the channels deliver, the last one an outcome. */
  method AwaitOutcome(sys: System, w: nat, events: seq<Event>, env: seq<seq<Action>>)
    returns (o: Outcome, beats: nat)
    requires sys.Valid() && w in sys.s.pool.workers && PcOf(sys.s, w).Executing?
    requires |env| == |events| && (forall i :: 0 <= i < |env| ==> Foreign(env[i], w))
    requires exists i :: 0 <= i < |events| && events[i].Done?
    modifies sys
    ensures FirstOutcome(events, beats, o)
    ensures sys.Ran(old(sys.s), old(sys.trace), Weave(Beats(w, beats, env)))
    ensures PcOf(sys.s, w) == PcOf(old(sys.s), w) && SameWorker(old(sys.s), sys.s, w)
  {
    beats := 0;
    ghost var s0, t0 := sys.s, sys.trace;
    while events[beats].HeartbeatDue?
      invariant beats < |events| && (forall i :: 0 <= i < beats ==> events[i].HeartbeatDue?)
      invariant sys.Ran(s0, t0, Weave(Beats(w, beats, env)))
      invariant PcOf(sys.s, w) == PcOf(s0, w) && SameWorker(s0, sys.s, w)
      decreases |events| - beats
    {
      beats := BeatOnce(sys, w, beats, env, s0, t0);
    }
    o := events[beats].outcome;
  }

  /** One turn of the loop. */
  method BeatOnce(sys: System, w: nat, n: nat, env: seq<seq<Action>>, ghost s0: Sys, ghost t0: seq<Action>)
    returns (beats: nat)
    requires w in sys.s.pool.workers && n < |env| && Foreign(env[n], w) && sys.Ran(s0, t0, Weave(Beats(w, n, env)))
    modifies sys
    ensures beats == n + 1 && sys.Ran(s0, t0, Weave(Beats(w, n + 1, env)))
    ensures PcOf(sys.s, w) == PcOf(old(sys.s), w) && SameWorker(old(sys.s), sys.s, w)
  {
    ghost var m, s1, t1 := Exec(sys.s, env[n]), sys.s, sys.trace;
    Call(sys, w, Heartbeat(w), env[n]);
    BeatKeepsPc(m, w);
    WovenOn(sys, s0, t0, Beats(w, n, env), s1, t1, Move(env[n], Heartbeat(w)));
    BeatsOneMore(w, n, env);
    beats := n + 1;
  }

  /** The worker is still there, under its name. */
  predicate SameWorker(s: Sys, t: Sys, w: nat) {
    w in s.pool.workers && w in t.pool.workers && t.pool.workers[w].name == s.pool.workers[w].name
  }

  lemma BeatKeepsPc(s: Sys, w: nat)
    ensures PcOf(Next(s, Heartbeat(w)), w) == PcOf(s, w)
    ensures w in s.pool.workers ==> SameWorker(s, Next(s, Heartbeat(w)), w)
  {
  }

  lemma ReadNow(s: Sys, w: nat)
    requires w in s.pool.workers && s.pool.workers[w].pc.Idle? && s.pool.workers[w].inbox != []
    ensures PcOf(Next(s, Read(w)), w) == Fetched(s, s.pool.workers[w].inbox[0])
  {
  }

  lemma CommitNow(s: Sys, w: nat)
    requires PcOf(s, w).Deciding? && PcOf(s, w).id !in Locked(s)
    ensures var t, d := Next(s, Commit(w)), PcOf(s, w);
            if Updatable(s, d.id, d.mutation)
            then && PcOf(t, w) == (if d.mutation.Fail? then Reporting(d.msg, d.id) else Acking(d.msg, d.id))
                 && (d.msg, d.id) in t.pool.commits
                 && d.id in t.db.tasks && t.db.tasks[d.id].status == Target(d.mutation)
            else PcOf(t, w) == Idle && t.db == s.db
  {
  }

  lemma ReportNow(s: Sys, w: nat, ok: bool)
    requires PcOf(s, w).Reporting?
    ensures var t := Next(s, Report(w, ok));
            && PcOf(t, w) == Acking(PcOf(s, w).msg, PcOf(s, w).id)
            && t.pool.commits == s.pool.commits
            && t.pool.dlq == s.pool.dlq + if ok then multiset{PcOf(s, w).id} else multiset{}
  {
  }

  lemma DlqStep(s: Sys, a: Action, x: TaskId)
    ensures PoolStep(s, a).dlq[x] >= s.pool.dlq[x]
  {
  }

  /** Nothing leaves the DLQ. */
  lemma {:induction false} DlqGrows(s: Sys, acts: seq<Action>, x: TaskId)
    ensures Exec(s, acts).pool.dlq[x] >= s.pool.dlq[x]
    decreases |acts|
  {
    if acts != [] {
      DlqStep(s, acts[0], x);
      DlqGrows(Next(s, acts[0]), acts[1..], x);
    }
  }

  lemma AckNow(s: Sys, w: nat)
    requires PcOf(s, w).Acking?
    ensures var t := Next(s, Ack(w)); PcOf(t, w).Idle? && PcOf(s, w).msg in t.pool.acked
  {
  }

  lemma AbandonNow(s: Sys, w: nat)
    requires PcOf(s, w).Deciding?
    ensures PcOf(Next(s, Abandon(w)), w).Idle? && Next(s, Abandon(w)).db == s.db
  {
  }

  /** UpdateTask with the decided closure: it waits while the row is locked (here: until the
      context ends), and an error leaves the message unacknowledged. */
  method TryCommit(sys: System, w: nat, broken: bool, env: seq<Action>) returns (r: Committed)
    requires sys.Valid() && PcOf(sys.s, w).Deciding? && Foreign(env, w)
    modifies sys
    ensures PcOf(Exec(old(sys.s), env), w) == PcOf(old(sys.s), w) && r == Answer(Exec(old(sys.s), env), w, broken)
    ensures sys.Ran(old(sys.s), old(sys.trace), env + [if r.TimedOut? then Abandon(w) else Commit(w)])
    ensures var d := PcOf(old(sys.s), w);
            if r.Applied?
            then && PcOf(sys.s, w) == (if d.mutation.Fail? then Reporting(d.msg, d.id) else Acking(d.msg, d.id))
                 && (d.msg, d.id) in sys.s.pool.commits
                 && d.id in sys.s.db.tasks && sys.s.db.tasks[d.id].status == Target(d.mutation)
            else PcOf(sys.s, w).Idle? && sys.s.db == Exec(old(sys.s), env).db
  {
    ghost var s0, t0 := sys.s, sys.trace;
    PcUntouched(sys.s, env, w);
    sys.Others(env);
    ghost var s1, t1 := sys.s, sys.trace;
    r := Answer(sys.s, w, broken);
    if r.TimedOut? {
      AbandonNow(sys.s, w);
      sys.Step(Abandon(w));
    } else {
      CommitNow(sys.s, w);
      sys.Step(Commit(w));
    }
    Joined(sys, s0, t0, env, s1, t1, [if r.TimedOut? then Abandon(w) else Commit(w)]);
  }

  /** What follows a committed change. */
  function SettleScript(w: nat, fails: bool, reported: bool, env: seq<Action>, env2: seq<Action>): seq<Action> {
    (if fails then env + [Report(w, reported)] else []) + (env2 + [Ack(w)])
  }

  /** After a committed change: for a failure the DLQ publish, whose error is ignored, then the
      ack.  A successful report is in the DLQ. */
  method Settle(sys: System, w: nat, reported: bool, env: seq<Action>, env2: seq<Action>)
    requires sys.Valid() && (PcOf(sys.s, w).Reporting? || PcOf(sys.s, w).Acking?)
    requires Foreign(env, w) && Foreign(env2, w)
    modifies sys
    ensures sys.Ran(old(sys.s), old(sys.trace), SettleScript(w, PcOf(old(sys.s), w).Reporting?, reported, env, env2))
    ensures PcOf(sys.s, w).Idle? && PcOf(old(sys.s), w).msg in sys.s.pool.acked
    ensures var pc := PcOf(old(sys.s), w);
            pc.Reporting? && reported ==> sys.s.pool.dlq[pc.id] > old(sys.s).pool.dlq[pc.id]
  {
    ghost var s0, t0, pc := sys.s, sys.trace, PcOf(sys.s, w);
    ghost var fails := pc.Reporting?;
    if PcOf(sys.s, w).Reporting? {
      Reports(sys, w, reported, env);
    }
    ghost var s1, t1 := sys.s, sys.trace;
    DlqGrows(s1, env2 + [Ack(w)], pc.id);
    Acknowledge(sys, w, env2);
    Joined(sys, s0, t0, if fails then env + [Report(w, reported)] else [], s1, t1, env2 + [Ack(w)]);
  }

  /** The DLQ publish. */
  method Reports(sys: System, w: nat, reported: bool, env: seq<Action>)
    requires sys.Valid() && PcOf(sys.s, w).Reporting? && Foreign(env, w)
    modifies sys
    ensures sys.Ran(old(sys.s), old(sys.trace), env + [Report(w, reported)])
    ensures PcOf(sys.s, w) == Acking(PcOf(old(sys.s), w).msg, PcOf(old(sys.s), w).id)
    ensures reported ==> sys.s.pool.dlq[PcOf(old(sys.s), w).id] > old(sys.s).pool.dlq[PcOf(old(sys.s), w).id]
  {
    ghost var m := Exec(sys.s, env);
    DlqGrows(sys.s, env, PcOf(sys.s, w).id);
    Call(sys, w, Report(w, reported), env);
    ReportNow(m, w, reported);
  }

  method Acknowledge(sys: System, w: nat, env: seq<Action>)
    requires sys.Valid() && PcOf(sys.s, w).Acking? && Foreign(env, w)
    modifies sys
    ensures sys.Ran(old(sys.s), old(sys.trace), env + [Ack(w)])
    ensures PcOf(sys.s, w).Idle? && PcOf(old(sys.s), w).msg in sys.s.pool.acked
  {
    ghost var n := Exec(sys.s, env);
    Call(sys, w, Ack(w), env);
    AckNow(n, w);
  }

  function EndOf(r: Committed, m: Mutation): End {
    match r
    case TimedOut => Blocked
    case Rejected => Refused
    case Applied => if m.Fail? then Fails else if m.Complete? then Completes else Retries
  }

  /** What follows the outcome, in order: nothing is acknowledged before its change is committed. */
  function Tail(w: nat, end: End, reported: bool, env: seq<seq<Action>>): seq<Action>
    requires |env| == 3
  {
    (env[0] + [if end.Blocked? then Abandon(w) else Commit(w)]) +
    if Settled(end) then SettleScript(w, end.Fails?, reported, env[1], env[2]) else []
  }

  /** What a call leaves behind: a settled one has its message acknowledged on the ground of its
      own commit, and a reported failure is in the DLQ. */
  ghost predicate Accounted(s: Sys, t: Sys, end: End, reported: bool, msg: nat, id: TaskId) {
    && (Settled(end) ==> msg in t.pool.acked && (msg, id) in t.pool.commits)
    && (end.Fails? && reported ==> t.pool.dlq[id] > s.pool.dlq[id])
  }

  /** markCompleted, markRetry and markFailed. */
  method Mark(sys: System, w: nat, broken: bool, reported: bool, env: seq<seq<Action>>) returns (end: End)
    requires sys.Valid() && PcOf(sys.s, w).Deciding?
    requires |env| == 3 && Foreign(env[0], w) && Foreign(env[1], w) && Foreign(env[2], w)
    modifies sys
    ensures var at := Exec(old(sys.s), env[0]);
            PcOf(at, w) == PcOf(old(sys.s), w) && end == EndOf(Answer(at, w, broken), PcOf(at, w).mutation)
    ensures sys.Ran(old(sys.s), old(sys.trace), Tail(w, end, reported, env)) && PcOf(sys.s, w).Idle?
    ensures Accounted(old(sys.s), sys.s, end, reported, PcOf(old(sys.s), w).msg, PcOf(old(sys.s), w).id)
  {
    ghost var s0, t0, d := sys.s, sys.trace, PcOf(sys.s, w);
    var m := PcOf(sys.s, w).mutation;
    var r := TryCommit(sys, w, broken, env[0]);
    end := EndOf(r, m);
    ghost var first := env[0] + [if end.Blocked? then Abandon(w) else Commit(w)];
    ghost var s1, t1 := sys.s, sys.trace;
    DlqGrows(s0, first, d.id);
    if r.Applied? {
      RunGrows(s1, SettleScript(w, end.Fails?, reported, env[1], env[2]));
      Settle(sys, w, reported, env[1], env[2]);
      Joined(sys, s0, t0, first, s1, t1, SettleScript(w, end.Fails?, reported, env[1], env[2]));
    } else {
      assert first + [] == first;
    }
  }

  /** What it adds from the snapshot on. */
  function AttendScript(
      w: nat, end: End, beats: nat, o: Outcome, reported: bool, beatEnv: seq<seq<Action>>, env: seq<seq<Action>>)
    : seq<Action>
    requires beats <= |beatEnv| && |env| == 5
  {
    Weave(Beats(w, beats, beatEnv)) + ((env[1] + [Finish(w, o)]) + Tail(w, end, reported, env[2..]))
  }

  /** What a `process` call adds to the trace on each of its ends. */
  function Script(
      w: nat, end: End, beats: nat, o: Outcome, reported: bool, beatEnv: seq<seq<Action>>, env: seq<seq<Action>>)
    : seq<Action>
    requires beats <= |beatEnv| && |env| == 5
  {
    [Read(w)] +
    match end
    case Missing => []
    case AlreadyDone => env[0] + [Ack(w)]
    case _ => AttendScript(w, end, beats, o, reported, beatEnv, env)
  }

  /** What the worker does with a message after looking up its task. */
  function Fetched(s: Sys, m: nat): Pc {
    if m !in s.ticker.stream || s.ticker.stream[m] !in s.db.tasks then Idle
    else
      var id := s.ticker.stream[m];
      if Terminal(s.db.tasks[id].status) then Acking(m, id) else Executing(m, id, s.db.tasks[id])
  }

  /** Take the message and GetByID; an unknown id ends the call. */
  method Fetch(sys: System, w: nat)
    requires sys.Valid() && w in sys.s.pool.workers && PcOf(sys.s, w).Idle? && sys.s.pool.workers[w].inbox != []
    modifies sys
    ensures sys.Ran(old(sys.s), old(sys.trace), [Read(w)]) && SameWorker(old(sys.s), sys.s, w)
    ensures sys.s == Next(old(sys.s), Read(w))
    ensures PcOf(sys.s, w) == Fetched(old(sys.s), old(sys.s).pool.workers[w].inbox[0])
  {
    ReadNow(sys.s, w);
    sys.Step(Read(w));
  }

  /** The state in which the worker, executing in s, takes the outcome of its handler. */
  ghost function AtOutcome(s: Sys, w: nat, beats: nat, beatEnv: seq<seq<Action>>, env: seq<seq<Action>>): Sys
    requires beats <= |beatEnv| && |env| == 5
  {
    Exec(Exec(s, Weave(Beats(w, beats, beatEnv))), env[1])
  }

  /** The state its UpdateTask meets. */
  ghost function AtCommit(
      s: Sys, w: nat, beats: nat, o: Outcome, beatEnv: seq<seq<Action>>, env: seq<seq<Action>>): Sys
    requires beats <= |beatEnv| && |env| == 5
  {
    Exec(Next(AtOutcome(s, w, beats, beatEnv, env), Finish(w, o)), env[2])
  }

  /** The change the worker asks of UpdateTask: its choice from snapshot, outcome and the clock
      at the outcome. */
  ghost predicate Asks(at: Sys, w: nat, e: Pc, name: string, o: Outcome, now: int)
    requires e.Executing?
  {
    PcOf(at, w) == Deciding(e.msg, e.id, Decide(name, e.snap, o, now))
  }

  /** ExecuteUseCase.process on the first message of the inbox: read the row, acknowledge a
      finished task, otherwise run the handler with heartbeats, choose the change from the
      snapshot, commit it, and only then report and acknowledge.  A type without a handler is
      an immediate NoHandler outcome; `broken` is an error of UpdateTask. */
  method Process(
      sys: System, w: nat, events: seq<Event>, broken: bool, reported: bool,
      beatEnv: seq<seq<Action>>, env: seq<seq<Action>>)
    returns (end: End, beats: nat, o: Outcome)
    requires sys.Valid() && w in sys.s.pool.workers && PcOf(sys.s, w).Idle? && sys.s.pool.workers[w].inbox != []
    requires |beatEnv| == |events| && (forall i :: 0 <= i < |beatEnv| ==> Foreign(beatEnv[i], w))
    requires exists i :: 0 <= i < |events| && events[i].Done?
    requires |env| == 5 && forall i :: 0 <= i < 5 ==> Foreign(env[i], w)
    modifies sys
    ensures beats <= |beatEnv| && PcOf(sys.s, w).Idle?
    ensures sys.Ran(old(sys.s), old(sys.trace), Script(w, end, beats, o, reported, beatEnv, env))
    ensures end.AlreadyDone? ==> old(sys.s).pool.workers[w].inbox[0] in sys.s.pool.acked
    ensures var s0, m := old(sys.s), old(sys.s).pool.workers[w].inbox[0];
            if m !in s0.ticker.stream || s0.ticker.stream[m] !in s0.db.tasks then end == Missing
            else
              var x := s0.ticker.stream[m];
              var t := s0.db.tasks[x];
              if t.status == Completed || t.status == Cancelled then end == AlreadyDone
              else Attended(s0, Next(s0, Read(w)), sys.s, w, Executing(m, x, t),
                            events, broken, reported, beatEnv, env, end, beats, o)
  {
    ghost var s0, t0 := sys.s, sys.trace;
    Fetch(sys, w);
    ghost var s1, t1 := sys.s, sys.trace;
    if PcOf(sys.s, w).Idle? {
      end, beats, o := Missing, 0, NoHandler;
      assert [Read(w)] + [] == [Read(w)];
    } else if PcOf(sys.s, w).Acking? {
      Acknowledge(sys, w, env[0]);
      end, beats, o := AlreadyDone, 0, NoHandler;
      Joined(sys, s0, t0, [Read(w)], s1, t1, env[0] + [Ack(w)]);
    } else {
      DlqStep(s0, Read(w), PcOf(s1, w).id);
      end, beats, o := Attend(sys, w, events, broken, reported, beatEnv, env);
      Joined(sys, s0, t0, [Read(w)], s1, t1, AttendScript(w, end, beats, o, reported, beatEnv, env));
    }
  }

  /** All about a call that ran the handler: the outcome it took, the change it asked for, the
      end that lock and status of the row made of it, what it wrote, and what it left behind. */
  ghost predicate Attended(
      s: Sys, s1: Sys, t: Sys, w: nat, pc: Pc, events: seq<Event>, broken: bool, reported: bool,
      beatEnv: seq<seq<Action>>, env: seq<seq<Action>>, end: End, beats: nat, o: Outcome)
    requires pc.Executing? && |env| == 5 && |beatEnv| == |events|
  {
    && FirstOutcome(events, beats, o) && w in s1.pool.workers
    && EndsAs(AtCommit(s1, w, beats, o, beatEnv, env), w, pc, s1.pool.workers[w].name, o,
              AtOutcome(s1, w, beats, beatEnv, env).now, broken, end)
    && Accounted(s, t, end, reported, pc.msg, pc.id)
  }

  /** In the state UpdateTask meets: the change asked for, the end, and what is written. */
  ghost predicate EndsAs(at: Sys, w: nat, e: Pc, name: string, o: Outcome, now: int, broken: bool, end: End)
    requires e.Executing?
  {
    && w in at.pool.workers && at.pool.workers[w].pc.Deciding?
    && at.pool.workers[w].pc.msg == e.msg && at.pool.workers[w].pc.id == e.id
    && Effects.RightChoice(at.pool.workers[w].pc.mutation, name, e.snap, o, now)
    && end == EndIn(at, e.id, at.pool.workers[w].pc.mutation, e.snap, o, broken)
    && (Settled(end) ==> Written(at, Next(at, Commit(w)).db, e.id, at.pool.workers[w].pc.mutation, o))
  }

  /** The end, by the error of the call, the lock, the status, the outcome and the attempts left. */
  ghost function EndIn(at: Sys, x: TaskId, m: Mutation, snap: Task, o: Outcome, broken: bool): End {
    if broken || Effects.HeldByPick(at, x) then Blocked
    else if x !in at.db.tasks || !Effects.Accepts(at.db.tasks[x].status, m) then Refused
    else
      match o
      case NoHandler => Fails
      case Success(_) => Completes
      case Failure(_, cancelled) =>
        if snap.attemptCount + 1 < snap.retryLimit && !cancelled then Retries else Fails
  }

  /** The row an applied change leaves: the columns of the change, and in them the handler's own
      result or error. */
  ghost predicate Written(at: Sys, db: Db, x: TaskId, m: Mutation, o: Outcome) {
    && x in at.db.tasks && x in db.tasks
    && Effects.Wrote(at.db.tasks[x], db.tasks[x], m, at.now)
    && (o.Success? ==> db.tasks[x].result == o.result)
    && (o.Failure? ==> db.tasks[x].lastError == o.error)
  }

  /** What the worker asks for, what comes of it, and what it writes. */
  lemma Concluded(at: Sys, w: nat, e: Pc, name: string, o: Outcome, now: int, broken: bool, end: End)
    requires e.Executing? && w in at.pool.workers && Asks(at, w, e, name, o, now)
    requires end == Ending(Answer(at, w, broken), e.snap, o)
    ensures EndsAs(at, w, e, name, o, now, broken, end)
  {
    var v := Decide(name, e.snap, o, now);
    Effects.DecideIsRight(name, e.snap, o, now);
    Effects.UpdateIsRight(at, e.id, v);
    Effects.CommitEffect(at, w);
    assert Effects.HeldByPick(at, e.id) <==> e.id in Locked(at);
  }

  /** From the snapshot to the end of the call. */
  method Attend(
      sys: System, w: nat, events: seq<Event>, broken: bool, reported: bool,
      beatEnv: seq<seq<Action>>, env: seq<seq<Action>>)
    returns (end: End, beats: nat, o: Outcome)
    requires sys.Valid() && w in sys.s.pool.workers && PcOf(sys.s, w).Executing?
    requires |beatEnv| == |events| && (forall i :: 0 <= i < |beatEnv| ==> Foreign(beatEnv[i], w))
    requires exists i :: 0 <= i < |events| && events[i].Done?
    requires |env| == 5 && forall i :: 0 <= i < 5 ==> Foreign(env[i], w)
    modifies sys
    ensures Attended(old(sys.s), old(sys.s), sys.s, w, PcOf(old(sys.s), w),
                     events, broken, reported, beatEnv, env, end, beats, o)
    ensures sys.Ran(old(sys.s), old(sys.trace), AttendScript(w, end, beats, o, reported, beatEnv, env))
    ensures PcOf(sys.s, w).Idle? && HandledEnd(end)
  {
    ghost var s0, t0, pc := sys.s, sys.trace, PcOf(sys.s, w);
    o, beats := AwaitOutcome(sys, w, events, beatEnv);
    ghost var s1, t1 := sys.s, sys.trace;
    DlqGrows(s0, Weave(Beats(w, beats, beatEnv)), pc.id);
    end := Resolve(sys, w, o, broken, reported, env);
    Concluded(AtCommit(s0, w, beats, o, beatEnv, env), w, pc, s0.pool.workers[w].name, o,
              AtOutcome(s0, w, beats, beatEnv, env).now, broken, end);
    Joined(sys, s0, t0, Weave(Beats(w, beats, beatEnv)), s1, t1,
           (env[1] + [Finish(w, o)]) + Tail(w, end, reported, env[2..]));
  }

  /** The choice after the handler, on the task object read before it ran. */
  method Choose(name: string, snap: Task, o: Outcome, now: int) returns (m: Mutation)
    ensures m == Decide(name, snap, o, now)
  {
    match o
    case NoHandler =>
      m := Fail("no handler for type \"" + snap.kind + "\"");
    case Success(result) =>
      m := Complete(result, name);
    case Failure(error, cancelled) =>
      var task := new TaskRecord(snap);
      task.IncrementAttempt();
      if task.CanRetry() && !cancelled {
        m := Retry(task.attemptCount, error, now + Backoff.Delay(Backoff.DEFAULT, task.attemptCount));
      } else {
        m := Fail(error);
      }
  }

  /** Takes the outcome and makes the choice. */
  method TakeOutcome(sys: System, w: nat, o: Outcome, env: seq<Action>)
    requires sys.Valid() && w in sys.s.pool.workers && PcOf(sys.s, w).Executing? && Foreign(env, w)
    modifies sys
    ensures sys.Ran(old(sys.s), old(sys.trace), env + [Finish(w, o)])
    ensures sys.s == Next(Exec(old(sys.s), env), Finish(w, o))
    ensures Asks(sys.s, w, PcOf(old(sys.s), w), old(sys.s).pool.workers[w].name, o, Exec(old(sys.s), env).now)
  {
    ghost var s0, t0 := sys.s, sys.trace;
    PcUntouched(sys.s, env, w);
    sys.Others(env);
    ghost var s1, t1 := sys.s, sys.trace;
    var m := Choose(sys.s.pool.workers[w].name, PcOf(sys.s, w).snap, o, sys.s.now);
    FinishNow(sys.s, w, o);
    sys.Step(Finish(w, o));
    Joined(sys, s0, t0, env, s1, t1, [Finish(w, o)]);
    assert PcOf(sys.s, w).mutation == m;
  }

  lemma EndOfDecision(name: string, snap: Task, o: Outcome, now: int, r: Committed)
    ensures EndOf(r, Decide(name, snap, o, now)) == Ending(r, snap, o)
  {
  }

  /** From the outcome to the end of the call. */
  method Resolve(sys: System, w: nat, o: Outcome, broken: bool, reported: bool, env: seq<seq<Action>>)
    returns (end: End)
    requires sys.Valid() && w in sys.s.pool.workers && PcOf(sys.s, w).Executing?
    requires |env| == 5 && forall i :: 0 <= i < 5 ==> Foreign(env[i], w)
    modifies sys
    ensures var e, m := PcOf(old(sys.s), w), Exec(old(sys.s), env[1]);
            var at := Exec(Next(m, Finish(w, o)), env[2]);
            && Asks(at, w, e, old(sys.s).pool.workers[w].name, o, m.now)
            && end == Ending(Answer(at, w, broken), e.snap, o) && HandledEnd(end)
            && Accounted(old(sys.s), sys.s, end, reported, e.msg, e.id)
    ensures sys.Ran(old(sys.s), old(sys.trace), (env[1] + [Finish(w, o)]) + Tail(w, end, reported, env[2..]))
    ensures PcOf(sys.s, w).Idle?
  {
    ghost var s0, t0, e := sys.s, sys.trace, PcOf(sys.s, w);
    ghost var name, now := sys.s.pool.workers[w].name, Exec(sys.s, env[1]).now;
    TakeOutcome(sys, w, o, env[1]);
    ghost var s1, t1 := sys.s, sys.trace;
    DlqGrows(s0, env[1] + [Finish(w, o)], e.id);
    end := Mark(sys, w, broken, reported, env[2..]);
    EndOfDecision(name, e.snap, o, now, Answer(Exec(s1, env[2]), w, broken));
    Joined(sys, s0, t0, env[1] + [Finish(w, o)], s1, t1, Tail(w, end, reported, env[2..]));
  }
}
