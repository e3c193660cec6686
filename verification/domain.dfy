/** The task aggregate of internal/domain/task.go: statuses, the transition table, the
    fields of a task, and the five row mutations the use cases apply through UpdateTask. */
module Domain {

  // UUIDs are numbers here; only equality and freshness of ids are used.
  type TaskId = nat

  datatype Option<+T> = None | Some(value: T)

  function Min(x: int, y: int): (r: int)
    ensures r <= x && r <= y && (r == x || r == y)
  {
    if x < y then x else y
  }

  datatype Status = Pending | Running | Completed | Failed | Cancelled

  /** The transition table, in the order the source lists it. */
  function AllowedTransitions(s: Status): seq<Status> {
    match s
    case Pending => [Running, Cancelled]
    case Running => [Completed, Failed, Pending]
    case Failed => [Pending]
    case Completed => []
    case Cancelled => []
  }

  /** Times are nanoseconds on one clock.  A nil result and a NULL column are None;
      the empty string stands for NULL in the text columns, as nullText does. */
  datatype Task = Task(
    kind: string,
    payload: string,
    priority: nat,
    status: Status,
    scheduledAt: int,
    createdAt: int,
    updatedAt: int,
    attemptCount: int,
    retryLimit: int,
    lastError: string,
    result: Option<string>,
    workerId: string,
    key: string)

  /** The fields that no statement after the INSERT may change. */
  predicate SameIdentity(a: Task, b: Task) {
    && a.kind == b.kind
    && a.payload == b.payload
    && a.priority == b.priority
    && a.createdAt == b.createdAt
    && a.retryLimit == b.retryLimit
    && a.key == b.key
  }

  predicate Terminal(s: Status) {
    s.Completed? || s.Cancelled?
  }

  predicate MayMove(from: Status, to: Status)
    ensures MayMove(from, to) <==>
            || (from.Pending? && (to.Running? || to.Cancelled?))
            || (from.Running? && (to.Completed? || to.Failed? || to.Pending?))
            || (from.Failed? && to.Pending?)
  {
    to in AllowedTransitions(from)
  }

  /** The closures handed to UpdateTask by markCompleted, markRetry, markFailed, Cancel and Republish. */
  datatype Mutation =
    | Complete(result: Option<string>, worker: string)
    | Retry(attempt: int, error: string, nextAt: int)
    | Fail(error: string)
    | Cancel
    | Republish

  function Target(m: Mutation): Status {
    match m
    case Complete(_, _) => Completed
    case Retry(_, _, _) => Pending
    case Fail(_) => Failed
    case Cancel => Cancelled
    case Republish => Pending
  }

  /** What a closure writes once its TransitionTo has succeeded. */
  function Edit(t: Task, m: Mutation): Task {
    match m
    case Complete(result, worker) => t.(result := result, workerId := worker)
    case Retry(attempt, error, nextAt) =>
      t.(attemptCount := attempt, lastError := error, scheduledAt := nextAt, workerId := "")
    case Fail(error) => t.(lastError := error, workerId := "")
    case Cancel => t
    case Republish => t.(attemptCount := 0, lastError := "")
  }

  /** One closure on one loaded row; None is ErrInvalidStateTransition. */
  function Mutate(t: Task, m: Mutation, now: int): Option<Task> {
    if MayMove(t.status, Target(m))
    then Some(Edit(t.(status := Target(m), updatedAt := now), m))
    else None
  }

  /** The in-memory task, whose methods change it in place. */
  class TaskRecord {
    var kind: string
    var payload: string
    var priority: nat
    var status: Status
    var scheduledAt: int
    var createdAt: int
    var updatedAt: int
    var attemptCount: int
    var retryLimit: int
    var lastError: string
    var result: Option<string>
    var workerId: string
    var key: string

    ghost function Value(): Task
      reads this
    {
      Task(kind, payload, priority, status, scheduledAt, createdAt, updatedAt,
           attemptCount, retryLimit, lastError, result, workerId, key)
    }

    constructor (t: Task)
      ensures Value() == t
    {
      kind, payload, priority, status := t.kind, t.payload, t.priority, t.status;
      scheduledAt, createdAt, updatedAt := t.scheduledAt, t.createdAt, t.updatedAt;
      attemptCount, retryLimit, lastError := t.attemptCount, t.retryLimit, t.lastError;
      result, workerId, key := t.result, t.workerId, t.key;
    }

    /** Scans the transition table; only a listed move changes the task, and then only
        its status and its update time. */
    method TransitionTo(next: Status, now: int) returns (ok: bool)
      modifies this
      ensures ok == MayMove(old(status), next)
      ensures Value() == if ok then old(Value()).(status := next, updatedAt := now) else old(Value())
    {
      var row := AllowedTransitions(status);
      for i := 0 to |row|
        invariant Value() == old(Value())
        invariant next !in row[..i]
      {
        if row[i] == next {
          status := next;
          updatedAt := now;
          return true;
        }
      }
      return false;
    }

    predicate CanRetry()
      reads this
    {
      attemptCount < retryLimit
    }

    method IncrementAttempt()
      modifies this`attemptCount
      ensures Value() == old(Value()).(attemptCount := old(attemptCount) + 1)
    {
      attemptCount := attemptCount + 1;
    }

    /** Runs one closure: the transition first, the field writes only after it succeeded. */
    method Apply(m: Mutation, now: int) returns (ok: bool)
      modifies this
      ensures ok == Mutate(old(Value()), m, now).Some?
      ensures Value() == if ok then Mutate(old(Value()), m, now).value else old(Value())
      ensures ok <==> match m
                      case Complete(_, _) => old(status) == Running
                      case Fail(_) => old(status) == Running
                      case Cancel => old(status) == Pending
                      case _ => old(status) == Running || old(status) == Failed
      ensures ok ==>
                var t, u := old(Value()), Value();
                match m
                case Complete(res, worker) =>
                  u == t.(status := Completed, updatedAt := now, result := res, workerId := worker)
                case Retry(attempt, error, nextAt) =>
                  u == t.(status := Pending, updatedAt := now, attemptCount := attempt, lastError := error,
                          scheduledAt := nextAt, workerId := "")
                case Fail(error) => u == t.(status := Failed, updatedAt := now, lastError := error, workerId := "")
                case Cancel => u == t.(status := Cancelled, updatedAt := now)
                case Republish => u == t.(status := Pending, updatedAt := now, attemptCount := 0, lastError := "")
    {
      ok := TransitionTo(Target(m), now);
      if !ok {
        return;
      }
      match m
      case Complete(res, worker) =>
        result := res;
        workerId := worker;
      case Retry(attempt, error, nextAt) =>
        attemptCount := attempt;
        lastError := error;
        scheduledAt := nextAt;
        workerId := "";
      case Fail(error) =>
        lastError := error;
        workerId := "";
      case Cancel =>
      case Republish =>
        attemptCount := 0;
        lastError := "";
    }
  }
}
