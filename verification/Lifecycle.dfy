/** One transfer: its in-memory record, its persisted row and the steps of a worker, a retry timer
    and the batch writer on them. Instants are integers; SQL statements act on the row. */
module Lifecycle {
  import opened Common

  datatype Status = Pending | InProgress | Success | Failed | Retrying

  /** The statuses `HasActiveTransfer` looks for. */
  predicate Active(s: Status) { s.Pending? || s.InProgress? || s.Retrying? }

  /** The columns of a transfer that the engine reads or writes. */
  datatype Row = Row(
    app: string, key: string, size: int, maxRetries: int,
    status: Status, error: string, bytes: int,
    started: Option<int>, completed: Option<int>, durationMs: int, retryCount: nat, nextRetry: Option<int>)

  /** The record a webhook creates. */
  function NewRow(app: string, key: string, size: int, maxRetries: int): Row {
    Row(app, key, size, maxRetries, Pending, "", 0, None, None, 0, 0, None)
  }

  /** `doTransfer` wraps the cause, so its error text is never empty. */
  datatype TransferError = GetObjectFailed(cause: string) | PutObjectFailed(cause: string) {
    function Text(): (t: string)
      ensures t != ""
    {
      match this
      case GetObjectFailed(c) => "GetObject: " + c
      case PutObjectFailed(c) => "PutObject: " + c
    }
  }

  // ---- the assignments the worker makes to the shared record ----

  function MarkStarted(r: Row, now: int): Row {
    r.(status := InProgress, started := Some(now))
  }

  function MarkSuccess(r: Row, now: int, durationMs: int): Row {
    r.(status := Success, completed := Some(now), durationMs := durationMs, bytes := r.size)
  }

  function MarkRetrying(r: Row, retryCount: nat, e: TransferError, next: int): Row {
    r.(status := Retrying, retryCount := retryCount, error := e.Text(), nextRetry := Some(next))
  }

  function MarkFailed(r: Row, e: TransferError, now: int): Row {
    r.(status := Failed, error := e.Text(), completed := Some(now))
  }

  /** What the retry timer resets, in memory only. */
  function MarkRequeued(r: Row): Row {
    r.(status := Pending, error := "", started := None, completed := None, nextRetry := None)
  }

  /** `UPDATE transfers SET ... WHERE id=?`: the columns the statement names come from the record. */
  function Updated(prior: Row, mem: Row): Row {
    prior.(status := mem.status, error := mem.error, bytes := mem.bytes, started := mem.started,
      completed := mem.completed, durationMs := mem.durationMs, retryCount := mem.retryCount,
      maxRetries := mem.maxRetries, nextRetry := mem.nextRetry)
  }

  // ---- a job and its steps ----

  /** Where a job is. `Taken` and `Started` name the worker that holds it. */
  datatype Stage =
    | Created            // row inserted, not yet enqueued
    | Queued
    | Taken(worker: nat)     // dequeued, before the in_progress update
    | Started(worker: nat)   // inside doTransfer
    | Waiting            // in a retry timer
    | Succeeded
    | Dead               // failed for good

  /** `db` is the committed row, `pending` the row the open transaction would commit. */
  datatype Job = Job(stage: Stage, retryCount: nat, maxRetries: int, attempts: nat,
                     mem: Row, db: Option<Row>, pending: Option<Row>)

  predicate Live(j: Job) { !j.stage.Succeeded? && !j.stage.Dead? }

  /** The retry budget: a negative setting allows no retry. */
  function Budget(j: Job): (b: nat) { Max(0, j.maxRetries) }

  function NewJob(row: Row): Job {
    Job(Created, 0, row.maxRetries, 0, row, None, Some(row))
  }

  datatype JobAction =
    | Enqueue
    | Take(worker: nat)
    | Begin(at: int, ok: bool)
    | Succeed(at: int, durationMs: int, ok: bool)
    | Retry(cause: TransferError, next: int, ok: bool)
    | GiveUp(cause: TransferError, at: int, ok: bool)
    | Fire
    | Commit(ok: bool)

  /** The steps that hand the batch writer a statement. The writer runs one transaction at a time,
      so a job's statement executes only after its previous one was committed or lost. */
  predicate Writes(j: Job, a: JobAction) {
    a.Succeed? || a.Retry? || a.GiveUp? || (a.Begin? && j.retryCount == 0)
  }

  predicate CanStep(j: Job, a: JobAction) {
    && (Writes(j, a) ==> j.pending.None?)
    && match a
       case Enqueue => j.stage.Created?
       case Take(_) => j.stage.Queued?
       case Begin(_, _) => j.stage.Taken?
       case Succeed(_, _, _) => j.stage.Started?
       case Retry(_, _, _) => j.stage.Started? && j.retryCount < j.maxRetries
       case GiveUp(_, _, _) => j.stage.Started? && j.retryCount >= j.maxRetries
       case Fire => j.stage.Waiting?
       case Commit(_) => j.pending.Some?
  }

  /** `UpdateTransfer`: a failed statement leaves the row, and a missing row is not updated. */
  function Write(j: Job, ok: bool): Job
    requires j.pending.None?
  {
    if ok && j.db.Some? then j.(pending := Some(Updated(j.db.value, j.mem))) else j
  }

  function Step(j: Job, a: JobAction): Job
    requires CanStep(j, a)
  {
    match a
    case Enqueue => j.(stage := Queued)
    case Take(w) => j.(stage := Taken(w))
    case Begin(at, ok) =>
      var started := j.(stage := Started(j.stage.worker));
      if j.retryCount == 0 then Write(started.(mem := MarkStarted(j.mem, at)), ok) else started
    case Succeed(at, durationMs, ok) =>
      Write(j.(stage := Succeeded, attempts := j.attempts + 1, mem := MarkSuccess(j.mem, at, durationMs)), ok)
    case Retry(e, next, ok) =>
      Write(j.(stage := Waiting, attempts := j.attempts + 1, retryCount := j.retryCount + 1,
               mem := MarkRetrying(j.mem, j.retryCount + 1, e, next)), ok)
    case GiveUp(e, at, ok) =>
      Write(j.(stage := Dead, attempts := j.attempts + 1, mem := MarkFailed(j.mem, e, at)), ok)
    case Fire => j.(stage := Queued, mem := MarkRequeued(j.mem))
    case Commit(ok) => if ok then j.(db := j.pending, pending := None) else j.(pending := None)
  }

  // ---- what is always true of a persisted row ----

  /** The row alone tells its history: which columns are set is a function of status and retry count. */
  predicate RowOk(r: Row) {
    && r.retryCount <= Max(0, r.maxRetries)
    && (r.status.Failed? ==> r.retryCount == Max(0, r.maxRetries))
    && (r.status.Retrying? ==> r.retryCount >= 1)
    && (r.status.Pending? || r.status.InProgress? ==> r.retryCount == 0)
    && (r.nextRetry.Some? <==> r.status.Retrying?)
    && (r.completed.Some? <==> !Active(r.status))
    && (r.error != "" <==> r.status.Retrying? || r.status.Failed?)
    && r.bytes == (if r.status.Success? then r.size else 0)
    && (r.durationMs != 0 ==> r.status.Success?)
    && (r.started.Some? <==>
        r.status.InProgress? || (r.status.Retrying? && r.retryCount == 1) || (!Active(r.status) && r.retryCount == 0))
  }

  /** The in-memory record at each stage. */
  predicate MemOk(j: Job) {
    && j.mem.retryCount == j.retryCount
    && j.mem.maxRetries == j.maxRetries
    && match j.stage
       case Created => j.retryCount == 0 && Fresh(j.mem)
       case Queued => Fresh(j.mem)
       case Taken(_) => Fresh(j.mem)
       case Started(_) =>
         if j.retryCount > 0 then Fresh(j.mem)
         else Fresh(j.mem.(status := Pending, started := None)) && j.mem.status.InProgress? && j.mem.started.Some?
       case Waiting => RowOk(j.mem) && j.mem.status.Retrying?
       case Succeeded => RowOk(j.mem) && j.mem.status.Success?
       case Dead => RowOk(j.mem) && j.mem.status.Failed?
  }

  predicate Fresh(r: Row) {
    && r.status.Pending? && r.error == "" && r.bytes == 0 && r.durationMs == 0
    && r.started.None? && r.completed.None? && r.nextRetry.None?
  }

  predicate SameTransfer(r: Row, j: Job) {
    r.app == j.mem.app && r.key == j.mem.key && r.size == j.mem.size && r.maxRetries == j.maxRetries
  }

  /** A row equals the record, column by column, if it is terminal, and whenever status and retry count agree. */
  predicate Mirrors(r: Row, mem: Row) {
    !Active(r.status) || (r.status == mem.status && r.retryCount == mem.retryCount) ==> r == mem
  }

  predicate PersistedOk(r: Row, j: Job) {
    && RowOk(r) && SameTransfer(r, j) && r.retryCount <= j.retryCount
    && (Live(j) ==> Active(r.status)) && Mirrors(r, j.mem)
    && (j.mem.status.Pending? && j.retryCount == 0 ==> r.status.Pending?)
  }

  predicate JobInv(j: Job) {
    && MemOk(j)
    && j.retryCount <= Budget(j)
    && (j.stage.Dead? ==> j.retryCount == Budget(j))
    && j.attempts == j.retryCount + (if Live(j) then 0 else 1)
    && (j.db.Some? ==> PersistedOk(j.db.value, j))
    && (j.pending.Some? ==> PersistedOk(j.pending.value, j))
    && (j.db.Some? && j.pending.Some? ==>
        Active(j.db.value.status) && j.db.value.retryCount <= j.pending.value.retryCount)
    && (j.db.Some? && !Live(j) && j.pending.Some? ==> !Active(j.pending.value.status))
  }

  lemma NewJobInv(app: string, key: string, size: int, maxRetries: int)
    ensures JobInv(NewJob(NewRow(app, key, size, maxRetries)))
  {
  }

  /** A row with a terminal status is final: no step changes any of its columns. Otherwise the retry
      count never falls. A terminal job stays terminal and is never attempted again. */
  predicate Evolves(j: Job, k: Job) {
    && SameTransfer(j.mem, k) && k.maxRetries == j.maxRetries
    && (j.db.Some? ==> k.db.Some?)
    && (j.db.Some? && !Active(j.db.value.status) ==> k.db == j.db)
    && (j.db.Some? ==> j.db.value.retryCount <= k.db.value.retryCount)
    && (!Live(j) ==> k.stage == j.stage && k.attempts == j.attempts)
    && j.attempts <= k.attempts
  }

  lemma MoveKeepsJobInv(j: Job, a: JobAction)
    requires JobInv(j) && CanStep(j, a) && (a.Enqueue? || a.Take? || a.Fire?)
    ensures JobInv(Step(j, a)) && Evolves(j, Step(j, a))
  {
  }

  lemma BeginKeepsJobInv(j: Job, at: int, ok: bool)
    requires JobInv(j) && CanStep(j, Begin(at, ok))
    ensures JobInv(Step(j, Begin(at, ok))) && Evolves(j, Step(j, Begin(at, ok)))
  {
  }

  lemma SucceedKeepsJobInv(j: Job, at: int, durationMs: int, ok: bool)
    requires JobInv(j) && CanStep(j, Succeed(at, durationMs, ok))
    ensures JobInv(Step(j, Succeed(at, durationMs, ok))) && Evolves(j, Step(j, Succeed(at, durationMs, ok)))
  {
  }

  lemma RetryKeepsJobInv(j: Job, e: TransferError, next: int, ok: bool)
    requires JobInv(j) && CanStep(j, Retry(e, next, ok))
    ensures JobInv(Step(j, Retry(e, next, ok))) && Evolves(j, Step(j, Retry(e, next, ok)))
  {
  }

  lemma GiveUpKeepsJobInv(j: Job, e: TransferError, at: int, ok: bool)
    requires JobInv(j) && CanStep(j, GiveUp(e, at, ok))
    ensures JobInv(Step(j, GiveUp(e, at, ok))) && Evolves(j, Step(j, GiveUp(e, at, ok)))
  {
  }

  lemma CommitKeepsJobInv(j: Job, ok: bool)
    requires JobInv(j) && CanStep(j, Commit(ok))
    ensures JobInv(Step(j, Commit(ok))) && Evolves(j, Step(j, Commit(ok)))
  {
  }

  /** Every step keeps the job invariant, whether its statement or commit succeeds or not. */
  lemma StepKeepsJobInv(j: Job, a: JobAction)
    requires JobInv(j) && CanStep(j, a)
    ensures JobInv(Step(j, a)) && Evolves(j, Step(j, a))
  {
    match a
    case Begin(at, ok) => BeginKeepsJobInv(j, at, ok);
    case Succeed(at, durationMs, ok) => SucceedKeepsJobInv(j, at, durationMs, ok);
    case Retry(e, next, ok) => RetryKeepsJobInv(j, e, next, ok);
    case GiveUp(e, at, ok) => GiveUpKeepsJobInv(j, e, at, ok);
    case Commit(ok) => CommitKeepsJobInv(j, ok);
    case _ => MoveKeepsJobInv(j, a);
  }

  // ---- whole runs of one job ----

  predicate JobRun(j: Job, acts: seq<JobAction>)
    decreases |acts|
  {
    acts == [] || (CanStep(j, acts[0]) && JobRun(Step(j, acts[0]), acts[1..]))
  }

  function JobAfter(j: Job, acts: seq<JobAction>): Job
    requires JobRun(j, acts)
    decreases |acts|
  {
    if acts == [] then j else JobAfter(Step(j, acts[0]), acts[1..])
  }

  /** Over every run the persisted row satisfies RowOk, is active while the job lives, equals the record where it
      should, and is frozen once terminal. */
  lemma {:induction false} RunKeepsRow(j: Job, acts: seq<JobAction>)
    requires JobInv(j) && JobRun(j, acts)
    ensures var k := JobAfter(j, acts);
            && JobInv(k) && Evolves(j, k)
            && (k.db.Some? ==>
                  RowOk(k.db.value) && (Live(k) ==> Active(k.db.value.status)) && Mirrors(k.db.value, k.mem))
    decreases |acts|
  {
    if acts != [] {
      StepKeepsJobInv(j, acts[0]);
      RunKeepsRow(Step(j, acts[0]), acts[1..]);
    }
  }

  /** A job makes at most one attempt more than its retry budget; it makes exactly that many
      if and only if it failed, or succeeded on the last allowed try. */
  lemma AttemptsBounded(j: Job)
    requires JobInv(j)
    ensures j.attempts <= Budget(j) + 1
    ensures j.attempts == Budget(j) + 1 <==> j.stage.Dead? || (j.stage.Succeeded? && j.retryCount == Budget(j))
  {
  }
}
