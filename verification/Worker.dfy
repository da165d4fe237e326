/** The code of the manager and its workers as it updates objects in place, proved to take the steps of the
    engine: the manager's critical sections and process / scheduleRetry / fail on the shared record. */
module Worker {
  import opened Common
  import opened Lifecycle
  import opened Backoff
  import Engine

  /** What one pass of the worker loop decided under the lock. */
  datatype Turn = Wait | Exit | Run(job: nat)

  /** The engine actions of one pass that starts with the lock held. */
  function TurnActions(w: nat, turn: Turn): seq<Engine.Action> {
    [Engine.Test(w),
     match turn case Wait => Engine.Park(w) case Exit => Engine.Leave(w) case Run(_) => Engine.TakeJob(w)]
  }

  class Manager {
    var queue: seq<nat>
    var closed: bool

    constructor ()
      ensures forall n: nat :: Matches(Engine.Init(n))
    {
      queue, closed := [], false;
    }

    ghost predicate Matches(s: Engine.State)
      reads this
    {
      queue == s.queue && closed == s.closed
    }

    /** Enqueue up to the unlock, called by a handler or by a retry timer; it never fails. */
    method Enqueue(id: nat, ghost caller: Engine.Action, ghost s: Engine.State)
      requires caller == Engine.Append(id) || caller == Engine.FireTimer(id)
      requires Matches(s) && Engine.Enabled(s, caller)
      modifies this
      ensures Matches(Engine.Next(s, caller))
      ensures queue == old(queue) + [id] && closed == old(closed)
    {
      queue := queue + [id];
    }

    /** Stop up to the unlock. */
    method Close(ghost s: Engine.State)
      requires Matches(s) && Engine.Enabled(s, Engine.Close)
      modifies this
      ensures Matches(Engine.Next(s, Engine.Close))
      ensures queue == old(queue) && closed
    {
      closed := true;
    }

    /** One pass of the worker loop with the lock held: test, then wait, exit or take the oldest job.
        The access queue[0] is in range whenever it is reached. */
    method Pass(w: nat, ghost s: Engine.State) returns (turn: Turn)
      requires Matches(s) && Engine.Inv(s) && Engine.At(s, w, Engine.Testing)
      modifies this
      ensures Engine.IsRun(s, TurnActions(w, turn))
      ensures Matches(Engine.After(s, TurnActions(w, turn)))
      ensures turn.Run? ==> old(queue) == [turn.job] + queue
      ensures turn.Run? ==> Engine.At(Engine.After(s, TurnActions(w, turn)), w, Engine.Busy(turn.job))
    {
      if |queue| == 0 && !closed {
        turn := Wait;
      } else if closed && |queue| == 0 {
        turn := Exit;
      } else {
        turn := Run(queue[0]);
        queue := queue[1..];
      }
      TwoSteps(s, TurnActions(w, turn)[0], TurnActions(w, turn)[1]);
    }

    /** The depth the broadcast throttle looks at counts jobs, not slots: it is the number of jobs in stage Queued,
        and what was ever enqueued less what was ever dequeued. */
    method QueueDepth(ghost s: Engine.State) returns (n: nat)
      requires Matches(s) && Engine.Inv(s)
      ensures n == Sum(s.jobs, Engine.QueuedWeight) && n == |s.enqueued| - |s.dequeued|
    {
      Engine.QueueCountsJobs(s);
      n := |queue|;
    }
  }

  lemma TwoSteps(s: Engine.State, a: Engine.Action, b: Engine.Action)
    requires Engine.Enabled(s, a) && Engine.Enabled(Engine.Next(s, a), b)
    ensures Engine.IsRun(s, [a, b]) && Engine.After(s, [a, b]) == Engine.Next(Engine.Next(s, a), b)
  {
    var t := Engine.Next(s, a);
    assert [a, b][1..] == [b] && [b][1..] == [];
    assert Engine.IsRun(Engine.Next(t, b), []);
    assert Engine.IsRun(t, [b]) && Engine.After(t, [b]) == Engine.After(Engine.Next(t, b), []);
  }

  /** The `*storage.Transfer` a job points to. */
  class Transfer {
    const app: string
    const key: string
    const size: int
    const maxRetries: int
    var status: Status
    var errorMessage: string
    var bytesTransferred: int
    var startedAt: Option<int>
    var completedAt: Option<int>
    var durationMs: int
    var retryCount: nat
    var nextRetryAt: Option<int>

    /** The record a webhook handler fills in. */
    constructor (app: string, key: string, size: int, maxRetries: int)
      ensures Record() == NewRow(app, key, size, maxRetries)
    {
      this.app, this.key, this.size, this.maxRetries := app, key, size, maxRetries;
      status, errorMessage, bytesTransferred := Pending, "", 0;
      startedAt, completedAt, durationMs, retryCount, nextRetryAt := None, None, 0, 0, None;
    }

    function Record(): Row
      reads this
    {
      Row(app, key, size, maxRetries, status, errorMessage, bytesTransferred,
          startedAt, completedAt, durationMs, retryCount, nextRetryAt)
    }
  }

  datatype Verdict = Ended | RetryAfter(delay: int, retryCount: nat)

  /** `Duration.Milliseconds`: nanoseconds to whole milliseconds, truncated toward zero. */
  function Milliseconds(ns: int): (ms: int)
    ensures ns >= 0 ==> 0 <= ns - ms * 1_000_000 < 1_000_000
    ensures ns < 0 ==> 0 <= ms * 1_000_000 - ns < 1_000_000
  {
    if ns < 0 then -(-ns / 1_000_000) else ns / 1_000_000
  }

  /** The job action an attempt from `began` to `ended` ends with. */
  function Outcome(result: Option<TransferError>, retryCount: nat, maxRetries: int, began: int, ended: int,
                   verdict: Verdict, ok: bool): JobAction
  {
    match result
    case None => Succeed(ended, Milliseconds(ended - began), ok)
    case Some(e) =>
      if retryCount < maxRetries then Retry(e, ended + (if verdict.Ended? then 0 else verdict.delay), ok)
      else GiveUp(e, ended, ok)
  }

  /** The record an attempt leaves behind. */
  function Attempted(r: Row, retryCount: nat, maxRetries: int, began: int, result: Option<TransferError>, ended: int,
                     delay: int): Row
  {
    var begun := if retryCount == 0 then MarkStarted(r, began) else r;
    match result
    case None => MarkSuccess(begun, ended, Milliseconds(ended - began))
    case Some(e) =>
      if retryCount < maxRetries then MarkRetrying(begun, retryCount + 1, e, ended + delay)
      else MarkFailed(begun, e, ended)
  }

  /** It is the record that the job's steps Begin and Outcome leave behind. */
  lemma AttemptIsSteps(j: Job, ok1: bool, ok2: bool, began: int, result: Option<TransferError>, ended: int,
                       verdict: Verdict)
    requires CanStep(j, Begin(began, ok1))
    requires CanStep(Step(j, Begin(began, ok1)),
                     Outcome(result, j.retryCount, j.maxRetries, began, ended, verdict, ok2))
    ensures Step(Step(j, Begin(began, ok1)),
                 Outcome(result, j.retryCount, j.maxRetries, began, ended, verdict, ok2)).mem
         == Attempted(j.mem, j.retryCount, j.maxRetries, began, result, ended,
                      if verdict.Ended? then 0 else verdict.delay)
  {
  }

  /** `process` with doTransfer's result, the clock readings and the random draw as inputs. `writes` lists the
      records handed to UpdateTransfer. Whatever those updates answer, the shared record ends as the job's
      steps Begin and Outcome leave it, and the last record written is the one it ends with. */
  method Process(t: Transfer, retryCount: nat, maxRetries: int, backoffSecs: int, began: int,
                 result: Option<TransferError>, ended: int, draw: nat)
      returns (writes: seq<Row>, verdict: Verdict)
    requires IsInt64(backoffSecs)
    modifies t
    ensures verdict.RetryAfter? <==> result.Some? && retryCount < maxRetries
    ensures verdict.RetryAfter? ==>
              verdict.retryCount == retryCount + 1 && DelayFits(backoffSecs, retryCount + 1, draw, verdict.delay)
    ensures verdict.RetryAfter? ==> MIN_DELAY <= verdict.delay < MAX_DELAY
    ensures t.startedAt == if retryCount == 0 then Some(began) else old(t.startedAt)
    ensures result.None? ==>
              && t.status.Success? && t.completedAt == Some(ended) && t.bytesTransferred == t.size
              && (ended >= began ==> 0 <= (ended - began) - t.durationMs * 1_000_000 < 1_000_000)
    ensures result.Some? ==> t.errorMessage == result.value.Text() && t.durationMs == old(t.durationMs)
    ensures result.Some? && retryCount >= maxRetries ==> t.status.Failed? && t.completedAt == Some(ended)
    ensures verdict.RetryAfter? ==>
              && t.status.Retrying? && t.retryCount == retryCount + 1 && t.nextRetryAt == Some(ended + verdict.delay)
    ensures |writes| == (if retryCount == 0 then 2 else 1) && writes[|writes| - 1] == t.Record()
    ensures retryCount == 0 ==> writes[0] == MarkStarted(old(t.Record()), began)
    ensures forall j: Job, ok1: bool, ok2: bool ::
              j.retryCount == retryCount && j.maxRetries == maxRetries && j.mem == old(t.Record()) &&
              CanStep(j, Begin(began, ok1)) ==>
              var begun := Step(j, Begin(began, ok1));
              var a := Outcome(result, retryCount, maxRetries, began, ended, verdict, ok2);
              CanStep(begun, a) ==> Step(begun, a).mem == t.Record()
  {
    writes := [];
    if retryCount == 0 {
      t.status := InProgress;
      t.startedAt := Some(began);
      writes := writes + [t.Record()];
    }
    match result {
      case Some(cause) =>
        if retryCount < maxRetries {
          var delay := ScheduleRetry(t, retryCount, backoffSecs, cause, ended, draw);
          verdict := RetryAfter(delay, retryCount + 1);
        } else {
          Fail(t, cause, ended);
          verdict := Ended;
        }
      case None =>
        t.status := Success;
        t.completedAt := Some(ended);
        t.durationMs := Milliseconds(ended - began);
        t.bytesTransferred := t.size;
        verdict := Ended;
    }
    writes := writes + [t.Record()];
    forall j: Job, ok1: bool, ok2: bool |
      j.retryCount == retryCount && j.maxRetries == maxRetries && j.mem == old(t.Record()) &&
      CanStep(j, Begin(began, ok1)) &&
      CanStep(Step(j, Begin(began, ok1)), Outcome(result, retryCount, maxRetries, began, ended, verdict, ok2))
      ensures Step(Step(j, Begin(began, ok1)),
                   Outcome(result, retryCount, maxRetries, began, ended, verdict, ok2)).mem == t.Record()
    {
      AttemptIsSteps(j, ok1, ok2, began, result, ended, verdict);
    }
  }

  method ScheduleRetry(t: Transfer, retryCount: nat, backoffSecs: int, cause: TransferError, now: int, draw: nat)
      returns (delay: int)
    requires IsInt64(backoffSecs)
    modifies t
    ensures MIN_DELAY <= delay < MAX_DELAY && DelayFits(backoffSecs, retryCount + 1, draw, delay)
    ensures t.Record() == MarkRetrying(old(t.Record()), retryCount + 1, cause, now + delay)
  {
    delay := RetryDelay(backoffSecs, retryCount + 1, draw);
    t.status := Retrying;
    t.retryCount := retryCount + 1;
    t.errorMessage := cause.Text();
    t.nextRetryAt := Some(now + delay);
  }

  method Fail(t: Transfer, cause: TransferError, now: int)
    modifies t
    ensures t.Record() == MarkFailed(old(t.Record()), cause, now)
  {
    t.status := Failed;
    t.errorMessage := cause.Text();
    t.completedAt := Some(now);
  }

  /** The retry timer's callback before it enqueues. */
  method Requeue(t: Transfer)
    modifies t
    ensures t.Record() == MarkRequeued(old(t.Record()))
  {
    t.status := Pending;
    t.errorMessage := "";
    t.startedAt := None;
    t.completedAt := None;
    t.nextRetryAt := None;
  }
}
