/** What every run of the engine keeps: no lost wakeup, job conservation, termination, exact shutdown. */
module EngineTheorems {
  import opened Common
  import opened Lifecycle
  import opened Engine

  // ---- no lost wakeup ----

  lemma SleepersAreCovered(s: State)
    requires Inv(s)
    ensures forall w :: At(s, w, Asleep) ==> |s.queue| <= s.signals + Sum(s.pcs, AwakeWeight)
  {
    assert WakeupInv(s);
  }

  lemma NobodyOversleeps(s: State)
    requires Inv(s) && |s.pcs| > 0 && s.signals == 0 && forall w :: 0 <= w < |s.pcs| ==> s.pcs[w].Asleep?
    ensures s.queue == []
  {
    SumZero(s.pcs, AwakeWeight);
    assert WakeupInv(s) && s.pcs[0].Asleep?;
  }

  lemma PastCanTake(s: State, w: nat)
    requires Inv(s) && At(s, w, Past) && !(s.closed && s.queue == [])
    ensures Enabled(s, TakeJob(w))
  {
    assert MutexInv(s) && PlaceInv(s);
  }

  /** In every state of every run from start-up: while a worker sleeps, queued jobs are covered by owed
      signals and workers about to look. So the queue is never stuck with everybody asleep, and the
      worker that leaves the wait loop never indexes an empty queue. */
  lemma NoLostWakeup(workers: nat, acts: seq<Action>)
    requires IsRun(Init(workers), acts)
    ensures var t := After(Init(workers), acts);
            && (forall w :: At(t, w, Asleep) ==> |t.queue| <= t.signals + Sum(t.pcs, AwakeWeight))
            && (workers > 0 && t.signals == 0 && (forall w :: 0 <= w < |t.pcs| ==> t.pcs[w].Asleep?) ==> t.queue == [])
            && (forall w :: At(t, w, Past) && !(t.closed && t.queue == []) ==> Enabled(t, TakeJob(w)))
  {
    InitInv(workers);
    RunKeepsInv(Init(workers), acts);
    RunKeepsWorkers(Init(workers), acts);
    AwakeOrCovered(After(Init(workers), acts));
  }

  /** The same of one state. */
  lemma AwakeOrCovered(t: State)
    requires Inv(t)
    ensures forall w :: At(t, w, Asleep) ==> |t.queue| <= t.signals + Sum(t.pcs, AwakeWeight)
    ensures |t.pcs| > 0 && t.signals == 0 && (forall w :: 0 <= w < |t.pcs| ==> t.pcs[w].Asleep?) ==> t.queue == []
    ensures forall w :: At(t, w, Past) && !(t.closed && t.queue == []) ==> Enabled(t, TakeJob(w))
  {
    SleepersAreCovered(t);
    if |t.pcs| > 0 && t.signals == 0 && (forall w :: 0 <= w < |t.pcs| ==> t.pcs[w].Asleep?) {
      NobodyOversleeps(t);
    }
    forall w | At(t, w, Past) && !(t.closed && t.queue == [])
      ensures Enabled(t, TakeJob(w))
    {
      PastCanTake(t, w);
    }
  }

  lemma {:induction false} RunKeepsWorkers(s: State, acts: seq<Action>)
    requires IsRun(s, acts)
    ensures |After(s, acts).pcs| == |s.pcs|
    decreases |acts|
  {
    if acts != [] {
      RunKeepsWorkers(Next(s, acts[0]), acts[1..]);
    }
  }

  // ---- job conservation ----

  /** 1 for a worker that is processing job `id`. */
  function BusyWith(id: nat): Pc -> nat {
    (p: Pc) => if p == Busy(id) then 1 else 0
  }

  function Indicator(b: bool): nat { if b then 1 else 0 }

  /** How many places hold job `id`: queue slots, workers, and the handler, timer or outcome it is in. */
  function PlaceCount(s: State, id: nat): nat
    requires id < |s.jobs|
  {
    multiset(s.queue)[id] + Sum(s.pcs, BusyWith(id)) + Indicator(!s.jobs[id].stage.Queued? && !Held(s.jobs[id]))
  }

  lemma {:induction false} DistinctCount(q: seq<nat>, id: nat)
    requires forall i, k :: 0 <= i < k < |q| ==> q[i] != q[k]
    ensures multiset(q)[id] == Indicator(id in q)
  {
    if q != [] {
      var n := |q| - 1;
      assert q == q[..n] + [q[n]];
      DistinctCount(q[..n], id);
      assert q[n] !in q[..n];
    }
  }

  lemma {:induction false} OneWorkerCount(pcs: seq<Pc>, id: nat, w: nat)
    requires forall i :: 0 <= i < |pcs| && pcs[i] == Busy(id) ==> i == w
    ensures Sum(pcs, BusyWith(id)) == Indicator(w < |pcs| && pcs[w] == Busy(id))
  {
    if pcs != [] {
      var n := |pcs| - 1;
      if w < n {
        assert pcs[..n][w] == pcs[w];
        OneWorkerCount(pcs[..n], id, w);
      } else {
        SumZero(pcs[..n], BusyWith(id));
      }
    }
  }

  /** Every job ever created is in exactly one place, removals happen in the order of appends, and a job
      makes at most one attempt more than its retry budget, exactly that many iff it failed or
      succeeded on its last allowed try. */
  lemma JobsConserved(workers: nat, acts: seq<Action>, id: nat)
    requires IsRun(Init(workers), acts) && id < |After(Init(workers), acts).jobs|
    ensures var t := After(Init(workers), acts); var j := t.jobs[id];
            && PlaceCount(t, id) == 1
            && t.enqueued == t.dequeued + t.queue
            && j.attempts <= Budget(j) + 1
            && (j.attempts == Budget(j) + 1 <==> j.stage.Dead? || (j.stage.Succeeded? && j.retryCount == Budget(j)))
  {
    var t := After(Init(workers), acts);
    var j := t.jobs[id];
    InitInv(workers);
    RunKeepsInv(Init(workers), acts);
    DistinctCount(t.queue, id);
    OneWorkerCount(t.pcs, id, if Held(j) then j.stage.worker else |t.pcs|);
    AttemptsBounded(j);
  }

  /** The persisted row of every job in every run, whatever statements and commits fail. A terminal row is the whole
      record, as the worker left it. */
  lemma RowsAlwaysConsistent(workers: nat, acts: seq<Action>, id: nat)
    requires IsRun(Init(workers), acts) && id < |After(Init(workers), acts).jobs|
    ensures var j := After(Init(workers), acts).jobs[id];
            j.db.Some? ==>
              && RowOk(j.db.value) && (Live(j) ==> Active(j.db.value.status))
              && (!Active(j.db.value.status) ==> j.db.value == j.mem)
              && (j.db.value.status == j.mem.status && j.db.value.retryCount == j.mem.retryCount ==>
                    j.db.value == j.mem)
  {
    InitInv(workers);
    RunKeepsInv(Init(workers), acts);
  }

  /** The new jobs a run asks for, in order. */
  function Orders(acts: seq<Action>): seq<Action> {
    if acts == [] then [] else (if acts[0].Create? then [acts[0]] else []) + Orders(acts[1..])
  }

  /** The job is for the object, of the size and with the retry limit it was ordered with; so is its committed row, and
      its attempts keep to that limit. */
  predicate AsOrdered(j: Job, order: Action) {
    && order.Create?
    && j.mem.app == order.app && j.mem.key == order.key && j.mem.size == order.size
    && j.mem.maxRetries == order.maxRetries && j.maxRetries == order.maxRetries
    && j.attempts <= Max(0, order.maxRetries) + 1
    && (j.stage.Dead? ==> j.attempts == Max(0, order.maxRetries) + 1)
    && (j.db.Some? ==>
          var row := j.db.value;
          && row.app == order.app && row.key == order.key && row.size == order.size
          && row.maxRetries == order.maxRetries
          && row.bytes == (if row.status.Success? then order.size else 0))
  }

  lemma OrderLasts(order: Action, j: Job, k: Job)
    requires AsOrdered(j, order) && Evolves(j, k) && JobInv(k)
    ensures AsOrdered(k, order)
  {
    AttemptsBounded(k);
  }

  /** From position `n` on the jobs are those ordered. */
  ghost predicate Fulfils(jobs: seq<Job>, n: nat, orders: seq<Action>) {
    |jobs| == n + |orders| && forall k :: 0 <= k < |orders| ==> AsOrdered(jobs[n + k], orders[k])
  }

  lemma FulfilsCons(jobs: seq<Job>, n: nat, order: Action, orders: seq<Action>)
    requires Fulfils(jobs, n + 1, orders) && AsOrdered(jobs[n], order)
    ensures Fulfils(jobs, n, [order] + orders)
  {
    forall k | 0 <= k < 1 + |orders|
      ensures AsOrdered(jobs[n + k], ([order] + orders)[k])
    {
      if k > 0 {
        assert AsOrdered(jobs[n + 1 + (k - 1)], orders[k - 1]);
      }
    }
  }

  /** A job just created is as ordered, and stays so over every run. */
  lemma CreatedAsOrdered(s: State, a: Action, rest: seq<Action>)
    requires Inv(s) && a.Create? && IsRun(Next(s, a), rest)
    ensures var t := After(Next(s, a), rest); |s.jobs| < |t.jobs| && AsOrdered(t.jobs[|s.jobs|], a)
  {
    NextKeepsInv(s, a);
    RunKeepsInv(Next(s, a), rest);
    OrderLasts(a, Next(s, a).jobs[|s.jobs|], After(Next(s, a), rest).jobs[|s.jobs|]);
  }

  lemma OrdersCons(s: State, a: Action, rest: seq<Action>)
    requires Inv(s) && Enabled(s, a) && IsRun(Next(s, a), rest)
    requires Fulfils(After(Next(s, a), rest).jobs, |Next(s, a).jobs|, Orders(rest))
    ensures Fulfils(After(Next(s, a), rest).jobs, |s.jobs|, (if a.Create? then [a] else []) + Orders(rest))
  {
    KeepsJobs(s, a);
    if a.Create? {
      CreatedAsOrdered(s, a, rest);
      FulfilsCons(After(Next(s, a), rest).jobs, |s.jobs|, a, Orders(rest));
    } else {
      assert [] + Orders(rest) == Orders(rest);
    }
  }

  lemma {:induction false} OrdersFrom(s: State, acts: seq<Action>)
    requires Inv(s) && IsRun(s, acts)
    ensures Fulfils(After(s, acts).jobs, |s.jobs|, Orders(acts))
    decreases |acts|
  {
    if acts != [] {
      var a, rest := acts[0], acts[1..];
      NextKeepsInv(s, a);
      OrdersFrom(Next(s, a), rest);
      OrdersCons(s, a, rest);
    }
  }

  /** Every run makes exactly the jobs that were ordered, and in every later state each is as its order said. */
  lemma JobsAreAsOrdered(workers: nat, acts: seq<Action>)
    requires IsRun(Init(workers), acts)
    ensures var jobs := After(Init(workers), acts).jobs;
            |jobs| == |Orders(acts)| && forall id :: 0 <= id < |jobs| ==> AsOrdered(jobs[id], Orders(acts)[id])
  {
    InitInv(workers);
    OrdersFrom(Init(workers), acts);
  }

  // ---- what a committed statement persists ----

  predicate NoCommitOf(id: nat, acts: seq<Action>) { forall a :: a in acts ==> !(a.CommitJob? && a.id == id) }

  lemma JobWaits(j: Job, act: JobAction)
    requires CanStep(j, act) && !act.Commit?
    ensures Step(j, act).db == j.db && (j.pending.Some? ==> Step(j, act).pending == j.pending)
  {
  }

  /** Without a commit of its own, a job's row stays, and so does its statement in the open transaction. */
  lemma StatementWaits(s: State, a: Action, id: nat)
    requires PlaceInv(s) && Enabled(s, a) && id < |s.jobs| && !(a.CommitJob? && a.id == id)
    ensures id < |Next(s, a).jobs| && Next(s, a).jobs[id].db == s.jobs[id].db
    ensures s.jobs[id].pending.Some? ==> Next(s, a).jobs[id].pending == s.jobs[id].pending
  {
    if !a.Create? && Next(s, a).jobs != s.jobs {
      var i, act := OneJobSteps(s, a);
      if i == id {
        JobWaits(s.jobs[i], act);
      }
    }
  }

  lemma {:induction false} StatementWaitsOn(s: State, acts: seq<Action>, id: nat)
    requires Inv(s) && IsRun(s, acts) && id < |s.jobs| && NoCommitOf(id, acts)
    ensures var t := After(s, acts);
            && id < |t.jobs| && t.jobs[id].db == s.jobs[id].db
            && (s.jobs[id].pending.Some? ==> t.jobs[id].pending == s.jobs[id].pending)
    decreases |acts|
  {
    if acts != [] {
      assert acts[0] in acts && forall a :: a in acts[1..] ==> a in acts;
      NextKeepsInv(s, acts[0]);
      StatementWaits(s, acts[0], id);
      StatementWaitsOn(Next(s, acts[0]), acts[1..], id);
    }
  }

  /** The row a webhook inserts: whatever runs until its commit, that is what the commit stores. */
  lemma InsertIsPersisted(s: State, order: Action, rest: seq<Action>)
    requires Inv(s) && order.Create? && IsRun(Next(s, order), rest) && NoCommitOf(|s.jobs|, rest)
    ensures var id := |s.jobs|; var t := After(Next(s, order), rest);
            && id < |t.jobs| && t.jobs[id].db.None? && Enabled(t, CommitJob(id, true))
            && var row := Next(t, CommitJob(id, true)).jobs[id].db;
            && row.Some? && row.value.status.Pending? && row.value.retryCount == 0
            && row.value.app == order.app && row.value.key == order.key
            && row.value.size == order.size && row.value.maxRetries == order.maxRetries
  {
    NextKeepsInv(s, order);
    StatementWaitsOn(Next(s, order), rest, |s.jobs|);
  }

  /** What the step of a worker puts in the row. */
  predicate Says(row: Row, act: JobAction, retryCount: nat) {
    match act
    case Begin(at, _) => row.status.InProgress? && row.started == Some(at) && row.retryCount == retryCount
    case Succeed(at, durationMs, _) =>
      row.status.Success? && row.completed == Some(at) && row.durationMs == durationMs && row.retryCount == retryCount
    case Retry(e, next, _) =>
      row.status.Retrying? && row.error == e.Text() && row.nextRetry == Some(next) && row.retryCount == retryCount + 1
    case GiveUp(e, at, _) =>
      row.status.Failed? && row.error == e.Text() && row.completed == Some(at) && row.retryCount == retryCount
    case _ => true
  }

  lemma StepStatement(j: Job, act: JobAction)
    requires JobInv(j) && CanStep(j, act) && Writes(j, act) && j.db.Some?
    ensures var k := Step(j, act);
            k.db == j.db && Says(k.mem, act, j.retryCount) && k.pending == if act.ok then Some(k.mem) else None
  {
  }

  /** What becomes of a statement that a job is left with: a commit stores it, a lost one nothing. */
  lemma CommitStores(t: State, id: nat, mem: Row)
    requires id < |t.jobs| && t.jobs[id].pending == Some(mem)
    ensures Enabled(t, CommitJob(id, true)) && Next(t, CommitJob(id, true)).jobs[id].db == Some(mem)
    ensures Enabled(t, CommitJob(id, false)) && Next(t, CommitJob(id, false)).jobs[id].db == t.jobs[id].db
  {
  }

  lemma WorkStatement(s: State, w: nat, act: JobAction, id: nat)
    requires Inv(s) && Enabled(s, Work(w, act)) && s.pcs[w].job == id
    requires Writes(s.jobs[id], act) && s.jobs[id].db.Some?
    ensures var k := Next(s, Work(w, act)).jobs[id];
            && k.db == s.jobs[id].db && Says(k.mem, act, s.jobs[id].retryCount)
            && k.pending == if act.ok then Some(k.mem) else None
  {
    StepStatement(s.jobs[id], act);
  }

  /** Every statement of a worker on a job with a row: whatever runs until its commit, the row stays as it was; a commit
      then stores the record as the worker left it at that step, and a lost one nothing. A failed statement stores
      nothing. */
  lemma StatementIsPersisted(s: State, w: nat, act: JobAction, rest: seq<Action>, id: nat)
    requires Inv(s) && Enabled(s, Work(w, act)) && s.pcs[w].job == id
    requires Writes(s.jobs[id], act) && s.jobs[id].db.Some?
    requires IsRun(Next(s, Work(w, act)), rest) && NoCommitOf(id, rest)
    ensures var t := After(Next(s, Work(w, act)), rest); var mem := Next(s, Work(w, act)).jobs[id].mem;
            && id < |t.jobs| && t.jobs[id].db == s.jobs[id].db && Says(mem, act, s.jobs[id].retryCount)
            && (act.ok ==> && Enabled(t, CommitJob(id, true)) && Enabled(t, CommitJob(id, false))
                           && Next(t, CommitJob(id, true)).jobs[id].db == Some(mem)
                           && Next(t, CommitJob(id, false)).jobs[id].db == s.jobs[id].db)
  {
    var u := Next(s, Work(w, act));
    WorkStatement(s, w, act, id);
    NextKeepsInv(s, Work(w, act));
    StatementWaitsOn(u, rest, id);
    if act.ok {
      CommitStores(After(u, rest), id, u.jobs[id].mem);
    }
  }

  // ---- termination ----

  function PcCost(p: Pc): nat {
    match p
    case WantLock => 4
    case Testing => 3
    case Parking => 2
    case Past => 2
    case _ => 0
  }

  function StageCost(stage: Stage): nat {
    match stage
    case Created => 14
    case Queued => 8
    case Taken(_) => 8
    case Started(_) => 6
    case Waiting => 14
    case _ => 0
  }

  /** Retries left dominate; an uncommitted statement is one more step to come. */
  function JobCost(j: Job): nat {
    14 * Max(0, j.maxRetries - j.retryCount) + StageCost(j.stage) + Indicator(j.pending.Some?)
  }

  /** Each owed broadcast may wake every worker. */
  function BroadcastCost(workers: nat, n: nat): nat {
    if n == 0 then 0 else 4 * workers + 1 + BroadcastCost(workers, n - 1)
  }

  function Measure(s: State): nat {
    Sum(s.pcs, PcCost) + Sum(s.jobs, JobCost) + 5 * s.signals + BroadcastCost(|s.pcs|, s.broadcasts)
  }

  /** The cost a job's own step releases. */
  lemma StepCost(j: Job, a: JobAction)
    requires CanStep(j, a)
    ensures (a.Enqueue? || a.Fire?) ==> JobCost(Step(j, a)) + 6 <= JobCost(j)
    ensures a.Take? ==> JobCost(Step(j, a)) <= JobCost(j)
    ensures (a.Begin? || a.Commit?) ==> JobCost(Step(j, a)) + 1 <= JobCost(j)
    ensures (a.Succeed? || a.Retry? || a.GiveUp?) ==> JobCost(Step(j, a)) + 5 <= JobCost(j)
  {
  }

  lemma JobSumAfter(jobs: seq<Job>, id: nat, a: JobAction)
    requires id < |jobs| && CanStep(jobs[id], a)
    ensures Sum(jobs[id := Step(jobs[id], a)], JobCost) + JobCost(jobs[id])
         == Sum(jobs, JobCost) + JobCost(Step(jobs[id], a))
  {
    SumUpdate(jobs, id, Step(jobs[id], a), JobCost);
  }

  lemma {:induction false} WakeAllCost(pcs: seq<Pc>)
    ensures Sum(WakeAll(pcs), PcCost) <= Sum(pcs, PcCost) + 4 * |pcs|
  {
    if pcs != [] {
      var n := |pcs| - 1;
      assert WakeAll(pcs)[..n] == WakeAll(pcs[..n]);
      WakeAllCost(pcs[..n]);
    }
  }

  lemma WorkDescends(s: State, w: nat, act: JobAction)
    requires Enabled(s, Work(w, act))
    ensures Measure(Next(s, Work(w, act))) < Measure(s)
  {
    var id := s.pcs[w].job;
    StepCost(s.jobs[id], act);
    JobSumAfter(s.jobs, id, act);
    SumUpdate(s.pcs, w, WantLock, PcCost);
  }

  lemma TakeDescends(s: State, w: nat)
    requires Enabled(s, TakeJob(w))
    ensures Measure(Next(s, TakeJob(w))) < Measure(s)
  {
    var id := s.queue[0];
    StepCost(s.jobs[id], Take(w));
    JobSumAfter(s.jobs, id, Take(w));
    SumUpdate(s.pcs, w, Busy(id), PcCost);
  }

  lemma PushDescends(s: State, id: nat, act: JobAction)
    requires id < |s.jobs| && CanStep(s.jobs[id], act) && (act.Enqueue? || act.Fire?)
    ensures Measure(Pushed(s, id, act)) < Measure(s)
  {
    StepCost(s.jobs[id], act);
    JobSumAfter(s.jobs, id, act);
  }

  lemma CommitDescends(s: State, id: nat, ok: bool)
    requires Enabled(s, CommitJob(id, ok))
    ensures Measure(Next(s, CommitJob(id, ok))) < Measure(s)
  {
    StepCost(s.jobs[id], Commit(ok));
    JobSumAfter(s.jobs, id, Commit(ok));
  }

  lemma QuietDescends(s: State, a: Action)
    requires Enabled(s, a) && MovesNoJob(a) && !a.Close?
    ensures Measure(Next(s, a)) < Measure(s)
  {
    var pcs := Next(s, a).pcs;
    match a
    case Broadcast => WakeAllCost(s.pcs);
    case Lock(w) => SumUpdate(s.pcs, w, pcs[w], PcCost);
    case Test(w) => SumUpdate(s.pcs, w, pcs[w], PcCost);
    case Park(w) => SumUpdate(s.pcs, w, pcs[w], PcCost);
    case Leave(w) => SumUpdate(s.pcs, w, pcs[w], PcCost);
    case Wake(w) => SumUpdate(s.pcs, w, pcs[w], PcCost);
    case _ =>
  }

  /** Every step but the environment's (a new job, a Stop) lowers the measure. */
  lemma Descends(s: State, a: Action)
    requires Enabled(s, a) && !External(a)
    ensures Measure(Next(s, a)) < Measure(s)
  {
    match a
    case TakeJob(w) => TakeDescends(s, w);
    case Work(w, act) => WorkDescends(s, w, act);
    case Append(id) => PushDescends(s, id, Enqueue);
    case FireTimer(id) => PushDescends(s, id, Fire);
    case CommitJob(id, ok) => CommitDescends(s, id, ok);
    case _ => QuietDescends(s, a);
  }

  predicate Internal(acts: seq<Action>) {
    forall i :: 0 <= i < |acts| ==> !External(acts[i])
  }

  /** No internal run is longer than the measure: the engine cannot run forever on finitely many jobs. */
  lemma {:induction false} RunsAreBounded(s: State, acts: seq<Action>)
    requires IsRun(s, acts) && Internal(acts)
    ensures |acts| + Measure(After(s, acts)) <= Measure(s)
    decreases |acts|
  {
    if acts != [] {
      Descends(s, acts[0]);
      assert Internal(acts[1..]);
      RunsAreBounded(Next(s, acts[0]), acts[1..]);
    }
  }

  /** Nothing but the environment can move. */
  ghost predicate Stuck(s: State) {
    forall a :: Enabled(s, a) ==> External(a)
  }

  /** Nothing but the environment, a handler's enqueue or a retry timer can move: Stop waits for no more than this. */
  ghost predicate WorkersStuck(s: State) {
    forall a :: Enabled(s, a) ==> External(a) || a.Append? || a.FireTimer?
  }

  ghost predicate AllExited(s: State) {
    forall w :: 0 <= w < |s.pcs| ==> s.pcs[w].Exited?
  }

  lemma StuckJobs(s: State)
    requires Inv(s) && WorkersStuck(s)
    ensures forall id :: 0 <= id < |s.jobs| ==> s.jobs[id].pending.None? && !Held(s.jobs[id])
  {
    forall id | 0 <= id < |s.jobs|
      ensures s.jobs[id].pending.None? && !Held(s.jobs[id])
    {
      var j := s.jobs[id];
      assert !Enabled(s, CommitJob(id, true));
      var w := if Held(j) then j.stage.worker else 0;
      assert !Enabled(s, Work(w, Begin(0, true)));
      assert !Enabled(s, Work(w, Succeed(0, 0, true)));
    }
  }

  lemma StuckSignals(s: State)
    requires WorkersStuck(s)
    ensures s.signals == 0 && s.broadcasts == 0
  {
    assert !Enabled(s, Broadcast);
    assert !Enabled(s, SignalLost);
    if Asleep in s.pcs {
      var w :| 0 <= w < |s.pcs| && s.pcs[w] == Asleep;
      assert !Enabled(s, Wake(w));
    }
  }

  lemma StuckWorker(s: State, w: nat)
    requires Inv(s) && WorkersStuck(s) && w < |s.pcs|
    ensures !Holds(s.pcs[w]) && !s.pcs[w].Busy?
  {
    StuckJobs(s);
    assert MutexInv(s) && PlaceInv(s);
    assert !Enabled(s, Test(w));
    assert !Enabled(s, Park(w));
    assert !Enabled(s, Leave(w));
    assert !Enabled(s, TakeJob(w));
  }

  lemma StuckWorkers(s: State)
    requires Inv(s) && WorkersStuck(s)
    ensures s.signals == 0 && s.broadcasts == 0 && s.holder.None?
    ensures forall w :: 0 <= w < |s.pcs| ==> s.pcs[w].Asleep? || s.pcs[w].Exited?
  {
    StuckSignals(s);
    forall w | 0 <= w < |s.pcs|
      ensures !Holds(s.pcs[w]) && !s.pcs[w].Busy?
    {
      StuckWorker(s, w);
    }
    assert MutexInv(s);
    forall w | 0 <= w < |s.pcs|
      ensures !s.pcs[w].WantLock?
    {
      assert !Enabled(s, Lock(w));
    }
  }

  /** When the engine cannot move: if it was never stopped, the queue is empty and every job ended with its
      last statement resolved; if it was stopped, every worker has exited (so Stop returns) and the jobs
      not ended are exactly those in the queue. */
  lemma StuckMeansDrained(s: State)
    requires Inv(s) && Stuck(s) && |s.pcs| > 0
    ensures !s.closed ==> s.queue == [] && forall id :: 0 <= id < |s.jobs| ==> !Live(s.jobs[id])
    ensures s.closed ==> AllExited(s)
    ensures forall id :: 0 <= id < |s.jobs| ==> s.jobs[id].pending.None? && (Live(s.jobs[id]) <==> id in s.queue)
  {
    StuckJobs(s);
    StuckWorkers(s);
    forall id | 0 <= id < |s.jobs|
      ensures !s.jobs[id].stage.Created? && !s.jobs[id].stage.Waiting?
    {
      assert !Enabled(s, Append(id));
      assert !Enabled(s, FireTimer(id));
    }
    if !s.closed {
      assert s.pcs[0].Asleep?;
      SumZero(s.pcs, AwakeWeight);
    }
  }

  /** Drain: after any history without a Stop, the engine left alone takes at most `Measure` more steps, and
      when it can take no more, every job ever created has succeeded or failed. */
  lemma Drain(workers: nat, acts: seq<Action>, rest: seq<Action>)
    requires workers > 0
    requires IsRun(Init(workers), acts) && Close !in acts
    requires IsRun(After(Init(workers), acts), rest) && Internal(rest)
    ensures var s := After(Init(workers), acts); var t := After(s, rest);
            && |rest| <= Measure(s)
            && (Stuck(t) ==> t.queue == [] && forall id :: 0 <= id < |t.jobs| ==> !Live(t.jobs[id]))
  {
    var s := After(Init(workers), acts);
    InitInv(workers);
    RunKeepsInv(Init(workers), acts);
    RunKeepsWorkers(Init(workers), acts);
    OnlyCloseCloses(Init(workers), acts);
    RunsAreBounded(s, rest);
    RunKeepsInv(s, rest);
    RunKeepsWorkers(s, rest);
    OnlyCloseCloses(s, rest);
    if Stuck(After(s, rest)) {
      StuckMeansDrained(After(s, rest));
    }
  }

  lemma {:induction false} OnlyCloseCloses(s: State, acts: seq<Action>)
    requires IsRun(s, acts)
    ensures After(s, acts).closed <==> s.closed || Close in acts
    decreases |acts|
  {
    if acts != [] {
      OnlyCloseCloses(Next(s, acts[0]), acts[1..]);
    }
  }

  // ---- shutdown ----

  /** Once the manager is closed it stays closed and no worker falls asleep again. */
  lemma NobodySleepsAfterClose(s: State, a: Action)
    requires Inv(s) && s.closed && Enabled(s, a)
    ensures Next(s, a).closed
    ensures forall w :: At(Next(s, a), w, Asleep) ==> At(s, w, Asleep)
  {
  }

  /** At the step where the last worker exits, the queue is empty, and every job not ended is held by a
      handler that has not enqueued it yet or waits in a retry timer. */
  lemma LastExit(s: State, a: Action)
    requires Inv(s) && Enabled(s, a) && !AllExited(s) && AllExited(Next(s, a))
    ensures a.Leave? && s.closed && Next(s, a).queue == []
    ensures forall id :: 0 <= id < |s.jobs| && Live(s.jobs[id]) ==>
              s.jobs[id].stage.Created? || s.jobs[id].stage.Waiting?
  {
    var t := Next(s, a);
    var w :| 0 <= w < |s.pcs| && !s.pcs[w].Exited?;
    assert t.pcs[w].Exited?;
    assert a == Leave(w);
    forall v | 0 <= v < |s.pcs|
      ensures !s.pcs[v].Busy?
    {
      assert t.pcs[v].Exited?;
    }
  }

  /** After the last exit, whatever still happens: nothing is dequeued or attempted, no job changes between
      live and ended, and a live job's committed row stays active. Timers still fire into the queue, so a
      job waiting at shutdown is never processed again. */
  lemma {:induction false} NothingRunsAfterExit(s: State, acts: seq<Action>)
    requires Inv(s) && AllExited(s) && IsRun(s, acts)
    ensures var t := After(s, acts);
            && AllExited(t) && t.dequeued == s.dequeued && |s.jobs| <= |t.jobs|
            && (forall id :: 0 <= id < |s.jobs| ==> Stranded(s.jobs[id], t.jobs[id]))
    decreases |acts|
  {
    if acts != [] {
      NextKeepsInv(s, acts[0]);
      ExitedStep(s, acts[0]);
      NothingRunsAfterExit(Next(s, acts[0]), acts[1..]);
    }
  }

  predicate Stranded(j: Job, k: Job) {
    && k.attempts == j.attempts
    && (Live(k) <==> Live(j))
    && (Live(k) && k.db.Some? ==> Active(k.db.value.status))
  }

  lemma StrandedStep(j: Job, act: JobAction)
    requires JobInv(j) && CanStep(j, act) && (act.Enqueue? || act.Fire? || act.Commit?)
    ensures Stranded(j, Step(j, act))
  {
  }

  /** With every worker gone only handlers, timers, signals and the batch writer move. */
  lemma ExitedAction(s: State, a: Action)
    requires AllExited(s) && Enabled(s, a)
    ensures a.Create? || a.Append? || a.FireTimer? || a.CommitJob? || a.SignalLost? || a.Close? || a.Broadcast?
    ensures AllExited(Next(s, a)) && Next(s, a).dequeued == s.dequeued
  {
  }

  lemma ExitedStep(s: State, a: Action)
    requires Inv(s) && AllExited(s) && Enabled(s, a)
    ensures var t := Next(s, a);
            && AllExited(t) && t.dequeued == s.dequeued && |s.jobs| <= |t.jobs|
            && (forall id :: 0 <= id < |s.jobs| ==> Stranded(s.jobs[id], t.jobs[id]))
  {
    ExitedAction(s, a);
    match a
    case Append(id) => StrandedStep(s.jobs[id], Enqueue);
    case FireTimer(id) => StrandedStep(s.jobs[id], Fire);
    case CommitJob(id, ok) => StrandedStep(s.jobs[id], Commit(ok));
    case _ =>
  }

  /** The account of a shutdown: whatever happened before the last worker exits and whatever happens after, at that
      step the queue is empty, and each job not ended then was waiting in a timer or not enqueued yet, is never
      attempted again, never ends, and keeps an active row. */
  lemma ShutdownAccount(workers: nat, acts: seq<Action>, exit: Action, rest: seq<Action>, id: nat)
    requires IsRun(Init(workers), acts) && Enabled(After(Init(workers), acts), exit)
    requires !AllExited(After(Init(workers), acts)) && AllExited(Next(After(Init(workers), acts), exit))
    requires IsRun(Next(After(Init(workers), acts), exit), rest)
    ensures var s := After(Init(workers), acts); var t := Next(s, exit); var u := After(t, rest);
            && s.closed && t.queue == [] && u.dequeued == s.dequeued
            && (id < |s.jobs| && Live(s.jobs[id]) ==>
                  && (s.jobs[id].stage.Created? || s.jobs[id].stage.Waiting?)
                  && id < |u.jobs| && Live(u.jobs[id]) && u.jobs[id].attempts == s.jobs[id].attempts
                  && (u.jobs[id].db.Some? ==> Active(u.jobs[id].db.value.status)))
  {
    var s := After(Init(workers), acts);
    InitInv(workers);
    RunKeepsInv(Init(workers), acts);
    LastExit(s, exit);
    NextKeepsInv(s, exit);
    NothingRunsAfterExit(Next(s, exit), rest);
  }

  /** Workers that cannot move after a Stop have exited, timers or not. */
  lemma StoppedWorkersExit(s: State)
    requires Inv(s) && s.closed && WorkersStuck(s)
    ensures AllExited(s)
  {
    StuckWorkers(s);
    assert CloseInv(s);
  }

  /** Stop returns: after a Stop the engine left alone takes at most `Measure` steps, and in any state where the workers
      cannot move, whether retry timers and handlers still can or not, every worker has exited. When those have
      finished too, the jobs not ended are exactly the ones enqueued too late, all still in the queue. */
  lemma StopReturns(workers: nat, acts: seq<Action>, rest: seq<Action>)
    requires workers > 0
    requires IsRun(Init(workers), acts) && Close in acts
    requires IsRun(After(Init(workers), acts), rest) && Internal(rest)
    ensures var s := After(Init(workers), acts); var t := After(s, rest);
            && |rest| <= Measure(s)
            && (WorkersStuck(t) ==> AllExited(t))
            && (Stuck(t) ==> forall id :: 0 <= id < |t.jobs| ==> (Live(t.jobs[id]) <==> id in t.queue))
  {
    var s := After(Init(workers), acts);
    var t := After(s, rest);
    InitInv(workers);
    RunKeepsInv(Init(workers), acts);
    RunKeepsWorkers(Init(workers), acts);
    OnlyCloseCloses(Init(workers), acts);
    RunsAreBounded(s, rest);
    RunKeepsInv(s, rest);
    RunKeepsWorkers(s, rest);
    OnlyCloseCloses(s, rest);
    if WorkersStuck(t) {
      StoppedWorkersExit(t);
    }
    if Stuck(t) {
      StuckMeansDrained(t);
    }
  }
}
