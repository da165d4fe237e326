/** The transfer manager as a labelled step system: N workers share a mutex/condvar queue, handlers
    and retry timers enqueue (append under the lock, signal after unlocking), and Stop closes it.
    An action carries every choice the program does not make itself, so `Next` is a function. */
module Engine {
  import opened Common
  import opened Lifecycle

  /** A worker's program counter in `Start`'s loop. Testing, Parking and Past hold the mutex. */
  datatype Pc =
    | WantLock        // before m.mu.Lock(), or re-locking inside cond.Wait()
    | Testing         // about to evaluate the loop condition
    | Parking         // found the queue empty and open, about to join the wait list and unlock
    | Past            // past the wait loop
    | Asleep          // on the condition variable's wait list
    | Busy(job: nat)  // in process()
    | Exited

  datatype State = State(
    queue: seq<nat>,
    closed: bool,
    holder: Option<nat>,
    pcs: seq<Pc>,
    signals: nat,       // appends whose Signal has not been sent yet
    broadcasts: nat,    // closes whose Broadcast has not been sent yet
    jobs: seq<Job>,     // every job ever created, by id
    enqueued: seq<nat>, // history of appends
    dequeued: seq<nat>) // history of removals

  datatype Action =
    | Lock(w: nat)
    | Test(w: nat)
    | Park(w: nat)
    | Leave(w: nat)
    | TakeJob(w: nat)
    | Work(w: nat, act: JobAction)      // a step of process() on the worker's job
    | Create(app: string, key: string, size: int, maxRetries: int)
    | Append(id: nat)                   // a handler's Enqueue, up to the unlock
    | FireTimer(id: nat)                // a retry timer's Enqueue, up to the unlock
    | Wake(w: nat)                      // a Signal that finds a sleeper
    | SignalLost                        // a Signal that finds none
    | Close
    | Broadcast
    | CommitJob(id: nat, ok: bool)

  /** Choices of the environment; every other action is the engine's own progress. */
  predicate External(a: Action) { a.Create? || a.Close? }

  predicate Holds(p: Pc) { p.Testing? || p.Parking? || p.Past? }

  function Init(workers: nat): State {
    State([], false, None, seq(workers, _ => WantLock), 0, 0, [], [], [])
  }

  predicate At(s: State, w: nat, p: Pc) { w < |s.pcs| && s.pcs[w] == p }

  predicate IsWork(a: JobAction) { a.Begin? || a.Succeed? || a.Retry? || a.GiveUp? }

  predicate Enabled(s: State, a: Action) {
    match a
    case Lock(w) => At(s, w, WantLock) && s.holder.None?
    case Test(w) => At(s, w, Testing)
    case Park(w) => At(s, w, Parking)
    case Leave(w) => At(s, w, Past) && s.closed && s.queue == []
    case TakeJob(w) => At(s, w, Past) && s.queue != [] && s.queue[0] < |s.jobs| && s.jobs[s.queue[0]].stage.Queued?
    case Work(w, act) =>
      w < |s.pcs| && s.pcs[w].Busy? && s.pcs[w].job < |s.jobs| && IsWork(act) && CanStep(s.jobs[s.pcs[w].job], act)
    case Create(_, _, _, _) => true
    case Append(id) => s.holder.None? && id < |s.jobs| && CanStep(s.jobs[id], Enqueue)
    case FireTimer(id) => s.holder.None? && id < |s.jobs| && CanStep(s.jobs[id], Fire)
    case Wake(w) => s.signals > 0 && At(s, w, Asleep)
    case SignalLost => s.signals > 0 && Asleep !in s.pcs
    case Close => s.holder.None?
    case Broadcast => s.broadcasts > 0
    case CommitJob(id, ok) => id < |s.jobs| && CanStep(s.jobs[id], Commit(ok))
  }

  function WakeAll(pcs: seq<Pc>): (r: seq<Pc>)
    ensures |r| == |pcs|
  {
    seq(|pcs|, i requires 0 <= i < |pcs| => if pcs[i].Asleep? then WantLock else pcs[i])
  }

  /** `for len(m.queue) == 0 && !m.closed` decides between waiting and going on. */
  function TestResult(queue: seq<nat>, closed: bool): Pc {
    if queue == [] && !closed then Parking else Past
  }

  function Next(s: State, a: Action): State
    requires Enabled(s, a)
  {
    match a
    case Lock(w) => s.(pcs := s.pcs[w := Testing], holder := Some(w))
    case Test(w) => s.(pcs := s.pcs[w := TestResult(s.queue, s.closed)])
    case Park(w) => s.(pcs := s.pcs[w := Asleep], holder := None)
    case Leave(w) => s.(pcs := s.pcs[w := Exited], holder := None)
    case TakeJob(w) =>
      var id := s.queue[0];
      s.(pcs := s.pcs[w := Busy(id)], holder := None, queue := s.queue[1..],
         jobs := s.jobs[id := Step(s.jobs[id], Take(w))], dequeued := s.dequeued + [id])
    case Work(w, act) =>
      var id := s.pcs[w].job;
      s.(jobs := s.jobs[id := Step(s.jobs[id], act)], pcs := if act.Begin? then s.pcs else s.pcs[w := WantLock])
    case Create(app, key, size, maxRetries) => s.(jobs := s.jobs + [NewJob(NewRow(app, key, size, maxRetries))])
    case Append(id) => Pushed(s, id, Enqueue)
    case FireTimer(id) => Pushed(s, id, Fire)
    case Wake(w) => s.(signals := s.signals - 1, pcs := s.pcs[w := WantLock])
    case SignalLost => s.(signals := s.signals - 1)
    case Close => s.(closed := true, broadcasts := s.broadcasts + 1)
    case Broadcast => s.(broadcasts := s.broadcasts - 1, pcs := WakeAll(s.pcs))
    case CommitJob(id, ok) => s.(jobs := s.jobs[id := Step(s.jobs[id], Commit(ok))])
  }

  function Pushed(s: State, id: nat, act: JobAction): State
    requires id < |s.jobs| && CanStep(s.jobs[id], act)
  {
    s.(queue := s.queue + [id], signals := s.signals + 1, enqueued := s.enqueued + [id],
       jobs := s.jobs[id := Step(s.jobs[id], act)])
  }

  predicate IsRun(s: State, acts: seq<Action>)
    decreases |acts|
  {
    acts == [] || (Enabled(s, acts[0]) && IsRun(Next(s, acts[0]), acts[1..]))
  }

  function After(s: State, acts: seq<Action>): State
    requires IsRun(s, acts)
    decreases |acts|
  {
    if acts == [] then s else After(Next(s, acts[0]), acts[1..])
  }

  // ---- the invariant ----

  /** Weight 1 for a worker that will test the queue before it can sleep. */
  function AwakeWeight(p: Pc): nat {
    if p.WantLock? || Holds(p) then 1 else 0
  }

  /** The lock is held exactly by the worker whose counter says so, and what it read stays true. */
  ghost predicate MutexInv(s: State) {
    && (s.holder.Some? ==> s.holder.value < |s.pcs| && Holds(s.pcs[s.holder.value]))
    && (forall w :: 0 <= w < |s.pcs| && Holds(s.pcs[w]) ==> s.holder == Some(w))
    && (forall w :: 0 <= w < |s.pcs| && s.pcs[w].Parking? ==> s.queue == [] && !s.closed)
    && (forall w :: 0 <= w < |s.pcs| && s.pcs[w].Past? ==> s.queue != [] || s.closed)
  }

  /** Work conservation: while somebody sleeps, every queued job is covered by a signal still owed
      or by a worker that will look at the queue before sleeping. */
  ghost predicate WakeupInv(s: State) {
    forall w :: 0 <= w < |s.pcs| && s.pcs[w].Asleep? ==> |s.queue| <= s.signals + Sum(s.pcs, AwakeWeight)
  }

  ghost predicate CloseInv(s: State) {
    && (forall w :: 0 <= w < |s.pcs| && s.pcs[w].Exited? ==> s.closed)
    && (s.broadcasts > 0 ==> s.closed)
    && (s.closed && s.broadcasts == 0 ==> Asleep !in s.pcs)
  }

  /** Queue, workers and job stages tell the same story. */
  ghost predicate Places(queue: seq<nat>, pcs: seq<Pc>, jobs: seq<Job>) {
    && (forall i :: 0 <= i < |queue| ==> queue[i] < |jobs| && jobs[queue[i]].stage.Queued?)
    && (forall i, k :: 0 <= i < k < |queue| ==> queue[i] != queue[k])
    && (forall id :: 0 <= id < |jobs| && jobs[id].stage.Queued? ==> id in queue)
    && (forall w :: 0 <= w < |pcs| && pcs[w].Busy? ==> pcs[w].job < |jobs| && HeldBy(jobs[pcs[w].job], w))
    && (forall id :: 0 <= id < |jobs| && Held(jobs[id]) ==>
          jobs[id].stage.worker < |pcs| && pcs[jobs[id].stage.worker] == Busy(id))
  }

  ghost predicate PlaceInv(s: State) { Places(s.queue, s.pcs, s.jobs) }

  predicate Held(j: Job) { j.stage.Taken? || j.stage.Started? }
  predicate HeldBy(j: Job, w: nat) { Held(j) && j.stage.worker == w }

  ghost predicate JobsInv(s: State) {
    forall id :: 0 <= id < |s.jobs| ==> JobInv(s.jobs[id])
  }

  ghost predicate Inv(s: State) {
    MutexInv(s) && WakeupInv(s) && CloseInv(s) && PlaceInv(s) && JobsInv(s) && s.enqueued == s.dequeued + s.queue
  }

  lemma InitInv(workers: nat)
    ensures Inv(Init(workers))
  {
    assert forall w :: 0 <= w < workers ==> Init(workers).pcs[w] == WantLock;
  }

  lemma KeepsMutex(s: State, a: Action)
    requires MutexInv(s) && CloseInv(s) && Enabled(s, a)
    ensures MutexInv(Next(s, a))
  {
  }

  /** A worker's step that leaves it awake or busy keeps the cover if it pays for what it takes away. */
  lemma WakeupAfter(s: State, t: State, w: nat, p: Pc)
    requires WakeupInv(s) && w < |s.pcs| && t.pcs == s.pcs[w := p] && !p.Asleep?
    requires |t.queue| + s.signals + AwakeWeight(s.pcs[w]) <= |s.queue| + t.signals + AwakeWeight(p)
    ensures WakeupInv(t)
  {
    SumUpdate(s.pcs, w, p, AwakeWeight);
  }

  lemma KeepsWakeup(s: State, a: Action)
    requires MutexInv(s) && WakeupInv(s) && Enabled(s, a)
    ensures WakeupInv(Next(s, a))
  {
    var t := Next(s, a);
    match a
    case Lock(w) => WakeupAfter(s, t, w, Testing);
    case Test(w) => WakeupAfter(s, t, w, TestResult(s.queue, s.closed));
    case TakeJob(w) => WakeupAfter(s, t, w, t.pcs[w]);
    case Work(w, act) => if !act.Begin? { WakeupAfter(s, t, w, WantLock); }
    case Wake(w) => WakeupAfter(s, t, w, WantLock);
    case _ =>
  }

  lemma KeepsClose(s: State, a: Action)
    requires MutexInv(s) && CloseInv(s) && Enabled(s, a)
    ensures CloseInv(Next(s, a))
  {
  }

  lemma PlacesAfterTake(queue: seq<nat>, pcs: seq<Pc>, jobs: seq<Job>, w: nat, j: Job)
    requires Places(queue, pcs, jobs) && queue != [] && w < |pcs| && !pcs[w].Busy?
    requires j.stage == Taken(w)
    ensures Places(queue[1..], pcs[w := Busy(queue[0])], jobs[queue[0] := j])
  {
  }

  lemma PlacesAfterPush(queue: seq<nat>, pcs: seq<Pc>, jobs: seq<Job>, id: nat, j: Job)
    requires Places(queue, pcs, jobs) && id < |jobs| && !jobs[id].stage.Queued? && !Held(jobs[id])
    requires j.stage.Queued?
    ensures Places(queue + [id], pcs, jobs[id := j])
  {
  }

  /** A worker's step in process(): the job moves from `Taken` to `Started`, or leaves the worker. */
  lemma PlacesAfterWork(queue: seq<nat>, pcs: seq<Pc>, jobs: seq<Job>, w: nat, j: Job)
    requires Places(queue, pcs, jobs) && w < |pcs| && pcs[w].Busy? && !j.stage.Queued?
    ensures HeldBy(j, w) ==> Places(queue, pcs, jobs[pcs[w].job := j])
    ensures !Held(j) ==> Places(queue, pcs[w := WantLock], jobs[pcs[w].job := j])
  {
  }

  lemma PlacesSameStage(queue: seq<nat>, pcs: seq<Pc>, jobs: seq<Job>, id: nat, j: Job)
    requires Places(queue, pcs, jobs) && id < |jobs| && j.stage == jobs[id].stage
    ensures Places(queue, pcs, jobs[id := j])
  {
  }

  /** Steps that leave the queue and the jobs alone and neither make nor clear a Busy counter. */
  lemma PlacesSamePcs(queue: seq<nat>, pcs: seq<Pc>, jobs: seq<Job>, pcs': seq<Pc>)
    requires Places(queue, pcs, jobs) && |pcs'| == |pcs|
    requires forall w :: 0 <= w < |pcs| ==> pcs'[w] == pcs[w] || (!pcs'[w].Busy? && !pcs[w].Busy?)
    ensures Places(queue, pcs', jobs)
  {
  }

  lemma TakeKeepsPlaces(s: State, w: nat)
    requires PlaceInv(s) && Enabled(s, TakeJob(w))
    ensures PlaceInv(Next(s, TakeJob(w)))
  {
    PlacesAfterTake(s.queue, s.pcs, s.jobs, w, Next(s, TakeJob(w)).jobs[s.queue[0]]);
  }

  lemma WorkKeepsPlaces(s: State, w: nat, act: JobAction)
    requires PlaceInv(s) && Enabled(s, Work(w, act))
    ensures PlaceInv(Next(s, Work(w, act)))
  {
    PlacesAfterWork(s.queue, s.pcs, s.jobs, w, Next(s, Work(w, act)).jobs[s.pcs[w].job]);
  }

  lemma AppendKeepsPlaces(s: State, id: nat)
    requires PlaceInv(s) && Enabled(s, Append(id))
    ensures PlaceInv(Next(s, Append(id)))
  {
    PlacesAfterPush(s.queue, s.pcs, s.jobs, id, Next(s, Append(id)).jobs[id]);
  }

  lemma FireKeepsPlaces(s: State, id: nat)
    requires PlaceInv(s) && Enabled(s, FireTimer(id))
    ensures PlaceInv(Next(s, FireTimer(id)))
  {
    PlacesAfterPush(s.queue, s.pcs, s.jobs, id, Next(s, FireTimer(id)).jobs[id]);
  }

  lemma CommitKeepsPlaces(s: State, id: nat, ok: bool)
    requires PlaceInv(s) && Enabled(s, CommitJob(id, ok))
    ensures PlaceInv(Next(s, CommitJob(id, ok)))
  {
    PlacesSameStage(s.queue, s.pcs, s.jobs, id, Next(s, CommitJob(id, ok)).jobs[id]);
  }

  /** The actions that move no job. */
  predicate MovesNoJob(a: Action) {
    a.Lock? || a.Test? || a.Park? || a.Leave? || a.Wake? || a.SignalLost? || a.Close? || a.Broadcast?
  }

  lemma QuietKeepsPlaces(s: State, a: Action)
    requires PlaceInv(s) && Enabled(s, a) && MovesNoJob(a)
    ensures PlaceInv(Next(s, a))
  {
    PlacesSamePcs(s.queue, s.pcs, s.jobs, Next(s, a).pcs);
  }

  lemma KeepsPlaces(s: State, a: Action)
    requires PlaceInv(s) && Enabled(s, a)
    ensures PlaceInv(Next(s, a))
  {
    match a
    case TakeJob(w) => TakeKeepsPlaces(s, w);
    case Work(w, act) => WorkKeepsPlaces(s, w, act);
    case Append(id) => AppendKeepsPlaces(s, id);
    case FireTimer(id) => FireKeepsPlaces(s, id);
    case CommitJob(id, ok) => CommitKeepsPlaces(s, id, ok);
    case Create(_, _, _, _) =>
    case _ => QuietKeepsPlaces(s, a);
  }

  function QueuedWeight(j: Job): nat { if j.stage.Queued? then 1 else 0 }

  function QueuedIds(jobs: seq<Job>): set<nat> { set id: nat | id < |jobs| && jobs[id].stage.Queued? }

  lemma {:induction false} CountQueued(jobs: seq<Job>)
    ensures |QueuedIds(jobs)| == Sum(jobs, QueuedWeight)
  {
    if jobs != [] {
      var n := |jobs| - 1;
      CountQueued(jobs[..n]);
      assert QueuedIds(jobs) == QueuedIds(jobs[..n]) + (if jobs[n].stage.Queued? then {n} else {});
    }
  }

  function Elements(q: seq<nat>): set<nat> { set id | id in q }

  lemma {:induction false} CountDistinct(q: seq<nat>)
    requires forall i, k :: 0 <= i < k < |q| ==> q[i] != q[k]
    ensures |Elements(q)| == |q|
  {
    if q != [] {
      var n := |q| - 1;
      CountDistinct(q[..n]);
      assert Elements(q) == Elements(q[..n]) + {q[n]};
      assert q[n] !in q[..n];
    }
  }

  /** A queue that agrees with the stages is as long as there are queued jobs. */
  lemma QueueCountsJobs(s: State)
    requires PlaceInv(s)
    ensures |s.queue| == Sum(s.jobs, QueuedWeight)
  {
    CountQueued(s.jobs);
    CountDistinct(s.queue);
    assert Elements(s.queue) == QueuedIds(s.jobs);
  }

  /** The effect of an engine step on the job table: at most one job steps, or one is created. */
  lemma OneJobSteps(s: State, a: Action) returns (id: nat, act: JobAction)
    requires PlaceInv(s) && Enabled(s, a) && !a.Create? && Next(s, a).jobs != s.jobs
    ensures id < |s.jobs| && CanStep(s.jobs[id], act) && Next(s, a).jobs == s.jobs[id := Step(s.jobs[id], act)]
    ensures act.Commit? ==> a.CommitJob? && a.id == id
  {
    match a
    case TakeJob(w) => id, act := s.queue[0], Take(w);
    case Work(w, act') => id, act := s.pcs[w].job, act';
    case Append(i) => id, act := i, Enqueue;
    case FireTimer(i) => id, act := i, Fire;
    case CommitJob(i, ok) => id, act := i, Commit(ok);
  }

  lemma JobsAfterStep(jobs: seq<Job>, id: nat, act: JobAction)
    requires forall k :: 0 <= k < |jobs| ==> JobInv(jobs[k])
    requires id < |jobs| && CanStep(jobs[id], act)
    ensures var jobs' := jobs[id := Step(jobs[id], act)];
            forall k :: 0 <= k < |jobs| ==> JobInv(jobs'[k]) && Evolves(jobs[k], jobs'[k])
  {
    StepKeepsJobInv(jobs[id], act);
  }

  lemma KeepsJobs(s: State, a: Action)
    requires PlaceInv(s) && JobsInv(s) && Enabled(s, a)
    ensures JobsInv(Next(s, a))
    ensures |Next(s, a).jobs| == |s.jobs| + (if a.Create? then 1 else 0)
    ensures forall id :: 0 <= id < |s.jobs| ==> Evolves(s.jobs[id], Next(s, a).jobs[id])
  {
    if a.Create? {
      NewJobInv(a.app, a.key, a.size, a.maxRetries);
    } else if Next(s, a).jobs != s.jobs {
      var id, act := OneJobSteps(s, a);
      JobsAfterStep(s.jobs, id, act);
    }
  }

  /** The queue is first in, first out. */
  lemma KeepsHistory(s: State, a: Action)
    requires s.enqueued == s.dequeued + s.queue && Enabled(s, a)
    ensures Next(s, a).enqueued == Next(s, a).dequeued + Next(s, a).queue
  {
  }

  lemma NextKeepsInv(s: State, a: Action)
    requires Inv(s) && Enabled(s, a)
    ensures Inv(Next(s, a))
  {
    KeepsMutex(s, a);
    KeepsWakeup(s, a);
    KeepsClose(s, a);
    KeepsPlaces(s, a);
    KeepsJobs(s, a);
    KeepsHistory(s, a);
  }

  /** Every run keeps the invariant, and no run loses a job, reopens a terminal one or touches its final row. */
  lemma {:induction false} RunKeepsInv(s: State, acts: seq<Action>)
    requires Inv(s) && IsRun(s, acts)
    ensures var t := After(s, acts);
            && Inv(t) && |s.jobs| <= |t.jobs|
            && forall id :: 0 <= id < |s.jobs| ==> Evolves(s.jobs[id], t.jobs[id])
    decreases |acts|
  {
    if acts != [] {
      NextKeepsInv(s, acts[0]);
      KeepsJobs(s, acts[0]);
      RunKeepsInv(Next(s, acts[0]), acts[1..]);
    }
  }
}
