/** Webhook ingest on top of the engine: in-memory dedup, active-row check, insert, enqueue. Several handlers
    run at once; each record is a token that moves through these steps while the engine and the clock move on. */
module Ingest {
  import opened Lifecycle
  import Engine
  import Dedup
  import Keys
  import Common

  /** Passed: the deduper let the record through. Cleared: the active check found nothing. Gone: skipped, failed or
      inserted. */
  datatype Phase = Passed | Cleared | Gone

  datatype Token = Token(app: string, key: string, admitted: int, phase: Phase)

  datatype State = State(
    eng: Engine.State,
    born: seq<int>,           // when the record of each job passed the deduper
    now: int,
    entries: Dedup.Entries,
    tokens: seq<Token>)

  datatype Action =
    | Tick(d: nat)
    | Arrive(app: string, key: string, d: nat)   // IsDuplicate; its two clock readings are d apart
    | SweepDedup
    | Query(tok: nat, failed: bool)              // HasActiveTransfer, whose error the handler ignores
    | Insert(tok: nat, size: int, maxRetries: int)
    | InsertFails(tok: nat)
    | Run(step: Engine.Action)

  /** The deduper's key, `appID:objectKey`. */
  function DedupKey(app: string, key: string): string { app + ":" + key }

  function Init(workers: nat, now: int): State {
    State(Engine.Init(workers), [], now, map[], [])
  }

  predicate IsFor(j: Job, app: string, key: string) { j.mem.app == app && j.mem.key == key }

  predicate HasActiveRow(j: Job, app: string, key: string) {
    j.db.Some? && j.db.value.app == app && j.db.value.key == key && Active(j.db.value.status)
  }

  /** `SELECT EXISTS(...)` over the committed rows. */
  predicate ActiveExists(jobs: seq<Job>, app: string, key: string) {
    exists i :: 0 <= i < |jobs| && HasActiveRow(jobs[i], app, key)
  }

  predicate Enabled(s: State, a: Action) {
    match a
    case Tick(_) => true
    case Arrive(_, _, _) => true
    case SweepDedup => true
    case Query(t, _) => t < |s.tokens| && s.tokens[t].phase.Passed?
    case Insert(t, _, _) => t < |s.tokens| && s.tokens[t].phase.Cleared?
    case InsertFails(t) => t < |s.tokens| && s.tokens[t].phase.Cleared?
    case Run(step) => !step.Create? && Engine.Enabled(s.eng, step)
  }

  function Next(s: State, window: int, a: Action): State
    requires Enabled(s, a)
  {
    match a
    case Tick(d) => s.(now := s.now + d)
    case Arrive(app, key, d) =>
      var k := DedupKey(app, key);
      s.(now := s.now + d,
         entries := Dedup.Mark(s.entries, window, k, s.now, s.now + d),
         tokens := if Dedup.Duplicate(s.entries, window, k, s.now) then s.tokens
                   else s.tokens + [Token(app, key, s.now + d, Passed)])
    case SweepDedup => s.(entries := Dedup.Swept(s.entries, window, s.now))
    case Query(t, failed) =>
      var tok := s.tokens[t];
      var found := !failed && ActiveExists(s.eng.jobs, tok.app, tok.key);
      s.(tokens := s.tokens[t := tok.(phase := if found then Gone else Cleared)])
    case Insert(t, size, maxRetries) =>
      var tok := s.tokens[t];
      s.(tokens := s.tokens[t := tok.(phase := Gone)],
         born := s.born + [tok.admitted],
         eng := Engine.Next(s.eng, Engine.Create(tok.app, tok.key, size, maxRetries)))
    case InsertFails(t) => s.(tokens := s.tokens[t := s.tokens[t].(phase := Gone)])
    case Run(step) => s.(eng := Engine.Next(s.eng, step))
  }

  ghost predicate IsRun(s: State, window: int, acts: seq<Action>)
    decreases |acts|
  {
    acts == [] || (Enabled(s, acts[0]) && IsRun(Next(s, window, acts[0]), window, acts[1..]))
  }

  function After(s: State, window: int, acts: seq<Action>): State
    requires IsRun(s, window, acts)
    decreases |acts|
  {
    if acts == [] then s else After(Next(s, window, acts[0]), window, acts[1..])
  }

  // ---- the invariant ----

  predicate Open(t: Token) { !t.phase.Gone? }

  predicate TokenFor(t: Token, app: string, key: string) { t.app == app && t.key == key }

  /** A live job whose insert is not committed yet. */
  predicate Unseen(j: Job) { Live(j) && j.db.None? }

  ghost predicate AtMostOneLive(jobs: seq<Job>) {
    forall i, k :: 0 <= i < k < |jobs| && Live(jobs[i]) && Live(jobs[k]) ==>
      !IsFor(jobs[k], jobs[i].mem.app, jobs[i].mem.key)
  }

  /** Per app and object key: at most one open record, none beside an unseen job, and no live job beside a cleared
      one. */
  ghost predicate Exclusive(tokens: seq<Token>, jobs: seq<Job>) {
    && (forall t, u :: 0 <= t < u < |tokens| && Open(tokens[t]) && Open(tokens[u]) ==>
          !TokenFor(tokens[u], tokens[t].app, tokens[t].key))
    && (forall t, i :: 0 <= t < |tokens| && 0 <= i < |jobs| && Open(tokens[t]) && Unseen(jobs[i]) ==>
          !IsFor(jobs[i], tokens[t].app, tokens[t].key))
    && (forall t, i :: 0 <= t < |tokens| && 0 <= i < |jobs| && tokens[t].phase.Cleared? && Live(jobs[i]) ==>
          !IsFor(jobs[i], tokens[t].app, tokens[t].key))
  }

  ghost predicate Inv(s: State) {
    |s.born| == |s.eng.jobs| && Engine.Inv(s.eng) && Exclusive(s.tokens, s.eng.jobs) && AtMostOneLive(s.eng.jobs)
  }

  // ---- exactly which steps keep it ----

  /** Some live job is for that object. */
  ghost predicate LiveFor(jobs: seq<Job>, app: string, key: string) {
    exists i :: 0 <= i < |jobs| && Live(jobs[i]) && IsFor(jobs[i], app, key)
  }

  /** Some record of that object is between the deduper and its committed row. */
  ghost predicate InFlight(tokens: seq<Token>, jobs: seq<Job>, app: string, key: string) {
    || (exists t :: 0 <= t < |tokens| && Open(tokens[t]) && TokenFor(tokens[t], app, key))
    || (exists i :: 0 <= i < |jobs| && Unseen(jobs[i]) && IsFor(jobs[i], app, key))
  }

  /** What can go wrong: the deduper forgets a record in flight, or the check fails beside a live job. */
  ghost predicate Safe(s: State, window: int, a: Action) {
    && (a.Arrive? && !Dedup.Duplicate(s.entries, window, DedupKey(a.app, a.key), s.now) ==>
          !InFlight(s.tokens, s.eng.jobs, a.app, a.key))
    && (a.Query? && a.failed && a.tok < |s.tokens| ==>
          !LiveFor(s.eng.jobs, s.tokens[a.tok].app, s.tokens[a.tok].key))
  }

  lemma ArriveExclusiveIff(tokens: seq<Token>, jobs: seq<Job>, tok: Token)
    requires Exclusive(tokens, jobs) && tok.phase.Passed?
    ensures Exclusive(tokens + [tok], jobs) <==> !InFlight(tokens, jobs, tok.app, tok.key)
  {
    var tokens' := tokens + [tok];
    var n := |tokens|;
    assert tokens'[n] == tok;
    if t :| 0 <= t < n && Open(tokens[t]) && TokenFor(tokens[t], tok.app, tok.key) {
      assert tokens'[t] == tokens[t];
    }
  }

  lemma ArriveKeepsIff(s: State, window: int, app: string, key: string, d: nat)
    requires Inv(s)
    ensures Inv(Next(s, window, Arrive(app, key, d))) <==> Safe(s, window, Arrive(app, key, d))
  {
    if !Dedup.Duplicate(s.entries, window, DedupKey(app, key), s.now) {
      ArriveExclusiveIff(s.tokens, s.eng.jobs, Token(app, key, s.now + d, Passed));
    }
  }

  lemma GoneExclusive(tokens: seq<Token>, jobs: seq<Job>, t: nat)
    requires Exclusive(tokens, jobs) && t < |tokens|
    ensures Exclusive(tokens[t := tokens[t].(phase := Gone)], jobs)
  {
  }

  lemma ClearedExclusiveIff(tokens: seq<Token>, jobs: seq<Job>, t: nat)
    requires Exclusive(tokens, jobs) && t < |tokens| && tokens[t].phase.Passed?
    ensures Exclusive(tokens[t := tokens[t].(phase := Cleared)], jobs) <==> !LiveFor(jobs, tokens[t].app, tokens[t].key)
  {
    var tokens' := tokens[t := tokens[t].(phase := Cleared)];
    assert tokens'[t].phase.Cleared?;
  }

  /** Beside a live job of its object, an open record that has passed only the deduper is cleared by the check if and
      only if the check fails: a working one sees the job's committed row, which is active. */
  lemma ClearedBesideLiveIff(s: State, window: int, t: nat, failed: bool)
    requires Inv(s) && Enabled(s, Query(t, failed)) && LiveFor(s.eng.jobs, s.tokens[t].app, s.tokens[t].key)
    ensures Next(s, window, Query(t, failed)).tokens[t].phase.Cleared? <==> failed
  {
    var app, key := s.tokens[t].app, s.tokens[t].key;
    var i :| 0 <= i < |s.eng.jobs| && Live(s.eng.jobs[i]) && IsFor(s.eng.jobs[i], app, key);
    assert JobInv(s.eng.jobs[i]);
    assert HasActiveRow(s.eng.jobs[i], app, key);
  }

  /** The check keeps the invariant if and only if it does not fail beside a live job of the record's object. */
  lemma QueryKeepsIff(s: State, window: int, t: nat, failed: bool)
    requires Inv(s) && Enabled(s, Query(t, failed))
    ensures Inv(Next(s, window, Query(t, failed))) <==>
            !(failed && LiveFor(s.eng.jobs, s.tokens[t].app, s.tokens[t].key))
  {
    if LiveFor(s.eng.jobs, s.tokens[t].app, s.tokens[t].key) {
      ClearedBesideLiveIff(s, window, t, failed);
    }
    GoneExclusive(s.tokens, s.eng.jobs, t);
    ClearedExclusiveIff(s.tokens, s.eng.jobs, t);
  }

  /** The new job takes over the token's place in every exclusion. */
  lemma InsertExclusive(tokens: seq<Token>, jobs: seq<Job>, t: nat, j: Job)
    requires Exclusive(tokens, jobs) && AtMostOneLive(jobs)
    requires t < |tokens| && tokens[t].phase.Cleared? && Unseen(j) && IsFor(j, tokens[t].app, tokens[t].key)
    ensures Exclusive(tokens[t := tokens[t].(phase := Gone)], jobs + [j]) && AtMostOneLive(jobs + [j])
  {
  }

  lemma InsertKeeps(s: State, window: int, t: nat, size: int, maxRetries: int)
    requires Inv(s) && Enabled(s, Insert(t, size, maxRetries))
    ensures Inv(Next(s, window, Insert(t, size, maxRetries)))
  {
    var tok := s.tokens[t];
    Engine.NextKeepsInv(s.eng, Engine.Create(tok.app, tok.key, size, maxRetries));
    InsertExclusive(s.tokens, s.eng.jobs, t, NewJob(NewRow(tok.app, tok.key, size, maxRetries)));
  }

  /** The part of Evolves that matters here. */
  predicate Settles(j: Job, k: Job) {
    k.mem.app == j.mem.app && k.mem.key == j.mem.key && (Live(k) ==> Live(j)) && (Unseen(k) ==> Unseen(j))
  }

  lemma SettledExclusive(tokens: seq<Token>, jobs: seq<Job>, jobs': seq<Job>)
    requires Exclusive(tokens, jobs) && AtMostOneLive(jobs) && |jobs'| == |jobs|
    requires forall i :: 0 <= i < |jobs| ==> Settles(jobs[i], jobs'[i])
    ensures Exclusive(tokens, jobs') && AtMostOneLive(jobs')
  {
  }

  lemma JobsSettle(s: State, step: Engine.Action)
    requires Engine.Inv(s.eng) && Enabled(s, Run(step))
    ensures var jobs' := Engine.Next(s.eng, step).jobs;
            |jobs'| == |s.eng.jobs| && forall i :: 0 <= i < |s.eng.jobs| ==> Settles(s.eng.jobs[i], jobs'[i])
  {
    Engine.KeepsJobs(s.eng, step);
  }

  /** An engine step starts no job of its own and hides no committed row, so it keeps every exclusion. */
  lemma RunKeeps(s: State, window: int, step: Engine.Action)
    requires Inv(s) && Enabled(s, Run(step))
    ensures Inv(Next(s, window, Run(step)))
  {
    Engine.NextKeepsInv(s.eng, step);
    JobsSettle(s, step);
    SettledExclusive(s.tokens, s.eng.jobs, Engine.Next(s.eng, step).jobs);
  }

  /** The exact condition, step by step: a step keeps the invariant if and only if it is safe. */
  lemma NextKeepsInvIff(s: State, window: int, a: Action)
    requires Inv(s) && Enabled(s, a)
    ensures Inv(Next(s, window, a)) <==> Safe(s, window, a)
  {
    match a
    case Tick(_) =>
    case Arrive(app, key, d) => ArriveKeepsIff(s, window, app, key, d);
    case SweepDedup =>
    case Query(t, failed) => QueryKeepsIff(s, window, t, failed);
    case Insert(t, size, maxRetries) => InsertKeeps(s, window, t, size, maxRetries);
    case InsertFails(t) => GoneExclusive(s.tokens, s.eng.jobs, t);
    case Run(step) => RunKeeps(s, window, step);
  }

  ghost predicate AllSafe(s: State, window: int, acts: seq<Action>)
    requires IsRun(s, window, acts)
    decreases |acts|
  {
    acts == [] || (Safe(s, window, acts[0]) && AllSafe(Next(s, window, acts[0]), window, acts[1..]))
  }

  /** The invariant holds in every state of the run. */
  ghost predicate Throughout(s: State, window: int, acts: seq<Action>)
    requires IsRun(s, window, acts)
    decreases |acts|
  {
    Inv(s) && (acts != [] ==> Throughout(Next(s, window, acts[0]), window, acts[1..]))
  }

  /** And over whole runs: it holds throughout if and only if every step is safe. */
  lemma {:induction false} RunKeepsInvIff(s: State, window: int, acts: seq<Action>)
    requires Inv(s) && IsRun(s, window, acts)
    ensures Throughout(s, window, acts) <==> AllSafe(s, window, acts)
    ensures AllSafe(s, window, acts) ==> Inv(After(s, window, acts))
    decreases |acts|
  {
    if acts != [] {
      NextKeepsInvIff(s, window, acts[0]);
      if Safe(s, window, acts[0]) {
        RunKeepsInvIff(Next(s, window, acts[0]), window, acts[1..]);
      }
    }
  }

  /** In every run from start-up all of whose steps are safe, for every pool size and every interleaving of handlers,
      workers, timers, sweeps and commits, at most one transfer per (app, object key) is live. */
  lemma SafeRunsAreExclusive(workers: nat, start: int, window: int, acts: seq<Action>)
    requires IsRun(Init(workers, start), window, acts) && AllSafe(Init(workers, start), window, acts)
    ensures AtMostOneLive(After(Init(workers, start), window, acts).eng.jobs)
  {
    Engine.InitInv(workers);
    RunKeepsInvIff(Init(workers, start), window, acts);
  }

  // ---- why arrivals are safe when records are handled in time ----

  function TokenKey(t: Token): string { DedupKey(t.app, t.key) }
  function JobKey(j: Job): string { DedupKey(j.mem.app, j.mem.key) }

  /** Every record gets from the deduper to a committed row within one dedup window. */
  ghost predicate Timely(s: State, window: int) {
    && (forall t :: 0 <= t < |s.tokens| && Open(s.tokens[t]) ==> s.now < s.tokens[t].admitted + window)
    && (forall i :: 0 <= i < |s.eng.jobs| && i < |s.born| && Unseen(s.eng.jobs[i]) ==> s.now < s.born[i] + window)
  }

  /** The active check does not fail beside a live job of the record's object. */
  ghost predicate Reliable(s: State, a: Action) {
    a.Query? && a.failed && a.tok < |s.tokens| ==>
      !LiveFor(s.eng.jobs, s.tokens[a.tok].app, s.tokens[a.tok].key)
  }

  /** Whoever may still become, or is not yet visible as, an active row is remembered by the deduper. */
  ghost predicate Remembered(s: State) {
    && |s.born| == |s.eng.jobs|
    && (forall t :: 0 <= t < |s.tokens| && Open(s.tokens[t]) ==>
          TokenKey(s.tokens[t]) in s.entries && s.entries[TokenKey(s.tokens[t])] == s.tokens[t].admitted)
    && (forall i :: 0 <= i < |s.eng.jobs| && Unseen(s.eng.jobs[i]) ==>
          JobKey(s.eng.jobs[i]) in s.entries && s.entries[JobKey(s.eng.jobs[i])] == s.born[i])
  }

  /** A key the deduper does not hold within its window has no open token and no unseen job. */
  lemma FreeKey(s: State, window: int, k: string)
    requires Remembered(s) && Timely(s, window) && !Dedup.Duplicate(s.entries, window, k, s.now)
    ensures forall t :: 0 <= t < |s.tokens| && Open(s.tokens[t]) ==> TokenKey(s.tokens[t]) != k
    ensures forall i :: 0 <= i < |s.eng.jobs| && Unseen(s.eng.jobs[i]) ==> JobKey(s.eng.jobs[i]) != k
  {
  }

  lemma TimelyIsSafe(s: State, window: int, a: Action)
    requires Remembered(s) && Timely(s, window) && Reliable(s, a)
    ensures Safe(s, window, a)
  {
    if a.Arrive? && !Dedup.Duplicate(s.entries, window, DedupKey(a.app, a.key), s.now) {
      FreeKey(s, window, DedupKey(a.app, a.key));
    }
  }

  lemma ArriveRemembers(s: State, window: int, app: string, key: string, d: nat)
    requires Remembered(s) && Timely(s, window)
    ensures Remembered(Next(s, window, Arrive(app, key, d)))
  {
    if !Dedup.Duplicate(s.entries, window, DedupKey(app, key), s.now) {
      FreeKey(s, window, DedupKey(app, key));
    }
  }

  lemma NextRemembers(s: State, window: int, a: Action)
    requires Remembered(s) && Timely(s, window) && Engine.Inv(s.eng) && Enabled(s, a)
    ensures Remembered(Next(s, window, a))
  {
    match a
    case Arrive(app, key, d) => ArriveRemembers(s, window, app, key, d);
    case Run(step) => JobsSettle(s, step);
    case _ =>
  }

  /** Every step of the run is reliable and every state of it timely. */
  ghost predicate Healthy(s: State, window: int, acts: seq<Action>)
    requires IsRun(s, window, acts)
    decreases |acts|
  {
    Timely(s, window) &&
    (acts == [] || (Reliable(s, acts[0]) && Healthy(Next(s, window, acts[0]), window, acts[1..])))
  }

  lemma {:induction false} HealthyIsSafe(s: State, window: int, acts: seq<Action>)
    requires Inv(s) && Remembered(s) && IsRun(s, window, acts) && Healthy(s, window, acts)
    ensures AllSafe(s, window, acts)
    decreases |acts|
  {
    if acts != [] {
      TimelyIsSafe(s, window, acts[0]);
      NextKeepsInvIff(s, window, acts[0]);
      NextRemembers(s, window, acts[0]);
      HealthyIsSafe(Next(s, window, acts[0]), window, acts[1..]);
    }
  }

  /** Main claim: in every run from start-up in which no check fails beside a live job of its object and every record is
      committed within one dedup window, at most one transfer per (app, object key) is live. */
  lemma OneLiveTransferPerKey(workers: nat, start: int, window: int, acts: seq<Action>)
    requires IsRun(Init(workers, start), window, acts) && Healthy(Init(workers, start), window, acts)
    ensures AtMostOneLive(After(Init(workers, start), window, acts).eng.jobs)
  {
    Engine.InitInv(workers);
    HealthyIsSafe(Init(workers, start), window, acts);
    SafeRunsAreExclusive(workers, start, window, acts);
  }

  // ---- what the deduper turns away ----

  /** A record of that object was admitted less than a window ago. */
  ghost predicate AdmittedLately(s: State, window: int, app: string, key: string) {
    exists t :: 0 <= t < |s.tokens| && TokenFor(s.tokens[t], app, key) && s.now - s.tokens[t].admitted < window
  }

  /** An entry is the admission of some record, and an admission not covered by an entry is a window old. */
  ghost predicate Recalls(s: State, window: int) {
    && (forall t :: 0 <= t < |s.tokens| ==> s.tokens[t].admitted <= s.now && ':' !in s.tokens[t].app)
    && (forall k :: k in s.entries ==>
          exists t :: 0 <= t < |s.tokens| && TokenKey(s.tokens[t]) == k && s.tokens[t].admitted == s.entries[k])
    && (forall t :: 0 <= t < |s.tokens| ==> Recalled(s, window, s.tokens[t]))
  }

  predicate Recalled(s: State, window: int, t: Token) {
    || (TokenKey(t) in s.entries && s.entries[TokenKey(t)] >= t.admitted)
    || s.now - t.admitted >= window
  }

  lemma KeyNamesObject(t: Token, app: string, key: string)
    requires ':' !in t.app && ':' !in app && TokenKey(t) == DedupKey(app, key)
    ensures TokenFor(t, app, key)
  {
    assert t.app + [':'] + t.key == app + [':'] + key;
    Keys.Split(':', t.app, t.key, app, key);
  }

  lemma DuplicateFromRecall(s: State, window: int, app: string, key: string)
    requires Recalls(s, window) && ':' !in app
    ensures Dedup.Duplicate(s.entries, window, DedupKey(app, key), s.now) <==> AdmittedLately(s, window, app, key)
  {
    var k := DedupKey(app, key);
    if Dedup.Duplicate(s.entries, window, k, s.now) {
      var t :| 0 <= t < |s.tokens| && TokenKey(s.tokens[t]) == k && s.tokens[t].admitted == s.entries[k];
      KeyNamesObject(s.tokens[t], app, key);
    }
    if t :| 0 <= t < |s.tokens| && TokenFor(s.tokens[t], app, key) && s.now - s.tokens[t].admitted < window {
      assert Recalled(s, window, s.tokens[t]);
    }
  }

  lemma ArriveRecalls(s: State, window: int, app: string, key: string, d: nat)
    requires Recalls(s, window) && ':' !in app
    ensures Recalls(Next(s, window, Arrive(app, key, d)), window)
  {
    var s' := Next(s, window, Arrive(app, key, d));
    assert forall t :: 0 <= t < |s.tokens| ==> s'.tokens[t] == s.tokens[t];
    forall t | 0 <= t < |s'.tokens|
      ensures Recalled(s', window, s'.tokens[t])
    {
      assert t < |s.tokens| ==> Recalled(s, window, s.tokens[t]);
    }
    forall k | k in s'.entries
      ensures exists t :: 0 <= t < |s'.tokens| && TokenKey(s'.tokens[t]) == k && s'.tokens[t].admitted == s'.entries[k]
    {
      if k in s.entries && s'.entries[k] == s.entries[k] {
        var t :| 0 <= t < |s.tokens| && TokenKey(s.tokens[t]) == k && s.tokens[t].admitted == s.entries[k];
        assert s'.tokens[t] == s.tokens[t];
      } else {
        assert TokenKey(s'.tokens[|s.tokens|]) == k;
      }
    }
  }

  /** Steps that change no admission, and no entry but by dropping stale ones. */
  lemma QuietRecalls(s: State, window: int, s': State)
    requires Recalls(s, window) && s'.now >= s.now && |s'.tokens| == |s.tokens|
    requires forall t :: 0 <= t < |s.tokens| ==> s'.tokens[t] == s.tokens[t].(phase := s'.tokens[t].phase)
    requires s'.entries == s.entries || s'.entries == Dedup.Swept(s.entries, window, s.now)
    ensures Recalls(s', window)
  {
    forall t | 0 <= t < |s'.tokens|
      ensures Recalled(s', window, s'.tokens[t])
    {
      assert Recalled(s, window, s.tokens[t]);
    }
    forall k | k in s'.entries
      ensures exists t :: 0 <= t < |s'.tokens| && TokenKey(s'.tokens[t]) == k && s'.tokens[t].admitted == s'.entries[k]
    {
      var t :| 0 <= t < |s.tokens| && TokenKey(s.tokens[t]) == k && s.tokens[t].admitted == s.entries[k];
      assert TokenKey(s'.tokens[t]) == k;
    }
  }

  /** The job is for that object and its committed row does not say that it has ended. */
  predicate Blocks(j: Job, app: string, key: string) {
    && j.mem.app == app && j.mem.key == key
    && j.db.Some? && (Live(j) || !(j.db.value.status.Success? || j.db.value.status.Failed?))
  }

  /** In every run a working check turns a record away if and only if some job of the same app and object has a
      committed row and has not ended, or its end is not in that row. */
  lemma RefusedIff(workers: nat, start: int, window: int, acts: seq<Action>, t: nat)
    requires IsRun(Init(workers, start), window, acts)
    requires Enabled(After(Init(workers, start), window, acts), Query(t, false))
    ensures var s := After(Init(workers, start), window, acts); var tok := s.tokens[t];
            Next(s, window, Query(t, false)).tokens[t]
            == tok.(phase := if exists i :: 0 <= i < |s.eng.jobs| && Blocks(s.eng.jobs[i], tok.app, tok.key)
                             then Gone else Cleared)
  {
    Engine.InitInv(workers);
    RunKeepsEngine(Init(workers, start), window, acts);
    var s := After(Init(workers, start), window, acts);
    var app, key := s.tokens[t].app, s.tokens[t].key;
    forall i | 0 <= i < |s.eng.jobs|
      ensures HasActiveRow(s.eng.jobs[i], app, key) <==> Blocks(s.eng.jobs[i], app, key)
    {
      assert JobInv(s.eng.jobs[i]);
    }
  }

  lemma NextKeepsEngine(s: State, window: int, a: Action)
    requires Engine.Inv(s.eng) && Enabled(s, a)
    ensures Engine.Inv(Next(s, window, a).eng)
  {
    match a
    case Insert(t, size, maxRetries) =>
      Engine.NextKeepsInv(s.eng, Engine.Create(s.tokens[t].app, s.tokens[t].key, size, maxRetries));
    case Run(step) => Engine.NextKeepsInv(s.eng, step);
    case _ =>
  }

  lemma {:induction false} RunKeepsEngine(s: State, window: int, acts: seq<Action>)
    requires Engine.Inv(s.eng) && IsRun(s, window, acts)
    ensures Engine.Inv(After(s, window, acts).eng)
    decreases |acts|
  {
    if acts != [] {
      NextKeepsEngine(s, window, acts[0]);
      RunKeepsEngine(Next(s, window, acts[0]), window, acts[1..]);
    }
  }

  /** No app id has a colon in it; the store makes them UUIDs. */
  predicate PlainApps(acts: seq<Action>) { forall a :: a in acts && a.Arrive? ==> ':' !in a.app }

  lemma {:induction false} RunRecalls(s: State, window: int, acts: seq<Action>)
    requires Recalls(s, window) && IsRun(s, window, acts) && PlainApps(acts)
    ensures Recalls(After(s, window, acts), window)
    decreases |acts|
  {
    if acts != [] {
      var a := acts[0];
      assert a in acts && forall b :: b in acts[1..] ==> b in acts;
      if a.Arrive? {
        ArriveRecalls(s, window, a.app, a.key, a.d);
      } else {
        QuietRecalls(s, window, Next(s, window, a));
      }
      RunRecalls(Next(s, window, a), window, acts[1..]);
    }
  }

  /** In every run from start-up, sweeps included: a record is turned away if and only if a record of the same app and
      object was admitted less than a window ago, whatever became of it. So no other object's webhook is dropped. */
  lemma TurnedAwayIff(workers: nat, start: int, window: int, acts: seq<Action>, app: string, key: string, d: nat)
    requires IsRun(Init(workers, start), window, acts) && PlainApps(acts) && ':' !in app
    ensures var s := After(Init(workers, start), window, acts); var s' := Next(s, window, Arrive(app, key, d));
            if AdmittedLately(s, window, app, key) then s'.tokens == s.tokens
            else s'.tokens == s.tokens + [Token(app, key, s.now + d, Passed)]
  {
    RunRecalls(Init(workers, start), window, acts);
    DuplicateFromRecall(After(Init(workers, start), window, acts), window, app, key);
  }

  /** With a colon in the app id the deduper does confuse objects: a record is turned away although none of its object
      was ever admitted. */
  lemma ColonConfusesObjects(window: int, start: int, app: string, key: string)
      returns (acts: seq<Action>, other: string, rest: string)
    requires window > 0 && ':' in app
    ensures IsRun(Init(1, start), window, acts)
    ensures var s := After(Init(1, start), window, acts);
            && !AdmittedLately(s, window, app, key)
            && Next(s, window, Arrive(app, key, 0)).tokens == s.tokens == [Token(other, rest, start, Passed)]
  {
    other, rest := Keys.Collides(':', app, key);
    assert DedupKey(other, rest) == other + [':'] + rest && DedupKey(app, key) == app + [':'] + key;
    acts := Onward(Init(1, start), window, [], Init(1, start), Arrive(other, rest, 0));
  }

  // ---- every record is dealt with ----

  /** The steps of a handler on a record it has admitted. */
  predicate Handles(a: Action) { a.Query? || a.Insert? || a.InsertFails? }

  /** A record admitted needs at most a check and an insert. */
  function StepsLeft(t: Token): nat {
    match t.phase
    case Passed => 2
    case Cleared => 1
    case Gone => 0
  }

  lemma HandlingAdvances(s: State, window: int, a: Action)
    requires Enabled(s, a)
    ensures var before, after := Common.Sum(s.tokens, StepsLeft), Common.Sum(Next(s, window, a).tokens, StepsLeft);
            if Handles(a) then after < before else if a.Arrive? then after <= before + 2 else after == before
  {
    var tokens' := Next(s, window, a).tokens;
    if Handles(a) {
      Common.SumUpdate(s.tokens, a.tok, tokens'[a.tok], StepsLeft);
    } else if a.Arrive? && tokens' != s.tokens {
      assert tokens'[..|s.tokens|] == s.tokens;
    }
  }

  function CountOf(acts: seq<Action>, p: Action -> bool): nat {
    if acts == [] then 0 else (if p(acts[0]) then 1 else 0) + CountOf(acts[1..], p)
  }

  lemma {:induction false} HandlingIsBounded(s: State, window: int, acts: seq<Action>)
    requires IsRun(s, window, acts)
    ensures CountOf(acts, Handles) + Common.Sum(After(s, window, acts).tokens, StepsLeft)
         <= Common.Sum(s.tokens, StepsLeft) + 2 * CountOf(acts, (a: Action) => a.Arrive?)
    decreases |acts|
  {
    if acts != [] {
      HandlingAdvances(s, window, acts[0]);
      HandlingIsBounded(Next(s, window, acts[0]), window, acts[1..]);
    }
  }

  /** No record is left lying: in every run the handlers take at most two steps per arrival, one for its check and one
      for its insert, and when they can take no more every record admitted has been turned away, inserted or refused.
      */
  lemma RecordsAreDealtWith(workers: nat, start: int, window: int, acts: seq<Action>)
    requires IsRun(Init(workers, start), window, acts)
    ensures var s := After(Init(workers, start), window, acts);
            && CountOf(acts, Handles) <= 2 * CountOf(acts, (a: Action) => a.Arrive?)
            && ((forall a :: Enabled(s, a) ==> !Handles(a)) ==>
                  forall t :: 0 <= t < |s.tokens| ==> s.tokens[t].phase.Gone?)
  {
    HandlingIsBounded(Init(workers, start), window, acts);
    var s := After(Init(workers, start), window, acts);
    if forall a :: Enabled(s, a) ==> !Handles(a) {
      forall t | 0 <= t < |s.tokens|
        ensures s.tokens[t].phase.Gone?
      {
        assert !Enabled(s, Query(t, false));
        assert !Enabled(s, InsertFails(t));
      }
    }
  }

  // ---- runs with a given end ----

  ghost predicate Leads(s: State, window: int, acts: seq<Action>, s': State) {
    IsRun(s, window, acts) && After(s, window, acts) == s'
  }

  lemma {:induction false} RunSnoc(s: State, window: int, acts: seq<Action>, a: Action)
    requires IsRun(s, window, acts) && Enabled(After(s, window, acts), a)
    ensures IsRun(s, window, acts + [a]) && After(s, window, acts + [a]) == Next(After(s, window, acts), window, a)
    decreases |acts|
  {
    if acts == [] {
      assert IsRun(Next(s, window, a), window, []);
      assert [a][1..] == [] && acts + [a] == [a];
    } else {
      RunSnoc(Next(s, window, acts[0]), window, acts[1..], a);
      assert (acts + [a])[1..] == acts[1..] + [a];
    }
  }

  /** A run that leads to `cur` goes on with an action enabled there. */
  lemma Onward(s: State, window: int, acts: seq<Action>, cur: State, a: Action) returns (acts': seq<Action>)
    requires Leads(s, window, acts, cur) && Enabled(cur, a)
    ensures Leads(s, window, acts', Next(cur, window, a)) && acts' == acts + [a]
  {
    RunSnoc(s, window, acts, a);
    acts' := acts + [a];
  }

  lemma HealthyCons(s: State, window: int, a: Action, rest: seq<Action>)
    requires Enabled(s, a) && IsRun(Next(s, window, a), window, rest)
    requires Timely(s, window) && Reliable(s, a) && Healthy(Next(s, window, a), window, rest)
    ensures IsRun(s, window, [a] + rest) && After(s, window, [a] + rest) == After(Next(s, window, a), window, rest)
    ensures Healthy(s, window, [a] + rest)
  {
    assert ([a] + rest)[1..] == rest;
  }

  /** Healthy runs exist for every positive window: a record is admitted, checked and inserted. */
  lemma HealthyRunsExist(window: int, start: int) returns (acts: seq<Action>)
    requires window > 0
    ensures IsRun(Init(1, start), window, acts) && Healthy(Init(1, start), window, acts)
    ensures var jobs := After(Init(1, start), window, acts).eng.jobs;
            |jobs| == 1 && Live(jobs[0]) && IsFor(jobs[0], "a", "k")
  {
    var s0 := Init(1, start);
    var s1 := Next(s0, window, Arrive("a", "k", 0));
    var s2 := Next(s1, window, Query(0, false));
    HealthyCons(s2, window, Insert(0, 1, 0), []);
    acts := [Insert(0, 1, 0)] + [];
    HealthyCons(s1, window, Query(0, false), acts);
    acts := [Query(0, false)] + acts;
    HealthyCons(s0, window, Arrive("a", "k", 0), acts);
    acts := [Arrive("a", "k", 0)] + acts;
  }

  // ---- when the claim fails: what an unsafe step leads to ----

  /** A cleared record beside a live job of its object becomes a second live job. */
  lemma InsertDuplicates(s: State, window: int, t: nat)
    requires Enabled(s, Insert(t, 1, 0)) && LiveFor(s.eng.jobs, s.tokens[t].app, s.tokens[t].key)
    ensures !AtMostOneLive(Next(s, window, Insert(t, 1, 0)).eng.jobs)
  {
    var tok := s.tokens[t];
    var jobs := s.eng.jobs;
    var i :| 0 <= i < |jobs| && Live(jobs[i]) && IsFor(jobs[i], tok.app, tok.key);
    var jobs' := Next(s, window, Insert(t, 1, 0)).eng.jobs;
    assert jobs'[i] == jobs[i] && Live(jobs'[|jobs|]) && IsFor(jobs'[|jobs|], tok.app, tok.key);
  }

  /** An unsafe check: any record past the deduper beside a live job of its object becomes a second live job if its
      check fails. */
  lemma FailedQueryDuplicates(s: State, window: int, t: nat) returns (acts: seq<Action>)
    requires Enabled(s, Query(t, true)) && !Safe(s, window, Query(t, true))
    ensures acts == [Query(t, true), Insert(t, 1, 0)]
    ensures IsRun(s, window, acts) && !AtMostOneLive(After(s, window, acts).eng.jobs)
  {
    var s1 := Next(s, window, Query(t, true));
    acts := Onward(s, window, [], s, Query(t, true));
    InsertDuplicates(s1, window, t);
    acts := Onward(s, window, acts, s1, Insert(t, 1, 0));
  }

  predicate NoCheckFails(acts: seq<Action>) { forall a :: a in acts ==> !(a.Query? && a.failed) }

  /** A late commit: with a working check too, a record past the deduper beside a job whose insert is not committed
      becomes a second live job, if no other row of the object is active. */
  lemma UnseenJobDuplicates(s: State, window: int, t: nat) returns (acts: seq<Action>)
    requires Enabled(s, Query(t, false)) && !ActiveExists(s.eng.jobs, s.tokens[t].app, s.tokens[t].key)
    requires LiveFor(s.eng.jobs, s.tokens[t].app, s.tokens[t].key)
    ensures acts == [Query(t, false), Insert(t, 1, 0)]
    ensures IsRun(s, window, acts) && !AtMostOneLive(After(s, window, acts).eng.jobs)
  {
    var s1 := Next(s, window, Query(t, false));
    acts := Onward(s, window, [], s, Query(t, false));
    InsertDuplicates(s1, window, t);
    acts := Onward(s, window, acts, s1, Insert(t, 1, 0));
  }

  /** Two cleared records of one object become two live jobs. */
  lemma ClearedPairDuplicates(s: State, window: int, t: nat, u: nat) returns (acts: seq<Action>)
    requires t < |s.tokens| && u < |s.tokens| && t != u && s.tokens[t].phase.Cleared? && s.tokens[u].phase.Cleared?
    requires TokenFor(s.tokens[t], s.tokens[u].app, s.tokens[u].key)
    ensures IsRun(s, window, acts) && NoCheckFails(acts) && !AtMostOneLive(After(s, window, acts).eng.jobs)
  {
    acts := Onward(s, window, [], s, Insert(t, 1, 0));
    var s1 := Next(s, window, Insert(t, 1, 0));
    assert Live(s1.eng.jobs[|s.eng.jobs|]) && IsFor(s1.eng.jobs[|s.eng.jobs|], s.tokens[u].app, s.tokens[u].key);
    InsertDuplicates(s1, window, u);
    acts := Onward(s, window, acts, s1, Insert(u, 1, 0));
  }

  /** Two open records of one object, with no active row, become two live jobs though every check works. */
  lemma OpenPairDuplicates(s: State, window: int, t: nat, u: nat) returns (acts: seq<Action>)
    requires t < |s.tokens| && u < |s.tokens| && t != u && Open(s.tokens[t]) && s.tokens[u].phase.Passed?
    requires TokenFor(s.tokens[t], s.tokens[u].app, s.tokens[u].key)
    requires !ActiveExists(s.eng.jobs, s.tokens[u].app, s.tokens[u].key)
    ensures IsRun(s, window, acts) && NoCheckFails(acts) && !AtMostOneLive(After(s, window, acts).eng.jobs)
  {
    var s1 := Next(s, window, Query(u, false));
    if s1.tokens[t].phase.Passed? {
      acts := ClearedPairDuplicates(Next(s1, window, Query(t, false)), window, t, u);
      RunCons(s1, window, Query(t, false), acts);
      acts := [Query(t, false)] + acts;
    } else {
      acts := ClearedPairDuplicates(s1, window, t, u);
    }
    RunCons(s, window, Query(u, false), acts);
    acts := [Query(u, false)] + acts;
  }

  /** An unsafe arrival: if the deduper admits a record while another of its object is in flight, then, as long as the
      object has no active row, some run goes on to two live jobs although every check in it works. */
  lemma LateArrivalDuplicates(s: State, window: int, a: Action) returns (acts: seq<Action>)
    requires a.Arrive? && !Safe(s, window, a) && !ActiveExists(s.eng.jobs, a.app, a.key)
    ensures acts != [] && acts[0] == a && NoCheckFails(acts)
    ensures IsRun(s, window, acts) && !AtMostOneLive(After(s, window, acts).eng.jobs)
  {
    var s1 := Next(s, window, a);
    var u := |s.tokens|;
    var rest;
    if t :| 0 <= t < u && Open(s.tokens[t]) && TokenFor(s.tokens[t], a.app, a.key) {
      assert s1.tokens[t] == s.tokens[t];
      rest := OpenPairDuplicates(s1, window, t, u);
    } else {
      var i :| 0 <= i < |s.eng.jobs| && Unseen(s.eng.jobs[i]) && IsFor(s.eng.jobs[i], a.app, a.key);
      rest := UnseenJobDuplicates(s1, window, u);
    }
    RunCons(s, window, a, rest);
    acts := [a] + rest;
  }

  lemma RunCons(s: State, window: int, a: Action, rest: seq<Action>)
    requires Enabled(s, a) && IsRun(Next(s, window, a), window, rest)
    ensures IsRun(s, window, [a] + rest) && After(s, window, [a] + rest) == After(Next(s, window, a), window, rest)
  {
    assert ([a] + rest)[1..] == rest;
  }

  /** A first record, placed at once. */
  lemma FirstRecordPlaced(window: int, start: int) returns (acts: seq<Action>, s: State)
    ensures Leads(Init(1, start), window, acts, s)
    ensures |s.tokens| == 1 && s.eng.jobs == [NewJob(NewRow("a", "k", 1, 0))]
    ensures s.now == start && s.entries == map[DedupKey("a", "k") := start]
  {
    var s0 := Init(1, start);
    var s1 := Next(s0, window, Arrive("a", "k", 0));
    var s2 := Next(s1, window, Query(0, false));
    s := Next(s2, window, Insert(0, 1, 0));
    acts := Onward(s0, window, [], s0, Arrive("a", "k", 0));
    acts := Onward(s0, window, acts, s1, Query(0, false));
    acts := Onward(s0, window, acts, s2, Insert(0, 1, 0));
  }

  /** Both kinds of unsafe step are reachable. Two webhooks for one object, one window apart, leave a record past the
      deduper beside a live job. */
  lemma SecondRecordPasses(window: nat, start: int) returns (acts: seq<Action>)
    ensures IsRun(Init(1, start), window, acts)
    ensures !Safe(After(Init(1, start), window, acts), window, Query(1, true))
    ensures Enabled(After(Init(1, start), window, acts), Query(1, true))
  {
    var s;
    acts, s := FirstRecordPlaced(window, start);
    acts := Onward(Init(1, start), window, acts, s, Tick(window));
    var later := Next(s, window, Tick(window));
    acts := Onward(Init(1, start), window, acts, later, Arrive("a", "k", 0));
    var last := Next(later, window, Arrive("a", "k", 0));
    assert last.tokens[1] == Token("a", "k", start + window, Passed);
    assert Live(last.eng.jobs[0]) && IsFor(last.eng.jobs[0], "a", "k");
  }

  /** And a record that has not been inserted one window after it was admitted is forgotten by the deduper. */
  lemma SlowRecordIsForgotten(window: nat, start: int) returns (acts: seq<Action>)
    ensures IsRun(Init(1, start), window, acts)
    ensures var s := After(Init(1, start), window, acts);
            !Safe(s, window, Arrive("a", "k", 0)) && !ActiveExists(s.eng.jobs, "a", "k")
  {
    var s0 := Init(1, start);
    var s1 := Next(s0, window, Arrive("a", "k", 0));
    acts := Onward(s0, window, [], s0, Arrive("a", "k", 0));
    acts := Onward(s0, window, acts, s1, Tick(window));
    var s2 := Next(s1, window, Tick(window));
    assert Open(s2.tokens[0]) && TokenFor(s2.tokens[0], "a", "k");
  }

  /** A job that ended but whose last update was lost leaves an active row behind. */
  predicate StaleRow(j: Job) {
    !Live(j) && j.pending.None? && j.db.Some? && Active(j.db.value.status)
  }

  /** No engine step touches a job that ended, except the resolution of its last statement. */
  lemma EndedJobIdle(s: Engine.State, step: Engine.Action, i: nat)
    requires Engine.Inv(s) && Engine.Enabled(s, step) && i < |s.jobs| && !Live(s.jobs[i])
    requires s.jobs[i].pending.None? || !(step.CommitJob? && step.id == i)
    ensures i < |Engine.Next(s, step).jobs| && Engine.Next(s, step).jobs[i] == s.jobs[i]
  {
    if !step.Create? && Engine.Next(s, step).jobs != s.jobs {
      var id, act := Engine.OneJobSteps(s, step);
      assert id != i;
    }
  }

  lemma SettledJobStep(s: Engine.State, a: Engine.Action, i: nat)
    requires Engine.Inv(s) && Engine.Enabled(s, a) && i < |s.jobs| && !Live(s.jobs[i]) && s.jobs[i].pending.None?
    ensures Engine.Inv(Engine.Next(s, a)) && a != Engine.CommitJob(i, true)
    ensures i < |Engine.Next(s, a).jobs| && Engine.Next(s, a).jobs[i] == s.jobs[i]
  {
    Engine.NextKeepsInv(s, a);
    EndedJobIdle(s, a, i);
  }

  /** Once that is resolved too, nothing ever touches it. */
  lemma {:induction false} SettledJobStays(s: Engine.State, acts: seq<Engine.Action>, i: nat)
    requires Engine.Inv(s) && Engine.IsRun(s, acts) && i < |s.jobs| && !Live(s.jobs[i]) && s.jobs[i].pending.None?
    ensures var t := Engine.After(s, acts); i < |t.jobs| && t.jobs[i] == s.jobs[i]
    ensures Engine.CommitJob(i, true) !in acts
    decreases |acts|
  {
    if acts != [] {
      SettledJobStep(s, acts[0], i);
      SettledJobStays(Engine.Next(s, acts[0]), acts[1..], i);
      assert acts == [acts[0]] + acts[1..];
    }
  }

  /** A job that has just ended, with an active row still committed: whatever runs next, when its last statement is
      resolved its row is stale unless that statement was committed. */
  lemma {:induction false} StaleAfterRun(s: Engine.State, acts: seq<Engine.Action>, i: nat)
    requires Engine.Inv(s) && Engine.IsRun(s, acts) && i < |s.jobs| && !Live(s.jobs[i])
    requires s.jobs[i].db.Some? && Active(s.jobs[i].db.value.status)
    requires i < |Engine.After(s, acts).jobs| && Engine.After(s, acts).jobs[i].pending.None?
    ensures StaleRow(Engine.After(s, acts).jobs[i]) <==> s.jobs[i].pending.None? || Engine.CommitJob(i, true) !in acts
    decreases |acts|
  {
    if s.jobs[i].pending.None? {
      SettledJobStays(s, acts, i);
    } else {
      var a := acts[0];
      var t := Engine.Next(s, a);
      assert acts == [a] + acts[1..];
      assert JobInv(s.jobs[i]);
      Engine.NextKeepsInv(s, a);
      if a.CommitJob? && a.id == i {
        SettledJobStays(t, acts[1..], i);
      } else {
        EndedJobIdle(s, a, i);
        StaleAfterRun(t, acts[1..], i);
      }
    }
  }

  predicate Ends(a: JobAction) { a.Succeed? || a.GiveUp? }

  /** When it happens, exactly, in every interleaving: a job with a committed row ends in a worker, and whatever runs
      afterwards, once its last statement is resolved its row is stale if and only if that statement failed or was not
      committed. */
  lemma StaleRowIff(s: Engine.State, w: nat, act: JobAction, rest: seq<Engine.Action>, i: nat)
    requires Engine.Inv(s) && Engine.Enabled(s, Engine.Work(w, act)) && Ends(act) && s.pcs[w].job == i
    requires s.jobs[i].db.Some? && Engine.IsRun(Engine.Next(s, Engine.Work(w, act)), rest)
    requires var t := Engine.After(Engine.Next(s, Engine.Work(w, act)), rest);
             i < |t.jobs| && t.jobs[i].pending.None?
    ensures var t := Engine.After(Engine.Next(s, Engine.Work(w, act)), rest);
            StaleRow(t.jobs[i]) <==> !(act.ok && Engine.CommitJob(i, true) in rest)
  {
    assert JobInv(s.jobs[i]);
    Engine.NextKeepsInv(s, Engine.Work(w, act));
    var u := Engine.Next(s, Engine.Work(w, act));
    assert u.jobs[i].pending.Some? <==> act.ok;
    StaleAfterRun(u, rest, i);
  }

  /** Such a row is never repaired, and every later record of its key is turned away by a working query,
      in every run whatsoever: the object is not transferred again while the process lives. */
  lemma {:induction false} StaleRowBlocksForever(s: State, window: int, acts: seq<Action>, i: nat)
    requires Engine.Inv(s.eng) && IsRun(s, window, acts)
    requires i < |s.eng.jobs| && StaleRow(s.eng.jobs[i])
    ensures var u := After(s, window, acts); var row := s.eng.jobs[i].db.value;
            && i < |u.eng.jobs| && u.eng.jobs[i] == s.eng.jobs[i]
            && forall t: nat :: Enabled(u, Query(t, false)) && TokenFor(u.tokens[t], row.app, row.key) ==>
                 Next(u, window, Query(t, false)).tokens[t].phase.Gone?
    decreases |acts|
  {
    if acts == [] {
      StaleRowRefuses(s, window, i);
    } else {
      StaleRowStays(s, window, acts[0], i);
      StaleRowBlocksForever(Next(s, window, acts[0]), window, acts[1..], i);
    }
  }

  lemma StaleRowRefuses(s: State, window: int, i: nat)
    requires i < |s.eng.jobs| && StaleRow(s.eng.jobs[i])
    ensures var row := s.eng.jobs[i].db.value;
            forall t: nat :: Enabled(s, Query(t, false)) && TokenFor(s.tokens[t], row.app, row.key) ==>
              Next(s, window, Query(t, false)).tokens[t].phase.Gone?
  {
  }

  lemma StaleRowStays(s: State, window: int, a: Action, i: nat)
    requires Engine.Inv(s.eng) && Enabled(s, a) && i < |s.eng.jobs| && StaleRow(s.eng.jobs[i])
    ensures var u := Next(s, window, a);
            Engine.Inv(u.eng) && i < |u.eng.jobs| && u.eng.jobs[i] == s.eng.jobs[i]
  {
    NextKeepsEngine(s, window, a);
    if a.Run? {
      EndedJobIdle(s.eng, a.step, i);
    }
  }
}
