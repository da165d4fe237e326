/** The record loop of the webhook handler on the objects it updates (the deduper, the manager's queue and the store),
    proved to take the steps of the ingest system. Clock steps and the answers of the store come in with each record. */
module Handler {
  import opened Lifecycle
  import opened Ingest
  import Worker

  datatype Record = Record(key: string, size: int, clockStep: nat, queryFails: bool, insertFails: bool)

  /** The steps one record takes from state `s`. */
  function RecordActs(s: State, window: int, app: string, maxRetries: int, rec: Record): seq<Action> {
    var arrive := Arrive(app, rec.key, rec.clockStep);
    var t := |s.tokens|;
    if Dedup.Duplicate(s.entries, window, DedupKey(app, rec.key), s.now) then [arrive]
    else if !rec.queryFails && ActiveExists(s.eng.jobs, app, rec.key) then [arrive, Query(t, rec.queryFails)]
    else if rec.insertFails then [arrive, Query(t, rec.queryFails), InsertFails(t)]
    else [arrive, Query(t, rec.queryFails), Insert(t, rec.size, maxRetries), Run(Engine.Append(|s.eng.jobs|))]
  }

  predicate RecordFails(s: State, window: int, app: string, rec: Record) {
    && !Dedup.Duplicate(s.entries, window, DedupKey(app, rec.key), s.now)
    && (rec.queryFails || !ActiveExists(s.eng.jobs, app, rec.key))
    && rec.insertFails
  }

  /** The record's script is a run of the ingest system from `s` to `s'`, and leaves the manager unlocked. */
  ghost predicate Served(s: State, window: int, app: string, maxRetries: int, rec: Record, s': State) {
    Leads(s, window, RecordActs(s, window, app, maxRetries, rec), s') && s'.eng.holder.None?
  }

  function Checked(s: State, window: int, app: string, rec: Record): State
    requires !Dedup.Duplicate(s.entries, window, DedupKey(app, rec.key), s.now)
  {
    Next(Next(s, window, Arrive(app, rec.key, rec.clockStep)), window, Query(|s.tokens|, rec.queryFails))
  }

  /** The state that script leads to. */
  function RecordEnd(s: State, window: int, app: string, maxRetries: int, rec: Record): State
    requires s.eng.holder.None?
  {
    if Dedup.Duplicate(s.entries, window, DedupKey(app, rec.key), s.now) then
      Next(s, window, Arrive(app, rec.key, rec.clockStep))
    else
      var checked := Checked(s, window, app, rec);
      if !rec.queryFails && ActiveExists(s.eng.jobs, app, rec.key) then checked
      else if rec.insertFails then Next(checked, window, InsertFails(|s.tokens|))
      else
        var inserted := Next(checked, window, Insert(|s.tokens|, rec.size, maxRetries));
        Next(inserted, window, Run(Engine.Append(|s.eng.jobs|)))
  }

  /** The script up to the active check. */
  lemma CheckRuns(s: State, window: int, app: string, rec: Record) returns (acts: seq<Action>)
    requires !Dedup.Duplicate(s.entries, window, DedupKey(app, rec.key), s.now)
    ensures acts == [Arrive(app, rec.key, rec.clockStep), Query(|s.tokens|, rec.queryFails)]
    ensures Leads(s, window, acts, Checked(s, window, app, rec))
  {
    var arrive := Arrive(app, rec.key, rec.clockStep);
    acts := Onward(s, window, [], s, arrive);
    acts := Onward(s, window, acts, Next(s, window, arrive), Query(|s.tokens|, rec.queryFails));
  }

  /** The script of a record that is placed. */
  lemma PlaceRuns(s: State, window: int, app: string, maxRetries: int, rec: Record) returns (acts: seq<Action>)
    requires s.eng.holder.None? && !Dedup.Duplicate(s.entries, window, DedupKey(app, rec.key), s.now)
    requires (rec.queryFails || !ActiveExists(s.eng.jobs, app, rec.key)) && !rec.insertFails
    ensures acts == RecordActs(s, window, app, maxRetries, rec)
    ensures Leads(s, window, acts, RecordEnd(s, window, app, maxRetries, rec))
  {
    var checked := Checked(s, window, app, rec);
    var insert := Insert(|s.tokens|, rec.size, maxRetries);
    acts := CheckRuns(s, window, app, rec);
    acts := Onward(s, window, acts, checked, insert);
    acts := Onward(s, window, acts, Next(checked, window, insert), Run(Engine.Append(|s.eng.jobs|)));
  }

  lemma RecordIsServed(s: State, window: int, app: string, maxRetries: int, rec: Record)
    requires s.eng.holder.None?
    ensures Served(s, window, app, maxRetries, rec, RecordEnd(s, window, app, maxRetries, rec))
  {
    var acts;
    if Dedup.Duplicate(s.entries, window, DedupKey(app, rec.key), s.now) {
      acts := Onward(s, window, [], s, Arrive(app, rec.key, rec.clockStep));
    } else if !rec.queryFails && ActiveExists(s.eng.jobs, app, rec.key) {
      acts := CheckRuns(s, window, app, rec);
    } else if rec.insertFails {
      acts := CheckRuns(s, window, app, rec);
      acts := Onward(s, window, acts, Checked(s, window, app, rec), InsertFails(|s.tokens|));
    } else {
      acts := PlaceRuns(s, window, app, maxRetries, rec);
    }
    assert acts == RecordActs(s, window, app, maxRetries, rec);
  }

  /** The states between the records of a request: each record but possibly the last leads from one to the next without
      an error. */
  ghost predicate AllServed(window: int, app: string, maxRetries: int, records: seq<Record>, states: seq<State>) {
    && 0 < |states| <= |records| + 1
    && (forall i :: 0 <= i < |states| - 1 ==> Served(states[i], window, app, maxRetries, records[i], states[i + 1]))
    && (forall i :: 0 <= i < |states| - 2 ==> !RecordFails(states[i], window, app, records[i]))
  }

  /** The insert of the last record looked at failed. */
  predicate LastFails(window: int, app: string, records: seq<Record>, states: seq<State>) {
    1 < |states| <= |records| + 1 && RecordFails(states[|states| - 2], window, app, records[|states| - 2])
  }

  /** One iteration of the loop. */
  lemma ServeNext(window: int, app: string, maxRetries: int, records: seq<Record>, states: seq<State>, s': State)
    requires AllServed(window, app, maxRetries, records, states) && |states| <= |records|
    requires !LastFails(window, app, records, states)
    requires Served(states[|states| - 1], window, app, maxRetries, records[|states| - 1], s')
    ensures AllServed(window, app, maxRetries, records, states + [s'])
    ensures LastFails(window, app, records, states + [s']) <==>
            RecordFails(states[|states| - 1], window, app, records[|states| - 1])
  {
    var next := states + [s'];
    forall i | 0 <= i < |next| - 1
      ensures Served(next[i], window, app, maxRetries, records[i], next[i + 1])
    {
      if i < |states| - 1 {
        assert Served(states[i], window, app, maxRetries, records[i], states[i + 1]);
      }
    }
  }

  /** The job is for the record's object, of its size, with the given retry limit, and waits in the queue. */
  predicate ForRecord(j: Job, app: string, maxRetries: int, rec: Record) {
    && j.mem.app == app && j.mem.key == rec.key && j.mem.size == rec.size
    && j.mem.maxRetries == maxRetries && j.maxRetries == maxRetries
    && j.stage.Queued? && j.mem.status.Pending? && j.retryCount == 0
  }

  /** From position `n` on every job is for some record of the request. */
  ghost predicate ForRecords(jobs: seq<Job>, n: nat, app: string, maxRetries: int, records: seq<Record>) {
    forall i :: n <= i < |jobs| ==> exists r :: r in records && ForRecord(jobs[i], app, maxRetries, r)
  }

  /** The record gets a job: it is no duplicate, no active transfer was found, and its insert works. */
  predicate GetsJob(s: State, window: int, app: string, rec: Record) {
    && !Dedup.Duplicate(s.entries, window, DedupKey(app, rec.key), s.now)
    && (rec.queryFails || !ActiveExists(s.eng.jobs, app, rec.key))
    && !rec.insertFails
  }

  /** The deduper or a working active check turns the record away. */
  predicate TurnedAway(s: State, window: int, app: string, rec: Record) {
    || Dedup.Duplicate(s.entries, window, DedupKey(app, rec.key), s.now)
    || (!rec.queryFails && ActiveExists(s.eng.jobs, app, rec.key))
  }

  /** Every record of the request was turned away or got a job. */
  ghost predicate NoneDropped(window: int, app: string, records: seq<Record>, states: seq<State>) {
    && |states| == |records| + 1
    && forall i :: 0 <= i < |records| ==>
         TurnedAway(states[i], window, app, records[i]) || GetsJob(states[i], window, app, records[i])
  }

  /** A request all of whose records were looked at without an error drops none. */
  lemma AllAccounted(window: int, app: string, maxRetries: int, records: seq<Record>, states: seq<State>)
    requires AllServed(window, app, maxRetries, records, states) && |states| == |records| + 1
    requires !LastFails(window, app, records, states)
    ensures NoneDropped(window, app, records, states)
  {
    forall i | 0 <= i < |records|
      ensures TurnedAway(states[i], window, app, records[i]) || GetsJob(states[i], window, app, records[i])
    {
      assert !RecordFails(states[i], window, app, records[i]);
    }
  }

  /** The store gains one job, for the record, or nothing. */
  predicate Gains(jobs: seq<Job>, jobs': seq<Job>, gets: bool, app: string, maxRetries: int, rec: Record) {
    if gets then |jobs'| == |jobs| + 1 && jobs <= jobs' && ForRecord(jobs'[|jobs|], app, maxRetries, rec)
    else jobs' == jobs
  }

  /** What the script of one record does to the store. */
  lemma ServedJob(s: State, window: int, app: string, maxRetries: int, rec: Record, s': State)
    requires s.eng.holder.None? && Served(s, window, app, maxRetries, rec, s')
    ensures Gains(s.eng.jobs, s'.eng.jobs, GetsJob(s, window, app, rec), app, maxRetries, rec)
  {
    RecordIsServed(s, window, app, maxRetries, rec);
  }

  lemma GainsForRecords(jobs: seq<Job>, n: nat, jobs': seq<Job>, gets: bool, app: string, maxRetries: int,
                        records: seq<Record>, rec: Record)
    requires n <= |jobs| && ForRecords(jobs, n, app, maxRetries, records) && rec in records
    requires Gains(jobs, jobs', gets, app, maxRetries, rec)
    ensures jobs <= jobs' && ForRecords(jobs', n, app, maxRetries, records)
  {
    assert forall i :: 0 <= i < |jobs| ==> jobs'[i] == jobs[i];
  }

  lemma AllButLast(window: int, app: string, maxRetries: int, records: seq<Record>, states: seq<State>)
    requires AllServed(window, app, maxRetries, records, states) && |states| > 1
    ensures AllServed(window, app, maxRetries, records, states[..|states| - 1])
    ensures states[0].eng.holder.None? ==> states[|states| - 2].eng.holder.None?
    ensures Served(states[|states| - 2], window, app, maxRetries, records[|states| - 2], states[|states| - 1])
  {
    var n := |states| - 2;
    if n > 0 {
      assert Served(states[n - 1], window, app, maxRetries, records[n - 1], states[n - 1 + 1]);
    }
    assert Served(states[n], window, app, maxRetries, records[n], states[n + 1]);
  }

  /** The store after the records of a request: its old jobs, and new ones for records of the request. */
  lemma {:induction false} ServedJobs(window: int, app: string, maxRetries: int, records: seq<Record>,
                                      states: seq<State>)
    requires AllServed(window, app, maxRetries, records, states) && states[0].eng.holder.None?
    ensures var before, after := states[0].eng.jobs, states[|states| - 1].eng.jobs;
            before <= after && ForRecords(after, |before|, app, maxRetries, records)
    decreases |states|
  {
    if |states| > 1 {
      var n := |states| - 2;
      AllButLast(window, app, maxRetries, records, states);
      ServedJobs(window, app, maxRetries, records, states[..n + 1]);
      ServedJob(states[n], window, app, maxRetries, records[n], states[n + 1]);
      GainsForRecords(states[n].eng.jobs, |states[0].eng.jobs|, states[n + 1].eng.jobs,
                      GetsJob(states[n], window, app, records[n]), app, maxRetries, records, records[n]);
    }
  }

  class WebhookHandler {
    const dedup: Dedup.Deduper
    const manager: Worker.Manager
    const defaultMaxRetries: int
    const defaultBackoffSecs: int
    var now: int
    var jobs: seq<Job>       // the store's transfers, with the record each job points to
    var backoffs: seq<int>   // the BackoffSecs each job was built with

    constructor (window: int, start: int, defaultMaxRetries: int, defaultBackoffSecs: int)
      ensures Matches(Init(1, start)) && dedup.window == window
      ensures this.defaultMaxRetries == defaultMaxRetries && this.defaultBackoffSecs == defaultBackoffSecs
      ensures fresh(dedup) && fresh(manager)
    {
      dedup := new Dedup.Deduper(window);
      manager := new Worker.Manager();
      this.defaultMaxRetries, this.defaultBackoffSecs := defaultMaxRetries, defaultBackoffSecs;
      now, jobs, backoffs := start, [], [];
    }

    ghost predicate Matches(s: State)
      reads this, dedup, manager
    {
      now == s.now && dedup.entries == s.entries && jobs == s.eng.jobs && manager.Matches(s.eng) && |backoffs| == |jobs|
    }

    /** `SELECT EXISTS` as a scan of the committed rows. */
    method HasActiveTransfer(app: string, key: string) returns (active: bool)
      ensures active == ActiveExists(jobs, app, key)
    {
      for i := 0 to |jobs|
        invariant forall k :: 0 <= k < i ==> !HasActiveRow(jobs[k], app, key)
      {
        if HasActiveRow(jobs[i], app, key) {
          return true;
        }
      }
      return false;
    }

    /** The deduper's call, with the clock it reads. In a state of any run with plain app ids the answer is that the
        same object was admitted less than a window ago. */
    method Admit(app: string, rec: Record, ghost s: State) returns (duplicate: bool)
      requires Matches(s)
      modifies this`now, dedup
      ensures Matches(Next(s, dedup.window, Arrive(app, rec.key, rec.clockStep)))
      ensures duplicate <==> Next(s, dedup.window, Arrive(app, rec.key, rec.clockStep)).tokens == s.tokens
      ensures Recalls(s, dedup.window) && ':' !in app ==>
                (duplicate <==> AdmittedLately(s, dedup.window, app, rec.key))
    {
      if Recalls(s, dedup.window) && ':' !in app {
        DuplicateFromRecall(s, dedup.window, app, rec.key);
      }
      duplicate := dedup.IsDuplicate(DedupKey(app, rec.key), now, now + rec.clockStep);
      now := now + rec.clockStep;
    }

    /** The record after the active check found nothing: insert the row, build the job, enqueue it. */
    method Place(app: string, maxRetries: int, backoffSecs: int, rec: Record, ghost t: nat, ghost s: State)
      requires Matches(s) && s.eng.holder.None? && Enabled(s, Insert(t, rec.size, maxRetries))
      requires TokenFor(s.tokens[t], app, rec.key)
      modifies this`jobs, this`backoffs, manager
      ensures var inserted := Next(s, dedup.window, Insert(t, rec.size, maxRetries));
              var a := Run(Engine.Append(|s.eng.jobs|));
              && Enabled(inserted, a) && Matches(Next(inserted, dedup.window, a))
              && Next(inserted, dedup.window, a).eng.holder.None?
      ensures backoffs == old(backoffs) + [backoffSecs]
      ensures jobs[..|jobs| - 1] == old(jobs) && ForRecord(jobs[|jobs| - 1], app, maxRetries, rec)
    {
      var id := |jobs|;
      var t' := NewJob(NewRow(app, rec.key, rec.size, maxRetries));
      jobs, backoffs := jobs + [t'], backoffs + [backoffSecs];
      ghost var inserted := Next(s, dedup.window, Insert(t, rec.size, maxRetries));
      manager.Enqueue(id, Engine.Append(id), inserted.eng);
      jobs := jobs[id := Step(t', Enqueue)];
    }

    /** One record: dedup, active check, insert, enqueue. */
    method ServeOne(app: string, maxRetries: int, backoffSecs: int, rec: Record, ghost s: State) returns (failed: bool)
      requires Matches(s) && s.eng.holder.None?
      modifies this`now, this`jobs, this`backoffs, dedup, manager
      ensures Matches(RecordEnd(s, dedup.window, app, maxRetries, rec))
      ensures failed <==> RecordFails(s, dedup.window, app, rec)
      ensures old(backoffs) <= backoffs && forall i :: |old(backoffs)| <= i < |backoffs| ==> backoffs[i] == backoffSecs
      ensures Gains(old(jobs), jobs, GetsJob(s, dedup.window, app, rec), app, maxRetries, rec)
    {
      var duplicate := Admit(app, rec, s);
      if duplicate {
        return false;
      }
      var active := HasActiveTransfer(app, rec.key);
      if !rec.queryFails && active {
        return false;
      }
      if rec.insertFails {
        return true;
      }
      Place(app, maxRetries, backoffSecs, rec, |s.tokens|, Checked(s, dedup.window, app, rec));
      return false;
    }

    /** The loop over the records of one request. Each record looked at takes exactly its script of ingest steps, in
        order. The answer is 202 when all were looked at without an error, and 500 when an insert failed, which ends
        the loop there. */
    method ServeAll(app: string, maxRetries: int, backoffSecs: int, records: seq<Record>, ghost s: State)
        returns (status: nat, ghost states: seq<State>)
      requires Matches(s) && s.eng.holder.None?
      modifies this`now, this`jobs, this`backoffs, dedup, manager
      ensures AllServed(dedup.window, app, maxRetries, records, states)
      ensures states[0] == s && Matches(states[|states| - 1])
      ensures if LastFails(dedup.window, app, records, states) then status == 500
              else status == 202 && NoneDropped(dedup.window, app, records, states)
      ensures old(backoffs) <= backoffs && forall i :: |old(backoffs)| <= i < |backoffs| ==> backoffs[i] == backoffSecs
      ensures old(jobs) <= jobs && ForRecords(jobs, |old(jobs)|, app, maxRetries, records)
    {
      states := [s];
      for i := 0 to |records|
        invariant |states| == i + 1 && states[0] == s && Matches(states[i]) && states[i].eng.holder.None?
        invariant AllServed(dedup.window, app, maxRetries, records, states)
        invariant !LastFails(dedup.window, app, records, states)
        invariant old(backoffs) <= backoffs
        invariant forall k :: |old(backoffs)| <= k < |backoffs| ==> backoffs[k] == backoffSecs
      {
        ghost var s' := RecordEnd(states[i], dedup.window, app, maxRetries, records[i]);
        RecordIsServed(states[i], dedup.window, app, maxRetries, records[i]);
        ServeNext(dedup.window, app, maxRetries, records, states, s');
        var failed := ServeOne(app, maxRetries, backoffSecs, records[i], states[i]);
        states := states + [s'];
        if failed {
          ServedJobs(dedup.window, app, maxRetries, records, states);
          return 500, states;
        }
      }
      ServedJobs(dedup.window, app, maxRetries, records, states);
      AllAccounted(dedup.window, app, maxRetries, records, states);
      status := 202;
    }

    /** One request: the per-app settings override the defaults, and every job created is for one of its records and
        carries the effective retry limit and backoff. A request without records is refused. */
    method Serve(app: string, appMaxRetries: int, appBackoffSecs: int, records: seq<Record>, ghost s: State)
        returns (status: nat, ghost states: seq<State>)
      requires Matches(s) && s.eng.holder.None?
      modifies this`now, this`jobs, this`backoffs, dedup, manager
      ensures var limit := if appMaxRetries > 0 then appMaxRetries else defaultMaxRetries;
              && AllServed(dedup.window, app, limit, records, states)
              && old(jobs) <= jobs && ForRecords(jobs, |old(jobs)|, app, limit, records)
      ensures states[0] == s && Matches(states[|states| - 1])
      ensures if records == [] then status == 400
              else if LastFails(dedup.window, app, records, states) then status == 500
              else status == 202 && NoneDropped(dedup.window, app, records, states)
      ensures old(backoffs) <= backoffs
      ensures forall i :: |old(backoffs)| <= i < |backoffs| ==>
                backoffs[i] == if appBackoffSecs > 0 then appBackoffSecs else defaultBackoffSecs
    {
      if |records| == 0 {
        return 400, [s];
      }
      var maxRetries := defaultMaxRetries;
      var backoffSecs := defaultBackoffSecs;
      if appMaxRetries > 0 {
        maxRetries := appMaxRetries;
      }
      if appBackoffSecs > 0 {
        backoffSecs := appBackoffSecs;
      }
      status, states := ServeAll(app, maxRetries, backoffSecs, records, s);
    }
  }
}
