/** The batching writer: one goroutine cuts a request channel into transactions, as a labelled step system in which
    every receive, execution, reply and commit is a step. Batching is invisible: the database and the answers are
    those of running the requests one by one in channel order. */
module Batch {

  const MAX_SIZE: nat := 500
  const CHANNEL_CAP: nat := 16384

  /** `nil`, or the text of the error. */
  datatype Answer = Nil | Error(text: string)

  /** A statement and the `done` channel its caller waits on. */
  datatype Request<S> = Request(done: nat, stmt: S)

  datatype Reply = Reply(done: nat, answer: Answer)

  /** How a transaction goes, apart from its statements. */
  datatype Outcome = BeginFails(text: string) | Commits | CommitFails

  /** A finished transaction; the one of the stop case is the last. */
  datatype Flushed<S> = Flushed(batch: seq<Request<S>>, outcome: Outcome, last: bool)

  datatype Effect<D> = Effect(db: D, replies: seq<Reply>)

  // ---- reference semantics ----

  /** Executing statements one by one; `exec` is the database's own semantics, errors included. */
  function Sequential<D, S>(exec: (D, S) -> (D, Answer), db: D, reqs: seq<Request<S>>): Effect<D> {
    if reqs == [] then Effect(db, []) else
      var before := Sequential(exec, db, reqs[..|reqs| - 1]);
      var (db', answer) := exec(before.db, reqs[|reqs| - 1].stmt);
      Effect(db', before.replies + [Reply(reqs[|reqs| - 1].done, answer)])
  }

  // ---- the effect of transactions ----

  function Refusals<S>(reqs: seq<Request<S>>, text: string): seq<Reply> {
    seq(|reqs|, i requires 0 <= i < |reqs| => Reply(reqs[i].done, Error(text)))
  }

  /** One flush: replies go out while the transaction runs, before it is known whether it commits. */
  function Transaction<D, S>(exec: (D, S) -> (D, Answer), db: D, f: Flushed<S>): Effect<D> {
    match f.outcome
    case BeginFails(text) => Effect(db, Refusals(f.batch, text))
    case Commits => Sequential(exec, db, f.batch)
    case CommitFails => Effect(db, Sequential(exec, db, f.batch).replies)
  }

  function Replay<D, S>(exec: (D, S) -> (D, Answer), db: D, log: seq<Flushed<S>>): Effect<D> {
    if log == [] then Effect(db, []) else
      var before := Replay(exec, db, log[..|log| - 1]);
      var last := Transaction(exec, before.db, log[|log| - 1]);
      Effect(last.db, before.replies + last.replies)
  }

  /** The requests of a log, in order. */
  function Flatten<S>(log: seq<Flushed<S>>): seq<Request<S>> {
    if log == [] then [] else Flatten(log[..|log| - 1]) + log[|log| - 1].batch
  }

  /** The requests of the transactions that committed. */
  function Durable<S>(log: seq<Flushed<S>>): seq<Request<S>> {
    if log == [] then [] else
      Durable(log[..|log| - 1]) + (if log[|log| - 1].outcome.Commits? then log[|log| - 1].batch else [])
  }

  lemma {:induction false} SequentialConcat<D, S>(exec: (D, S) -> (D, Answer), db: D,
                                                  a: seq<Request<S>>, b: seq<Request<S>>)
    ensures var first := Sequential(exec, db, a); var second := Sequential(exec, first.db, b);
            Sequential(exec, db, a + b) == Effect(second.db, first.replies + second.replies)
    decreases |b|
  {
    if b == [] {
      assert a + b == a;
    } else {
      var n := |b| - 1;
      SequentialConcat(exec, db, a, b[..n]);
      assert (a + b)[..|a + b| - 1] == a + b[..n];
    }
  }

  /** Batching preserves meaning: if every transaction begins and commits, then for every way the channel was
      cut, failing statements included, the database and every reply are those of one-by-one execution. */
  lemma {:induction false} BatchingIsInvisible<D, S>(exec: (D, S) -> (D, Answer), db: D, log: seq<Flushed<S>>)
    requires forall i :: 0 <= i < |log| ==> log[i].outcome.Commits?
    ensures Replay(exec, db, log) == Sequential(exec, db, Flatten(log))
  {
    if log != [] {
      var n := |log| - 1;
      BatchingIsInvisible(exec, db, log[..n]);
      SequentialConcat(exec, db, Flatten(log[..n]), log[n].batch);
    }
  }

  /** Whatever fails, the database is that of executing, one by one, exactly the committed batches' requests. */
  lemma {:induction false} DatabaseIsDurablePart<D, S>(exec: (D, S) -> (D, Answer), db: D, log: seq<Flushed<S>>)
    ensures Replay(exec, db, log).db == Sequential(exec, db, Durable(log)).db
  {
    if log != [] {
      var n := |log| - 1;
      DatabaseIsDurablePart(exec, db, log[..n]);
      if log[n].outcome.Commits? {
        SequentialConcat(exec, db, Durable(log[..n]), log[n].batch);
      } else {
        assert Durable(log) == Durable(log[..n]);
      }
    }
  }

  /** The channels the requests wait on, and those the replies went to. */
  function Waiting<S>(reqs: seq<Request<S>>): seq<nat> {
    seq(|reqs|, i requires 0 <= i < |reqs| => reqs[i].done)
  }

  function Answered(replies: seq<Reply>): seq<nat> {
    seq(|replies|, i requires 0 <= i < |replies| => replies[i].done)
  }

  lemma {:induction false} SequentialAnswersAll<D, S>(exec: (D, S) -> (D, Answer), db: D, reqs: seq<Request<S>>)
    ensures Answered(Sequential(exec, db, reqs).replies) == Waiting(reqs)
  {
    if reqs != [] {
      var n := |reqs| - 1;
      SequentialAnswersAll(exec, db, reqs[..n]);
      var before := Sequential(exec, db, reqs[..n]);
      var last := Reply(reqs[n].done, exec(before.db, reqs[n].stmt).1);
      calc {
        Answered(before.replies + [last]);
        Answered(before.replies) + [last.done];
        Waiting(reqs[..n]) + [reqs[n].done];
        Waiting(reqs);
      }
    }
  }

  lemma TransactionAnswersAll<D, S>(exec: (D, S) -> (D, Answer), db: D, f: Flushed<S>)
    ensures Answered(Transaction(exec, db, f).replies) == Waiting(f.batch)
  {
    SequentialAnswersAll(exec, db, f.batch);
  }

  /** The replies of finished transactions go to the channels of their requests, in order, whatever fails. */
  lemma {:induction false} LogAnswersAll<D, S>(exec: (D, S) -> (D, Answer), db: D, log: seq<Flushed<S>>)
    ensures Answered(Replay(exec, db, log).replies) == Waiting(Flatten(log))
  {
    if log != [] {
      var n := |log| - 1;
      var before := Replay(exec, db, log[..n]);
      LogAnswersAll(exec, db, log[..n]);
      TransactionAnswersAll(exec, before.db, log[n]);
      AnsweredConcat(before.replies, Transaction(exec, before.db, log[n]).replies);
      WaitingConcat(Flatten(log[..n]), log[n].batch);
    }
  }

  lemma AnsweredConcat(a: seq<Reply>, b: seq<Reply>)
    ensures Answered(a + b) == Answered(a) + Answered(b)
  {
  }

  lemma WaitingConcat<S>(a: seq<Request<S>>, b: seq<Request<S>>)
    ensures Waiting(a + b) == Waiting(a) + Waiting(b)
  {
  }

  /** The transaction that request number `i` of a log was in. */
  function BatchOf<S>(log: seq<Flushed<S>>, i: nat): (b: nat)
    requires i < |Flatten(log)|
    ensures b < |log|
  {
    if i < |Flatten(log[..|log| - 1])| then BatchOf(log[..|log| - 1], i) else |log| - 1
  }

  /** A request of a log is in the batch that `BatchOf` names, and among the replies it is answered with an error if
      that transaction did not begin. */
  lemma {:induction false} LoggedReply<D, S>(exec: (D, S) -> (D, Answer), db: D, log: seq<Flushed<S>>, i: nat)
    requires i < |Flatten(log)|
    ensures var r := Replay(exec, db, log).replies; var f := log[BatchOf(log, i)];
            |r| == |Flatten(log)| && (f.outcome.BeginFails? ==> r[i].answer == Error(f.outcome.text))
  {
    var n := |log| - 1;
    var before := Replay(exec, db, log[..n]);
    var last := Transaction(exec, before.db, log[n]);
    LogAnswersAll(exec, db, log);
    LogAnswersAll(exec, db, log[..n]);
    assert |Answered(Replay(exec, db, log).replies)| == |Waiting(Flatten(log))|;
    assert |Answered(before.replies)| == |Waiting(Flatten(log[..n]))|;
    if i < |Flatten(log[..n])| {
      LoggedReply(exec, db, log[..n], i);
    } else {
      assert Replay(exec, db, log).replies[i] == last.replies[i - |before.replies|];
    }
  }

  /** `exec` makes one `done` channel per request. */
  ghost predicate DistinctChannels<S>(reqs: seq<Request<S>>) {
    forall i, k :: 0 <= i < k < |reqs| ==> reqs[i].done != reqs[k].done
  }

  /** With a channel of its own, a request is among the durable ones if and only if its transaction committed. */
  lemma {:induction false} DurableIff<S>(log: seq<Flushed<S>>, i: nat)
    requires i < |Flatten(log)| && DistinctChannels(Flatten(log))
    ensures Flatten(log)[i] in Durable(log) <==> log[BatchOf(log, i)].outcome.Commits?
  {
    var n := |log| - 1;
    var before := Flatten(log[..n]);
    assert Flatten(log) == before + log[n].batch;
    assert forall k :: 0 <= k < |before| ==> Flatten(log)[k] == before[k];
    if i < |before| {
      DurableIff(log[..n], i);
      assert Flatten(log)[i] !in log[n].batch by {
        assert forall k :: 0 <= k < |log[n].batch| ==> log[n].batch[k] == Flatten(log)[|before| + k];
      }
    } else {
      assert Flatten(log)[i] == log[n].batch[i - |before|];
      DurableAreFlushed(log[..n], Flatten(log)[i]);
    }
  }

  lemma {:induction false} DurableAreFlushed<S>(log: seq<Flushed<S>>, req: Request<S>)
    ensures req in Durable(log) ==> req in Flatten(log)
  {
    if log != [] {
      DurableAreFlushed(log[..|log| - 1], req);
    }
  }

  // ---- the writer as a step system ----

  /** Where the goroutine is. In a flush, `next` is the request it will execute or refuse next. */
  datatype Phase<D> =
    | Select
    | Draining
    | Stopping                                     // in the loop of the stop case
    | Flushing(last: bool)                         // before Begin
    | InTx(tx: D, next: nat, last: bool)
    | Refusing(text: string, next: nat, last: bool)  // Begin failed
    | Ended

  /** `sent` is the history of sends. `ch` holds the channel's buffer followed by the values of the callers blocked on
      it: a receive takes the first and lets the first blocked caller in. `db` is the committed database. */
  datatype Desk<D, S> = Desk(
    sent: seq<Request<S>>,
    ch: seq<Request<S>>,
    batch: seq<Request<S>>,
    log: seq<Flushed<S>>,
    db: D,
    replies: seq<Reply>,
    phase: Phase<D>)

  datatype Action<S> =
    | Send(req: Request<S>)
    | Take                    // a receive: by the select, the drain loop or the stop loop
    | Settle                  // the drain loop or the stop loop ends
    | Tick
    | Stop
    | Begin
    | FailBegin(text: string)
    | Exec                    // execute the next statement and answer its caller
    | Commit(ok: bool)
    | Refuse                  // answer the next caller with Begin's error
    | Return                  // leave the flush whose Begin failed

  predicate Enabled<D(==), S(==)>(d: Desk<D, S>, a: Action<S>) {
    match a
    case Send(_) => true
    case Take => d.ch != [] && (d.phase.Select? || (d.phase.Draining? && |d.batch| < MAX_SIZE) || d.phase.Stopping?)
    case Settle =>
      (d.phase.Draining? && (d.ch == [] || |d.batch| >= MAX_SIZE)) || (d.phase.Stopping? && d.ch == [])
    case Tick => d.phase.Select?
    case Stop => d.phase.Select?
    case Begin => d.phase.Flushing?
    case FailBegin(_) => d.phase.Flushing?
    case Exec => d.phase.InTx? && d.phase.next < |d.batch|
    case Commit(_) => d.phase.InTx? && d.phase.next == |d.batch|
    case Refuse => d.phase.Refusing? && d.phase.next < |d.batch|
    case Return => d.phase.Refusing? && d.phase.next == |d.batch|
  }

  function Finished<D, S>(d: Desk<D, S>, outcome: Outcome, last: bool): Desk<D, S> {
    d.(log := d.log + [Flushed(d.batch, outcome, last)], batch := [], phase := if last then Ended else Select)
  }

  function Settled<D, S(==)>(d: Desk<D, S>): Phase<D> {
    if d.phase.Stopping? then (if d.batch == [] then Ended else Flushing(true))
    else if |d.batch| >= MAX_SIZE then Flushing(false)
    else Select
  }

  function Next<D(==), S(==)>(exec: (D, S) -> (D, Answer), d: Desk<D, S>, a: Action<S>): Desk<D, S>
    requires Enabled(d, a)
  {
    match a
    case Send(req) => d.(sent := d.sent + [req], ch := d.ch + [req])
    case Take =>
      d.(batch := d.batch + [d.ch[0]], ch := d.ch[1..], phase := if d.phase.Select? then Draining else d.phase)
    case Settle => d.(phase := Settled(d))
    case Tick => if d.batch == [] then d else d.(phase := Flushing(false))
    case Stop => d.(phase := Stopping)
    case Begin => d.(phase := InTx(d.db, 0, d.phase.last))
    case FailBegin(text) => d.(phase := Refusing(text, 0, d.phase.last))
    case Exec =>
      var req := d.batch[d.phase.next];
      var (tx, answer) := exec(d.phase.tx, req.stmt);
      d.(replies := d.replies + [Reply(req.done, answer)], phase := InTx(tx, d.phase.next + 1, d.phase.last))
    case Commit(ok) =>
      var done := if ok then d.(db := d.phase.tx) else d;
      Finished(done, if ok then Commits else CommitFails, d.phase.last)
    case Refuse =>
      var refusal := Reply(d.batch[d.phase.next].done, Error(d.phase.text));
      d.(replies := d.replies + [refusal], phase := d.phase.(next := d.phase.next + 1))
    case Return => Finished(d, BeginFails(d.phase.text), d.phase.last)
  }

  function Open<D, S>(db: D): Desk<D, S> { Desk([], [], [], [], db, [], Select) }

  ghost predicate IsRun<D, S>(exec: (D, S) -> (D, Answer), d: Desk<D, S>, acts: seq<Action<S>>)
    decreases |acts|, 0
  {
    acts == [] || var n := |acts| - 1; IsRun(exec, d, acts[..n]) && Enabled(After(exec, d, acts[..n]), acts[n])
  }

  ghost function After<D, S>(exec: (D, S) -> (D, Answer), d: Desk<D, S>, acts: seq<Action<S>>): Desk<D, S>
    requires IsRun(exec, d, acts)
    decreases |acts|, 1
  {
    if acts == [] then d else
      var n := |acts| - 1; Next(exec, After(exec, d, acts[..n]), acts[n])
  }

  lemma RunSnoc<D, S>(exec: (D, S) -> (D, Answer), d: Desk<D, S>, acts: seq<Action<S>>, a: Action<S>)
    requires IsRun(exec, d, acts) && Enabled(After(exec, d, acts), a)
    ensures IsRun(exec, d, acts + [a]) && After(exec, d, acts + [a]) == Next(exec, After(exec, d, acts), a)
  {
    assert (acts + [a])[..|acts|] == acts;
  }

  // ---- the invariant ----

  /** The replies of the flush in progress. */
  function Underway<D, S>(exec: (D, S) -> (D, Answer), d: Desk<D, S>): seq<Reply> {
    match d.phase
    case InTx(_, next, _) => if next <= |d.batch| then Sequential(exec, d.db, d.batch[..next]).replies else []
    case Refusing(text, next, _) => if next <= |d.batch| then Refusals(d.batch[..next], text) else []
    case _ => []
  }

  /** The open transaction holds the effect of what it executed so far, on top of the committed database. */
  ghost predicate FlushInv<D, S>(exec: (D, S) -> (D, Answer), d: Desk<D, S>) {
    && (d.phase.InTx? ==> d.phase.next <= |d.batch| && d.phase.tx == Sequential(exec, d.db, d.batch[..d.phase.next]).db)
    && (d.phase.Refusing? ==> d.phase.next <= |d.batch|)
  }

  /** Database and replies are those of the finished transactions, and of the one in progress. */
  ghost predicate EffectInv<D, S>(exec: (D, S) -> (D, Answer), start: D, d: Desk<D, S>) {
    && d.db == Replay(exec, start, d.log).db
    && d.replies == Replay(exec, start, d.log).replies + Underway(exec, d)
  }

  predicate Last<D>(p: Phase<D>) {
    match p
    case Flushing(last) => last
    case InTx(_, _, last) => last
    case Refusing(_, _, last) => last
    case _ => false
  }

  predicate InFlush<D>(p: Phase<D>) { p.Flushing? || p.InTx? || p.Refusing? }

  /** Every transaction has at least one request and, outside the stop case, at most 500. */
  ghost predicate SizeInv<D, S>(d: Desk<D, S>) {
    && (forall i :: 0 <= i < |d.log| ==> d.log[i].batch != [] && (|d.log[i].batch| <= MAX_SIZE || d.log[i].last))
    && (forall i :: 0 <= i < |d.log| && d.log[i].last ==> i == |d.log| - 1 && d.phase.Ended?)
    && (d.phase.Select? ==> |d.batch| < MAX_SIZE)
    && (d.phase.Draining? ==> |d.batch| <= MAX_SIZE)
    && (InFlush(d.phase) ==> d.batch != [] && (|d.batch| <= MAX_SIZE || Last(d.phase)))
    && (d.phase.Ended? ==> d.batch == [])
  }

  /** Nothing is lost, duplicated or reordered: flushed, collected and waiting requests are those sent. */
  predicate HistoryInv<D(==), S(==)>(d: Desk<D, S>) {
    d.sent == Flatten(d.log) + (d.batch + d.ch)
  }

  ghost predicate Inv<D, S>(exec: (D, S) -> (D, Answer), start: D, d: Desk<D, S>) {
    FlushInv(exec, d) && EffectInv(exec, start, d) && SizeInv(d) && HistoryInv(d)
  }

  lemma KeepsSizes<D, S>(exec: (D, S) -> (D, Answer), d: Desk<D, S>, a: Action<S>)
    requires SizeInv(d) && Enabled(d, a)
    ensures SizeInv(Next(exec, d, a))
  {
  }

  lemma FlattenSnoc<S>(log: seq<Flushed<S>>, f: Flushed<S>)
    ensures Flatten(log + [f]) == Flatten(log) + f.batch
  {
    assert (log + [f])[..|log|] == log;
  }

  lemma FinishKeepsHistory<D, S>(d: Desk<D, S>, outcome: Outcome, last: bool)
    requires HistoryInv(d)
    ensures HistoryInv(Finished(d, outcome, last))
  {
    FlattenSnoc(d.log, Flushed(d.batch, outcome, last));
    assert Flatten(d.log) + (d.batch + d.ch) == Flatten(d.log) + d.batch + ([] + d.ch);
  }

  lemma SendKeepsHistory<D, S>(exec: (D, S) -> (D, Answer), d: Desk<D, S>, req: Request<S>)
    requires HistoryInv(d)
    ensures HistoryInv(Next(exec, d, Send(req)))
  {
    assert Flatten(d.log) + (d.batch + d.ch) + [req] == Flatten(d.log) + (d.batch + (d.ch + [req]));
  }

  lemma KeepsHistory<D, S>(exec: (D, S) -> (D, Answer), d: Desk<D, S>, a: Action<S>)
    requires HistoryInv(d) && Enabled(d, a)
    ensures HistoryInv(Next(exec, d, a))
  {
    match a
    case Send(req) => SendKeepsHistory(exec, d, req);
    case Take => assert d.batch + [d.ch[0]] + d.ch[1..] == d.batch + d.ch;
    case Commit(ok) =>
      FinishKeepsHistory(if ok then d.(db := d.phase.tx) else d, if ok then Commits else CommitFails, d.phase.last);
    case Return => FinishKeepsHistory(d, Outcome.BeginFails(d.phase.text), d.phase.last);
    case _ =>
  }

  lemma SequentialSnoc<D, S>(exec: (D, S) -> (D, Answer), db: D, batch: seq<Request<S>>, i: nat)
    requires i < |batch|
    ensures var before := Sequential(exec, db, batch[..i]); var (db', answer) := exec(before.db, batch[i].stmt);
            Sequential(exec, db, batch[..i + 1]) == Effect(db', before.replies + [Reply(batch[i].done, answer)])
  {
    assert batch[..i + 1][..i] == batch[..i];
  }

  lemma RefusalsSnoc<S>(batch: seq<Request<S>>, i: nat, text: string)
    requires i < |batch|
    ensures Refusals(batch[..i + 1], text) == Refusals(batch[..i], text) + [Reply(batch[i].done, Error(text))]
  {
  }

  lemma ReplaySnoc<D, S>(exec: (D, S) -> (D, Answer), start: D, log: seq<Flushed<S>>, f: Flushed<S>)
    ensures var before := Replay(exec, start, log); var last := Transaction(exec, before.db, f);
            Replay(exec, start, log + [f]) == Effect(last.db, before.replies + last.replies)
  {
    assert (log + [f])[..|log|] == log;
  }

  /** One execution adds its reply to those underway and its effect to the open transaction. */
  lemma ExecAdvances<D, S>(exec: (D, S) -> (D, Answer), d: Desk<D, S>)
    requires FlushInv(exec, d) && Enabled(d, Exec)
    ensures var e := Next(exec, d, Exec);
            && FlushInv(exec, e) && e.replies == d.replies + [e.replies[|d.replies|]]
            && Underway(exec, e) == Underway(exec, d) + [e.replies[|d.replies|]]
  {
    SequentialSnoc(exec, d.db, d.batch, d.phase.next);
  }

  lemma ReplyKeeps<D, S>(exec: (D, S) -> (D, Answer), start: D, d: Desk<D, S>, e: Desk<D, S>, r: Reply)
    requires EffectInv(exec, start, d) && e.db == d.db && e.log == d.log && e.replies == d.replies + [r]
    requires Underway(exec, e) == Underway(exec, d) + [r]
    ensures EffectInv(exec, start, e)
  {
    var before := Replay(exec, start, d.log).replies;
    assert before + Underway(exec, d) + [r] == before + (Underway(exec, d) + [r]);
  }

  lemma ExecKeeps<D, S>(exec: (D, S) -> (D, Answer), start: D, d: Desk<D, S>)
    requires FlushInv(exec, d) && EffectInv(exec, start, d) && Enabled(d, Exec)
    ensures FlushInv(exec, Next(exec, d, Exec)) && EffectInv(exec, start, Next(exec, d, Exec))
  {
    ExecAdvances(exec, d);
    var e := Next(exec, d, Exec);
    ReplyKeeps(exec, start, d, e, e.replies[|d.replies|]);
  }

  lemma RefuseKeeps<D, S>(exec: (D, S) -> (D, Answer), start: D, d: Desk<D, S>)
    requires FlushInv(exec, d) && EffectInv(exec, start, d) && Enabled(d, Refuse)
    ensures FlushInv(exec, Next(exec, d, Refuse)) && EffectInv(exec, start, Next(exec, d, Refuse))
  {
    RefusalsSnoc(d.batch, d.phase.next, d.phase.text);
  }

  /** A transaction that ends as `Transaction` says, with the replies already sent, keeps the account. */
  lemma FinishKeepsEffect<D, S>(exec: (D, S) -> (D, Answer), start: D, d: Desk<D, S>, db: D, f: Flushed<S>)
    requires EffectInv(exec, start, d) && f.batch == d.batch
    requires Transaction(exec, d.db, f) == Effect(db, Underway(exec, d))
    ensures EffectInv(exec, start, Finished(d.(db := db), f.outcome, f.last))
  {
    ReplaySnoc(exec, start, d.log, f);
  }

  lemma CommitKeeps<D, S>(exec: (D, S) -> (D, Answer), start: D, d: Desk<D, S>, ok: bool)
    requires FlushInv(exec, d) && EffectInv(exec, start, d) && Enabled(d, Commit(ok))
    ensures EffectInv(exec, start, Next(exec, d, Commit(ok)))
  {
    WholeBatch(d.batch);
    var f := Flushed(d.batch, if ok then Commits else CommitFails, d.phase.last);
    FinishKeepsEffect(exec, start, d, if ok then d.phase.tx else d.db, f);
  }

  lemma ReturnKeeps<D, S>(exec: (D, S) -> (D, Answer), start: D, d: Desk<D, S>)
    requires FlushInv(exec, d) && EffectInv(exec, start, d) && Enabled(d, Return)
    ensures EffectInv(exec, start, Next(exec, d, Return))
  {
    WholeBatch(d.batch);
    FinishKeepsEffect(exec, start, d, d.db, Flushed(d.batch, Outcome.BeginFails(d.phase.text), d.phase.last));
  }

  lemma WholeBatch<S>(batch: seq<Request<S>>)
    ensures batch[..|batch|] == batch
  {
  }

  lemma NextKeepsInv<D, S>(exec: (D, S) -> (D, Answer), start: D, d: Desk<D, S>, a: Action<S>)
    requires Inv(exec, start, d) && Enabled(d, a)
    ensures Inv(exec, start, Next(exec, d, a))
  {
    KeepsSizes(exec, d, a);
    KeepsHistory(exec, d, a);
    match a
    case Exec => ExecKeeps(exec, start, d);
    case Commit(ok) => CommitKeeps(exec, start, d, ok);
    case Refuse => RefuseKeeps(exec, start, d);
    case Return => ReturnKeeps(exec, start, d);
    case _ =>
  }

  lemma {:induction false} RunKeepsInv<D, S>(exec: (D, S) -> (D, Answer), start: D, acts: seq<Action<S>>)
    requires IsRun(exec, Open(start), acts)
    ensures Inv(exec, start, After(exec, Open(start), acts))
    decreases |acts|
  {
    if acts != [] {
      var n := |acts| - 1;
      RunKeepsInv(exec, start, acts[..n]);
      NextKeepsInv(exec, start, After(exec, Open(start), acts[..n]), acts[n]);
    }
  }

  // ---- the claims, in every state of every run ----

  /** The replies so far went, one each and in order, to the callers of the first requests sent, whatever fails: those
      of the finished transactions and those the flush in progress has reached. */
  lemma OneReplyEach<D, S>(exec: (D, S) -> (D, Answer), start: D, acts: seq<Action<S>>)
    requires IsRun(exec, Open(start), acts)
    ensures var d := After(exec, Open(start), acts);
            && |d.replies| <= |d.sent| && Answered(d.replies) == Waiting(d.sent[..|d.replies|])
            && |d.replies| == |Flatten(d.log)| + (if d.phase.InTx? || d.phase.Refusing? then d.phase.next else 0)
  {
    RunKeepsInv(exec, start, acts);
    var d := After(exec, Open(start), acts);
    var n := |Underway(exec, d)|;
    LogAnswersAll(exec, start, d.log);
    UnderwayAnswers(exec, d);
    AnsweredConcat(Replay(exec, start, d.log).replies, Underway(exec, d));
    assert |Answered(Replay(exec, start, d.log).replies)| == |Waiting(Flatten(d.log))|;
    assert d.sent[..|d.replies|] == Flatten(d.log) + d.batch[..n];
    WaitingConcat(Flatten(d.log), d.batch[..n]);
  }

  lemma UnderwayAnswers<D, S>(exec: (D, S) -> (D, Answer), d: Desk<D, S>)
    requires FlushInv(exec, d)
    ensures |Underway(exec, d)| == (if d.phase.InTx? || d.phase.Refusing? then d.phase.next else 0)
    ensures |Underway(exec, d)| <= |d.batch| && Answered(Underway(exec, d)) == Waiting(d.batch[..|Underway(exec, d)|])
  {
    if d.phase.InTx? {
      SequentialAnswersAll(exec, d.db, d.batch[..d.phase.next]);
      assert |Answered(Underway(exec, d))| == |Waiting(d.batch[..d.phase.next])|;
    }
  }

  /** The first replies are those of the finished transactions, the rest those of the flush in progress. */
  lemma ReplySplit<D, S>(exec: (D, S) -> (D, Answer), start: D, d: Desk<D, S>)
    requires EffectInv(exec, start, d)
    ensures |Replay(exec, start, d.log).replies| == |Flatten(d.log)|
    ensures |d.replies| == |Flatten(d.log)| + |Underway(exec, d)|
  {
    LogAnswersAll(exec, start, d.log);
    assert |Answered(Replay(exec, start, d.log).replies)| == |Waiting(Flatten(d.log))|;
  }

  lemma NilInLog<D, S>(exec: (D, S) -> (D, Answer), start: D, d: Desk<D, S>, i: nat)
    requires EffectInv(exec, start, d) && i < |Flatten(d.log)| && i < |d.replies| && d.replies[i].answer.Nil?
    ensures !d.log[BatchOf(d.log, i)].outcome.BeginFails?
  {
    ReplySplit(exec, start, d);
    LoggedReply(exec, start, d.log, i);
    assert d.replies[i] == Replay(exec, start, d.log).replies[i];
  }

  lemma NilUnderway<D, S>(exec: (D, S) -> (D, Answer), start: D, d: Desk<D, S>, i: nat)
    requires Inv(exec, start, d) && |Flatten(d.log)| <= i < |d.replies| && d.replies[i].answer.Nil?
    ensures d.phase.InTx? && i - |Flatten(d.log)| < d.phase.next <= |d.batch|
  {
    ReplySplit(exec, start, d);
    UnderwayAnswers(exec, d);
    assert d.replies[i] == Underway(exec, d)[i - |Flatten(d.log)|];
  }

  /** What a nil answer promises at any moment: the request is in a committed transaction, in the transaction still
      open, or in one whose commit failed. It was not refused. */
  lemma NilMeansRan<D, S>(exec: (D, S) -> (D, Answer), start: D, acts: seq<Action<S>>, i: nat)
    requires IsRun(exec, Open(start), acts) && i < |After(exec, Open(start), acts).replies|
    requires After(exec, Open(start), acts).replies[i].answer.Nil?
    ensures var d := After(exec, Open(start), acts); var k := |Flatten(d.log)|;
            && i < |d.sent| && d.replies[i].done == d.sent[i].done
            && (if i < k then var f := d.log[BatchOf(d.log, i)]; f.outcome.Commits? || f.outcome.CommitFails?
                else d.phase.InTx? && i - k < d.phase.next <= |d.batch| && d.batch[i - k] == d.sent[i])
  {
    RunKeepsInv(exec, start, acts);
    OneReplyEach(exec, start, acts);
    var d := After(exec, Open(start), acts);
    assert Answered(d.replies)[i] == Waiting(d.sent[..|d.replies|])[i];
    if i < |Flatten(d.log)| {
      NilInLog(exec, start, d, i);
    } else {
      NilUnderway(exec, start, d, i);
    }
  }

  /** Nil does not mean persisted. The exact account, at any moment of any run with one channel per request: a request
      is among those whose execution makes up the committed database if and only if its transaction has finished and
      committed. */
  lemma PersistedIff<D, S>(exec: (D, S) -> (D, Answer), start: D, acts: seq<Action<S>>, i: nat)
    requires IsRun(exec, Open(start), acts) && i < |After(exec, Open(start), acts).sent|
    requires DistinctChannels(After(exec, Open(start), acts).sent)
    ensures var d := After(exec, Open(start), acts);
            && d.db == Sequential(exec, start, Durable(d.log)).db
            && (d.sent[i] in Durable(d.log) <==>
                i < |Flatten(d.log)| && d.log[BatchOf(d.log, i)].outcome.Commits?)
  {
    RunKeepsInv(exec, start, acts);
    var d := After(exec, Open(start), acts);
    var flushed := Flatten(d.log);
    DatabaseIsDurablePart(exec, start, d.log);
    assert forall k :: 0 <= k < |flushed| ==> d.sent[k] == flushed[k];
    if i < |flushed| {
      DurableIff(d.log, i);
    } else {
      DurableAreFlushed(d.log, d.sent[i]);
    }
  }

  ghost predicate Reached<D, S>(exec: (D, S) -> (D, Answer), start: D, acts: seq<Action<S>>, d: Desk<D, S>) {
    IsRun(exec, Open(start), acts) && After(exec, Open(start), acts) == d
  }

  lemma ReachNext<D, S>(exec: (D, S) -> (D, Answer), start: D, acts: seq<Action<S>>, d: Desk<D, S>, a: Action<S>)
      returns (acts': seq<Action<S>>)
    requires Reached(exec, start, acts, d) && Enabled(d, a)
    ensures Reached(exec, start, acts', Next(exec, d, a))
  {
    RunSnoc(exec, Open(start), acts, a);
    acts' := acts + [a];
  }

  /** A single write, up to the flush of its batch. */
  lemma WriteCollected<D, S>(exec: (D, S) -> (D, Answer), start: D, req: Request<S>) returns (acts: seq<Action<S>>)
    ensures Reached(exec, start, acts, Open(start).(sent := [req], batch := [req], phase := Flushing(false)))
  {
    var sent := Open(start).(sent := [req], ch := [req]);
    var taken := Open(start).(sent := [req], batch := [req], phase := Draining);
    acts := ReachNext(exec, start, [], Open(start), Send(req));
    acts := ReachNext(exec, start, acts, sent, Take);
    acts := ReachNext(exec, start, acts, taken, Settle);
    acts := ReachNext(exec, start, acts, taken.(phase := Select), Tick);
  }

  /** So a caller can hold a nil answer to a write that is not in the database, and never will be: the reply is sent
      inside the transaction, and the commit that follows it may fail. */
  lemma NilBeforeCommit<D, S>(exec: (D, S) -> (D, Answer), start: D, req: Request<S>) returns (acts: seq<Action<S>>)
    requires exec(start, req.stmt).1.Nil?
    ensures IsRun(exec, Open(start), acts)
    ensures var d := After(exec, Open(start), acts);
            && d.replies == [Reply(req.done, Nil)] && d.db == start && Enabled(d, Commit(false))
            && Next(exec, d, Commit(false)).db == start && Next(exec, d, Commit(false)).phase.Select?
  {
    acts := WriteCollected(exec, start, req);
    var d := Open(start).(sent := [req], batch := [req], phase := Flushing(false));
    acts := ReachNext(exec, start, acts, d, Begin);
    acts := ReachNext(exec, start, acts, d.(phase := InTx(start, 0, false)), Exec);
  }

  /** The writer refines one-by-one execution in every state of every run whose transactions begin and commit: the
      committed database is that of a prefix of the requests sent, and the replies are those of a prefix that may be
      ahead of it by what the open transaction has executed. With nothing left to do both are those of all requests. */
  lemma WriterRefinesSequential<D, S>(exec: (D, S) -> (D, Answer), start: D, acts: seq<Action<S>>)
    requires IsRun(exec, Open(start), acts) && !After(exec, Open(start), acts).phase.Refusing?
    requires forall f :: f in After(exec, Open(start), acts).log ==> f.outcome.Commits?
    ensures var d := After(exec, Open(start), acts);
            && |Flatten(d.log)| <= |d.replies| <= |d.sent|
            && d.db == Sequential(exec, start, d.sent[..|Flatten(d.log)|]).db
            && d.replies == Sequential(exec, start, d.sent[..|d.replies|]).replies
            && (d.batch == [] && d.ch == [] ==> Effect(d.db, d.replies) == Sequential(exec, start, d.sent))
  {
    RunKeepsInv(exec, start, acts);
    OneReplyEach(exec, start, acts);
    var d := After(exec, Open(start), acts);
    var n := |Underway(exec, d)|;
    UnderwayAnswers(exec, d);
    BatchingIsInvisible(exec, start, d.log);
    assert d.sent[..|Flatten(d.log)|] == Flatten(d.log);
    assert d.sent[..|d.replies|] == Flatten(d.log) + d.batch[..n];
    SequentialConcat(exec, start, Flatten(d.log), d.batch[..n]);
  }

  /** Batch sizes in every run: 1 to 500, except for the transaction of the stop case, which is the last. */
  lemma BatchesAreBounded<D, S>(exec: (D, S) -> (D, Answer), start: D, acts: seq<Action<S>>, i: nat)
    requires IsRun(exec, Open(start), acts) && i < |After(exec, Open(start), acts).log|
    ensures var d := After(exec, Open(start), acts);
            && 1 <= |d.log[i].batch| && (|d.log[i].batch| <= MAX_SIZE || d.log[i].last)
            && (d.log[i].last ==> i == |d.log| - 1 && d.phase.Ended?)
  {
    RunKeepsInv(exec, start, acts);
  }

  /** No request is lost, duplicated or reordered, in any state of any run. */
  lemma {:induction false} NothingLost<D, S>(exec: (D, S) -> (D, Answer), start: D, acts: seq<Action<S>>)
    requires IsRun(exec, Open(start), acts)
    ensures var d := After(exec, Open(start), acts);
            d.sent == Sent(acts) && d.sent == Flatten(d.log) + (d.batch + d.ch)
  {
    RunKeepsInv(exec, start, acts);
    SentIsHistory(exec, Open(start), acts);
  }

  /** The requests sent in a run. */
  function Sent<S>(acts: seq<Action<S>>): seq<Request<S>> {
    if acts == [] then [] else
      Sent(acts[..|acts| - 1]) + (if acts[|acts| - 1].Send? then [acts[|acts| - 1].req] else [])
  }

  lemma {:induction false} SentIsHistory<D, S>(exec: (D, S) -> (D, Answer), d: Desk<D, S>, acts: seq<Action<S>>)
    requires IsRun(exec, d, acts)
    ensures After(exec, d, acts).sent == d.sent + Sent(acts)
    decreases |acts|
  {
    if acts != [] {
      SentIsHistory(exec, d, acts[..|acts| - 1]);
    }
  }

  /** After the goroutine returned nothing changes any more: later requests stay in the channel, unanswered. */
  lemma {:induction false} NothingAfterStop<D, S>(exec: (D, S) -> (D, Answer), d: Desk<D, S>, acts: seq<Action<S>>)
    requires d.phase.Ended? && IsRun(exec, d, acts)
    ensures After(exec, d, acts) == d.(sent := d.sent + Sent(acts), ch := d.ch + Sent(acts))
    decreases |acts|
  {
    if acts != [] {
      NothingAfterStop(exec, d, acts[..|acts| - 1]);
    }
  }

  /** On the way from the end of the stop loop to the return, the requests of the last transaction stay the same. */
  ghost predicate Closing<D, S>(d: Desk<D, S>, reqs: seq<Request<S>>) {
    (Last(d.phase) || d.phase.Ended?) && Flatten(d.log) + d.batch == reqs && (d.phase.Ended? ==> d.batch == [])
  }

  lemma FinishCloses<D, S>(d: Desk<D, S>, outcome: Outcome, reqs: seq<Request<S>>)
    requires Flatten(d.log) + d.batch == reqs
    ensures Closing(Finished(d, outcome, true), reqs)
  {
    FlattenSnoc(d.log, Flushed(d.batch, outcome, true));
    assert reqs + [] == reqs;
  }

  lemma ClosingStep<D, S>(exec: (D, S) -> (D, Answer), d: Desk<D, S>, a: Action<S>, reqs: seq<Request<S>>)
    requires Closing(d, reqs) && Enabled(d, a)
    ensures Closing(Next(exec, d, a), reqs)
  {
    match a
    case Commit(ok) => FinishCloses(if ok then d.(db := d.phase.tx) else d, if ok then Commits else CommitFails, reqs);
    case Return => FinishCloses(d, Outcome.BeginFails(d.phase.text), reqs);
    case _ =>
  }

  lemma {:induction false} RunCloses<D, S>(exec: (D, S) -> (D, Answer), d: Desk<D, S>, acts: seq<Action<S>>,
                                           reqs: seq<Request<S>>)
    requires Closing(d, reqs) && IsRun(exec, d, acts)
    ensures Closing(After(exec, d, acts), reqs)
    decreases |acts|
  {
    if acts != [] {
      var n := |acts| - 1;
      RunCloses(exec, d, acts[..n], reqs);
      ClosingStep(exec, After(exec, d, acts[..n]), acts[n], reqs);
    }
  }

  /** The stop flushes everything: when the goroutine has returned, whatever happened in between, exactly the requests
      sent before its stop loop found the channel empty have been flushed. */
  lemma StopFlushesAll<D, S>(exec: (D, S) -> (D, Answer), start: D, d: Desk<D, S>, acts: seq<Action<S>>)
    requires Inv(exec, start, d) && d.phase.Stopping? && Enabled(d, Settle)
    requires IsRun(exec, Next(exec, d, Settle), acts) && After(exec, Next(exec, d, Settle), acts).phase.Ended?
    ensures Flatten(After(exec, Next(exec, d, Settle), acts).log) == d.sent
  {
    var e := Next(exec, d, Settle);
    assert d.batch + [] == d.batch;
    RunCloses(exec, e, acts, d.sent);
    var t := After(exec, e, acts);
    assert Flatten(t.log) + [] == Flatten(t.log);
  }

  // ---- progress ----

  /** The goroutine moves, other than by finding nothing to flush. A send is the callers' step, a stop the closer's. */
  predicate Advances<D, S(==)>(d: Desk<D, S>, a: Action<S>) {
    !a.Send? && !a.Stop? && !(a.Tick? && d.batch == [])
  }

  /** How many steps the phase still needs to the next wait, and the requests after it. */
  function Backlog<D, S>(d: Desk<D, S>): (n: nat)
    ensures n >= 6 * |d.ch|
  {
    6 * |d.ch| +
    match d.phase
    case Select => 4 * |d.batch|
    case Draining => 4 * |d.batch| + 1
    case Stopping => 4 * |d.batch| + 1
    case Flushing(_) => |d.batch| + 2
    case InTx(_, next, _) => if next <= |d.batch| then |d.batch| - next + 1 else 0
    case Refusing(_, next, _) => if next <= |d.batch| then |d.batch| - next + 1 else 0
    case Ended => 0
  }

  /** Every receive, settled loop, tick with something to flush, begin, execution, reply and commit lowers the backlog;
      a send adds six to it and a stop one. */
  lemma BacklogFalls<D, S>(exec: (D, S) -> (D, Answer), d: Desk<D, S>, a: Action<S>)
    requires Enabled(d, a)
    ensures Advances(d, a) ==> Backlog(Next(exec, d, a)) < Backlog(d)
    ensures !Advances(d, a) ==>
              Backlog(Next(exec, d, a)) == Backlog(d) + (if a.Send? then 6 else if a.Stop? then 1 else 0)
  {
  }

  /** How many steps of a run advance the goroutine, and how much sends and stops gave it to do. */
  ghost function Steps<D, S>(exec: (D, S) -> (D, Answer), d: Desk<D, S>, acts: seq<Action<S>>): nat
    requires IsRun(exec, d, acts)
    decreases |acts|
  {
    if acts == [] then 0 else
      var n := |acts| - 1;
      Steps(exec, d, acts[..n]) + (if Advances(After(exec, d, acts[..n]), acts[n]) then 1 else 0)
  }

  function Given<S>(acts: seq<Action<S>>): nat {
    if acts == [] then 0 else
      var a := acts[|acts| - 1];
      Given(acts[..|acts| - 1]) + (if a.Send? then 6 else if a.Stop? then 1 else 0)
  }

  /** No run makes the goroutine take more steps than its backlog and what it was given since. */
  lemma {:induction false} StepsAreBounded<D, S>(exec: (D, S) -> (D, Answer), d: Desk<D, S>, acts: seq<Action<S>>)
    requires IsRun(exec, d, acts)
    ensures Steps(exec, d, acts) + Backlog(After(exec, d, acts)) <= Backlog(d) + Given(acts)
    decreases |acts|
  {
    if acts != [] {
      var n := |acts| - 1;
      StepsAreBounded(exec, d, acts[..n]);
      BacklogFalls(exec, After(exec, d, acts[..n]), acts[n]);
    }
  }

  /** The goroutine can make no step that advances it. */
  ghost predicate Idle<D, S(!new)>(d: Desk<D, S>) { forall a :: Enabled(d, a) ==> !Advances(d, a) }

  lemma IdleMeansWaiting<D, S(!new)>(d: Desk<D, S>)
    requires Idle(d) && SizeInv(d)
    requires d.phase.InTx? || d.phase.Refusing? ==> d.phase.next <= |d.batch|
    ensures d.phase.Ended? || (d.phase.Select? && d.batch == [] && d.ch == [])
  {
    assert !(Enabled(d, Take) && Advances(d, Take));
    assert !(Enabled(d, Settle) && Advances(d, Settle));
    assert !(Enabled(d, Tick) && Advances(d, Tick));
    assert !(Enabled(d, Begin) && Advances(d, Begin));
    assert !(Enabled(d, Exec) && Advances(d, Exec));
    assert !(Enabled(d, Commit(true)) && Advances(d, Commit(true)));
    assert !(Enabled(d, Refuse) && Advances(d, Refuse));
    assert !(Enabled(d, Return) && Advances(d, Return));
  }

  /** Every caller is answered: after any history the goroutine takes boundedly many steps, and when it can take no
      more, ticks included, either it has returned, or every request ever sent has been flushed and answered. */
  lemma WriterDrains<D, S(!new)>(exec: (D, S) -> (D, Answer), start: D, acts: seq<Action<S>>)
    requires IsRun(exec, Open(start), acts)
    ensures var d := After(exec, Open(start), acts);
            && Steps(exec, Open(start), acts) <= Given(acts)
            && (Idle(d) && !d.phase.Ended? ==>
                  && d.phase.Select? && Flatten(d.log) == Sent(acts) && Answered(d.replies) == Waiting(Sent(acts)))
  {
    var d := After(exec, Open(start), acts);
    StepsAreBounded(exec, Open(start), acts);
    RunKeepsInv(exec, start, acts);
    NothingLost(exec, start, acts);
    if Idle(d) && !d.phase.Ended? {
      IdleMeansWaiting(d);
      OneReplyEach(exec, start, acts);
      assert d.sent == Flatten(d.log) + ([] + []);
      assert d.sent[..|d.replies|] == d.sent;
    }
  }

  /** No case of the select fires. */
  predicate NoNewTurn<S(==)>(acts: seq<Action<S>>) { forall a :: a in acts ==> !a.Take? && !a.Tick? && !a.Stop? }

  /** On the way from a tick to the next wait, the requests of the transaction stay the same. */
  ghost predicate FlushingOut<D, S>(d: Desk<D, S>, reqs: seq<Request<S>>) {
    && Flatten(d.log) + d.batch == reqs
    && ((InFlush(d.phase) && !Last(d.phase)) || (d.phase.Select? && d.batch == []))
  }

  lemma FinishFlushesOut<D, S>(d: Desk<D, S>, outcome: Outcome, reqs: seq<Request<S>>)
    requires Flatten(d.log) + d.batch == reqs
    ensures FlushingOut(Finished(d, outcome, false), reqs)
  {
    FlattenSnoc(d.log, Flushed(d.batch, outcome, false));
    assert reqs + [] == reqs;
  }

  lemma FlushOutStep<D, S>(exec: (D, S) -> (D, Answer), d: Desk<D, S>, a: Action<S>, reqs: seq<Request<S>>)
    requires FlushingOut(d, reqs) && Enabled(d, a) && !a.Take? && !a.Tick? && !a.Stop?
    ensures FlushingOut(Next(exec, d, a), reqs)
  {
    match a
    case Commit(ok) =>
      FinishFlushesOut(if ok then d.(db := d.phase.tx) else d, if ok then Commits else CommitFails, reqs);
    case Return => FinishFlushesOut(d, Outcome.BeginFails(d.phase.text), reqs);
    case _ =>
  }

  lemma {:induction false} RunFlushesOut<D, S>(exec: (D, S) -> (D, Answer), d: Desk<D, S>, acts: seq<Action<S>>,
                                               reqs: seq<Request<S>>)
    requires FlushingOut(d, reqs) && IsRun(exec, d, acts) && NoNewTurn(acts)
    ensures FlushingOut(After(exec, d, acts), reqs)
    decreases |acts|
  {
    if acts != [] {
      var n := |acts| - 1;
      assert acts[n] in acts && forall a :: a in acts[..n] ==> a in acts;
      RunFlushesOut(exec, d, acts[..n], reqs);
      FlushOutStep(exec, After(exec, d, acts[..n]), acts[n], reqs);
    }
  }

  lemma {:induction false} RunsOn<D, S>(exec: (D, S) -> (D, Answer), start: D, d: Desk<D, S>, acts: seq<Action<S>>)
    requires Inv(exec, start, d) && IsRun(exec, d, acts)
    ensures Inv(exec, start, After(exec, d, acts))
    decreases |acts|
  {
    if acts != [] {
      var n := |acts| - 1;
      RunsOn(exec, start, d, acts[..n]);
      NextKeepsInv(exec, start, After(exec, d, acts[..n]), acts[n]);
    }
  }

  /** At a wait the callers answered are exactly those of the flushed requests. */
  lemma AnsweredAtWait<D, S>(exec: (D, S) -> (D, Answer), start: D, d: Desk<D, S>)
    requires EffectInv(exec, start, d) && d.phase.Select?
    ensures Answered(d.replies) == Waiting(Flatten(d.log))
  {
    LogAnswersAll(exec, start, d.log);
    assert Replay(exec, start, d.log).replies + [] == Replay(exec, start, d.log).replies;
  }

  /** A tick flushes whatever has been collected: in every run, from a tick to the next wait, with callers sending all
      the while, the batch is emptied and exactly its callers are answered, in order. */
  lemma TickFlushes<D, S>(exec: (D, S) -> (D, Answer), start: D, before: seq<Action<S>>, acts: seq<Action<S>>)
    requires IsRun(exec, Open(start), before) && Enabled(After(exec, Open(start), before), Tick)
    requires IsRun(exec, Next(exec, After(exec, Open(start), before), Tick), acts) && NoNewTurn(acts)
    requires !InFlush(After(exec, Next(exec, After(exec, Open(start), before), Tick), acts).phase)
    ensures var d := After(exec, Open(start), before); var t := After(exec, Next(exec, d, Tick), acts);
            && t.phase.Select? && t.batch == [] && Flatten(t.log) == Flatten(d.log) + d.batch
            && Answered(t.replies) == Answered(d.replies) + Waiting(d.batch)
  {
    var d := After(exec, Open(start), before);
    var e := Next(exec, d, Tick);
    var t := After(exec, e, acts);
    RunKeepsInv(exec, start, before);
    NextKeepsInv(exec, start, d, Tick);
    RunsOn(exec, start, e, acts);
    RunFlushesOut(exec, e, acts, Flatten(d.log) + d.batch);
    assert Flatten(t.log) + [] == Flatten(t.log);
    AnsweredAtWait(exec, start, d);
    AnsweredAtWait(exec, start, t);
    WaitingConcat(Flatten(d.log), d.batch);
  }

  /** The part of `ch` in the channel's buffer, and the part held by blocked callers. */
  function Buffered<S>(ch: seq<Request<S>>): seq<Request<S>> { if |ch| <= CHANNEL_CAP then ch else ch[..CHANNEL_CAP] }
  function Blocked<S>(ch: seq<Request<S>>): seq<Request<S>> { if |ch| <= CHANNEL_CAP then [] else ch[CHANNEL_CAP..] }

  /** A receive takes the oldest buffered request and lets the first blocked caller in; so the channel is empty for a
      receiver exactly when nobody waits at all. */
  lemma ReceiveAdmitsSender<S>(ch: seq<Request<S>>)
    requires ch != []
    ensures Buffered(ch) != [] && ch[0] == Buffered(ch)[0]
    ensures Buffered(ch[1..]) == Buffered(ch)[1..] + (if Blocked(ch) == [] then [] else [Blocked(ch)[0]])
    ensures Blocked(ch[1..]) == (if Blocked(ch) == [] then [] else Blocked(ch)[1..])
  {
  }

  // ---- the goroutine ----

  /** What happens while the goroutine waits: a caller sends, or a case of its select fires. The outcome is that of the
      transaction, if the turn flushes. */
  datatype Turn<S> =
    | Sends(req: Request<S>)
    | Receives(outcome: Outcome)
    | Ticks(outcome: Outcome)
    | Stops(outcome: Outcome)

  /** The channel, the batch being collected, the transactions run, and whether the goroutine has returned. */
  datatype Tray<S> = Tray(ch: seq<Request<S>>, batch: seq<Request<S>>, log: seq<Flushed<S>>, ended: bool)

  function Cut<S(==)>(t: Tray<S>, outcome: Outcome, last: bool): Tray<S> {
    if t.batch == [] then t else t.(batch := [], log := t.log + [Flushed(t.batch, outcome, last)])
  }

  function Turned<S(==)>(t: Tray<S>, turn: Turn<S>): Tray<S> {
    if turn.Sends? then t.(ch := t.ch + [turn.req])
    else if t.ended then t
    else match turn
      case Receives(outcome) =>
        var all := t.batch + t.ch;
        if t.ch == [] then t
        else if |all| >= MAX_SIZE then Cut(t.(ch := all[MAX_SIZE..], batch := all[..MAX_SIZE]), outcome, false)
        else t.(ch := [], batch := all)
      case Ticks(outcome) => Cut(t, outcome, false)
      case Stops(outcome) => Cut(t.(ch := [], batch := t.batch + t.ch), outcome, true).(ended := true)
  }

  function Ran<S(==)>(t: Tray<S>, script: seq<Turn<S>>): Tray<S> {
    if script == [] then t else Turned(Ran(t, script[..|script| - 1]), script[|script| - 1])
  }

  /** Since `was`, the callers of the first `n` requests have been answered, in order. */
  ghost predicate AnsweredOn<S>(was: seq<Reply>, reqs: seq<Request<S>>, n: nat, replies: seq<Reply>) {
    n <= |reqs| && Answered(replies) == Answered(was) + Waiting(reqs[..n])
  }

  lemma AnswersNext<S>(was: seq<Reply>, reqs: seq<Request<S>>, n: nat, replies: seq<Reply>, answer: Answer)
    requires AnsweredOn(was, reqs, n, replies) && n < |reqs|
    ensures AnsweredOn(was, reqs, n + 1, replies + [Reply(reqs[n].done, answer)])
  {
    assert Waiting(reqs[..n + 1]) == Waiting(reqs[..n]) + [reqs[n].done];
    AnsweredConcat(replies, [Reply(reqs[n].done, answer)]);
  }

  /** The goroutine on its own fields. `acts` records the steps it and its callers have taken, and `desk` the state they
      lead to, so that everything proved of runs holds of the object whenever `Valid` does: between the statements of
      a loop as well as between turns. */
  class Writer<D(==), S(==)> {
    const exec: (D, S) -> (D, Answer)
    var db: D
    var ch: seq<Request<S>>
    var batch: seq<Request<S>>
    var replies: seq<Reply>
    ghost const start: D
    ghost var acts: seq<Action<S>>
    ghost var desk: Desk<D, S>

    ghost predicate OnRun()
      reads this
    {
      IsRun(exec, Open(start), acts) && desk == After(exec, Open(start), acts)
    }

    ghost predicate Valid()
      reads this
    {
      OnRun() && db == desk.db && ch == desk.ch && batch == desk.batch && replies == desk.replies
    }

    ghost function View(): Tray<S>
      reads this
    {
      Tray(desk.ch, desk.batch, desk.log, desk.phase.Ended?)
    }

    constructor (exec: (D, S) -> (D, Answer), db: D)
      ensures Valid() && desk == Open(db) && start == db && this.exec == exec
    {
      this.exec, this.db, this.start := exec, db, db;
      ch, batch, replies := [], [], [];
      acts, desk := [], Open(db);
    }

    /** Records a step. */
    ghost method Do(a: Action<S>)
      requires OnRun() && Enabled(desk, a)
      modifies this`acts, this`desk
      ensures OnRun() && desk == Next(exec, old(desk), a)
    {
      RunSnoc(exec, Open(start), acts, a);
      acts, desk := acts + [a], Next(exec, desk, a);
    }

    /** One receive from the channel into the batch. */
    method Receive()
      requires Valid() && Enabled(desk, Take)
      modifies this`ch, this`batch, this`acts, this`desk
      ensures Valid() && desk == Next(exec, old(desk), Take)
      ensures batch + ch == old(batch + ch) && |batch| == old(|batch|) + 1
    {
      batch, ch := batch + [ch[0]], ch[1..];
      Do(Take);
    }

    /** `drain`: take ready requests until the channel is empty or the batch is full. */
    method Drain()
      requires Valid() && desk.phase.Draining? && |batch| <= MAX_SIZE
      modifies this`ch, this`batch, this`acts, this`desk
      ensures Valid() && Enabled(desk, Settle) && |batch| <= MAX_SIZE
      ensures batch + ch == old(batch + ch) && desk == old(desk).(ch := ch, batch := batch)
    {
      while |batch| < MAX_SIZE
        invariant Valid() && |batch| <= MAX_SIZE
        invariant batch + ch == old(batch + ch) && desk == old(desk).(ch := ch, batch := batch)
      {
        if ch == [] {
          return;
        }
        Receive();
      }
    }

    /** The loop of `flush` when Begin failed. */
    method RefuseAll(text: string)
      requires Valid() && desk.phase.Refusing? && desk.phase.text == text && desk.phase.next == 0
      modifies this`replies, this`acts, this`desk
      ensures Valid() && desk == old(desk).(replies := replies, phase := old(desk.phase).(next := |batch|))
      ensures Answered(replies) == Answered(old(replies)) + Waiting(batch)
    {
      for i := 0 to |batch|
        invariant Valid() && desk == old(desk).(replies := replies, phase := old(desk.phase).(next := i))
        invariant AnsweredOn(old(replies), batch, i, replies)
      {
        AnswersNext(old(replies), batch, i, replies, Error(text));
        replies := replies + [Reply(batch[i].done, Error(text))];
        Do(Refuse);
      }
      WholeBatch(batch);
    }

    /** The loop of `flush` in an open transaction: every reply is sent in a valid state before the commit. */
    method ExecuteAll() returns (tx: D)
      requires Valid() && desk.phase.InTx? && desk.phase.tx == db && desk.phase.next == 0
      modifies this`replies, this`acts, this`desk
      ensures Valid() && desk == old(desk).(replies := replies, phase := InTx(tx, |batch|, old(desk.phase.last)))
      ensures Answered(replies) == Answered(old(replies)) + Waiting(batch)
    {
      tx := db;
      for i := 0 to |batch|
        invariant Valid() && desk == old(desk).(replies := replies, phase := InTx(tx, i, old(desk.phase.last)))
        invariant AnsweredOn(old(replies), batch, i, replies)
      {
        var (tx', answer) := exec(tx, batch[i].stmt);
        tx := tx';
        AnswersNext(old(replies), batch, i, replies, answer);
        replies := replies + [Reply(batch[i].done, answer)];
        Do(Exec);
      }
      WholeBatch(batch);
    }

    /** `flush`: Begin; execute and answer each request, or refuse each if Begin failed; Commit. The caller then empties
        the batch. */
    method Flush(outcome: Outcome)
      requires Valid() && desk.phase.Flushing?
      modifies this`db, this`batch, this`replies, this`acts, this`desk
      ensures Valid() && desk.sent == old(desk.sent) && ch == old(ch) && batch == []
      ensures desk.log == old(desk.log) + [Flushed(old(batch), outcome, old(desk.phase.last))]
      ensures desk.phase == if old(desk.phase.last) then Ended else Select
      ensures Answered(replies) == Answered(old(replies)) + Waiting(old(batch))
    {
      if outcome.BeginFails? {
        Do(FailBegin(outcome.text));
        RefuseAll(outcome.text);
        batch := [];
        Do(Return);
      } else {
        Do(Begin);
        var tx := ExecuteAll();
        if outcome.Commits? {
          db := tx;
        }
        batch := [];
        Do(Commit(outcome.Commits?));
      }
    }

    /** The receive case of the select; it fires only when a request is ready. */
    method OnReceive(outcome: Outcome)
      requires Valid() && desk.phase.Select? && ch != [] && |batch| < MAX_SIZE
      modifies this
      ensures Valid() && desk.phase.Select? && desk.sent == old(desk.sent)
      ensures View() == Turned(old(View()), Receives(outcome))
      ensures if old(|batch| + |ch|) < MAX_SIZE then batch == old(batch + ch) && ch == [] && replies == old(replies)
              else batch == [] && Answered(replies) == Answered(old(replies)) + Waiting(old(batch + ch)[..MAX_SIZE])
    {
      ghost var all := batch + ch;
      Receive();
      Drain();
      Do(Settle);
      if |batch| >= MAX_SIZE {
        assert batch == all[..MAX_SIZE] && ch == all[MAX_SIZE..];
        Flush(outcome);
      } else {
        assert batch == all;
      }
    }

    /** The ticker case: everything collected is flushed and answered, however little it is. */
    method OnTick(outcome: Outcome)
      requires Valid() && desk.phase.Select?
      modifies this
      ensures Valid() && desk.phase.Select? && desk.sent == old(desk.sent)
      ensures View() == Turned(old(View()), Ticks(outcome))
      ensures batch == [] && Answered(replies) == Answered(old(replies)) + Waiting(old(batch))
      ensures |replies| == old(|replies|) + old(|batch|)
    {
      Do(Tick);
      if |batch| > 0 {
        Flush(outcome);
      }
    }

    /** The loop of the stop case: no limit applies. */
    method TakeRest()
      requires Valid() && desk.phase.Stopping?
      modifies this`ch, this`batch, this`acts, this`desk
      ensures Valid() && ch == [] && batch == old(batch + ch) && desk == old(desk).(ch := ch, batch := batch)
    {
      while ch != []
        invariant Valid() && batch + ch == old(batch + ch) && desk == old(desk).(ch := ch, batch := batch)
        decreases |ch|
      {
        Receive();
      }
    }

    /** The stop case: takes everything left in the channel, whatever its size, and flushes it. */
    method OnStop(outcome: Outcome)
      requires Valid() && desk.phase.Select?
      modifies this
      ensures Valid() && desk.phase.Ended? && desk.sent == old(desk.sent)
      ensures View() == Turned(old(View()), Stops(outcome))
      ensures batch == [] && ch == [] && Answered(replies) == Answered(old(replies)) + Waiting(old(batch + ch))
    {
      Do(Stop);
      TakeRest();
      Do(Settle);
      if |batch| > 0 {
        Flush(outcome);
      }
    }

    ghost predicate Waits(ended: bool)
      reads this
    {
      Valid() && (if ended then desk.phase.Ended? else desk.phase.Select? && |batch| < MAX_SIZE)
    }

    /** One turn: a send, or one pass of the select. */
    method TakeTurn(turn: Turn<S>, wasEnded: bool) returns (ended: bool)
      requires Waits(wasEnded)
      modifies this
      ensures Waits(ended) && View() == Turned(old(View()), turn)
    {
      ended := wasEnded;
      match turn {
        case Sends(req) =>
          ch := ch + [req];
          Do(Send(req));
        case Receives(outcome) =>
          if !ended && ch != [] {
            OnReceive(outcome);
          }
        case Ticks(outcome) =>
          if !ended {
            OnTick(outcome);
          }
        case Stops(outcome) =>
          if !ended {
            OnStop(outcome);
            ended := true;
          }
      }
      RunKeepsInv(exec, start, acts);
    }

    /** `run` under an arbitrary schedule, with callers sending between its turns, even after it returned. */
    method Run(script: seq<Turn<S>>) returns (ended: bool)
      requires Waits(false)
      modifies this
      ensures Waits(ended) && View() == Ran(old(View()), script)
    {
      ended := false;
      for i := 0 to |script|
        invariant Waits(ended) && View() == Ran(old(View()), script[..i])
      {
        assert script[..i + 1][..i] == script[..i];
        ended := TakeTurn(script[i], ended);
      }
      assert script[..|script|] == script;
    }
  }
}
