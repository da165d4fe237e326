/** The WebSocket hub: one goroutine registers clients and fans messages out to their bounded channels, evicting
    the slow; each client's pump drains its channel onto the connection, interleaved with the fan-out. */
module Hub {
  import opened Common

  const SEND_BUF: nat := 256
  const BROADCAST_BUF: nat := 256

  type Message = string

  /** What the write pump puts on the connection. */
  datatype Frame = Json(msg: Message) | Ping | CloseFrame

  /** What is done to a send channel; Go panics on any operation after a close. */
  datatype ChannelOp = Put(msg: Message) | Close

  datatype Status = New | Member | Removed

  datatype Client = Client(
    status: Status,
    joined: nat,          // how many broadcasts the hub had processed at registration
    left: nat,            // and at removal
    ops: seq<ChannelOp>,  // every operation of the hub on the send channel, in order
    sent: seq<Message>,   // everything ever put in the send channel
    buf: seq<Message>,    // the send channel's content
    closed: bool,         // the send channel is closed
    pumping: bool,        // the write pump has not returned
    failed: bool,         // the write pump returned on a write error
    frames: seq<Frame>)   // written to the connection

  /** `current` holds the clients the fan-out loop has not reached yet. */
  datatype State = State(
    clients: seq<Client>,
    inbox: seq<Message>,
    processed: seq<Message>,
    current: Option<set<nat>>)

  datatype Action =
    | Connect                        // a handler made a client; it registers next
    | Register(c: nat)
    | Unregister(c: nat)             // the read pump saw the connection end
    | Publish(msg: Message)
    | Pull                           // the hub takes the next broadcast
    | Offer(c: nat)                  // one iteration of the fan-out loop
    | EndFanout
    | WriteNext(c: nat, ok: bool)    // the write pump receives from the channel
    | SendPing(c: nat, ok: bool)

  predicate IsMember(s: State, c: nat) { c < |s.clients| && s.clients[c].status.Member? }

  function Members(s: State): set<nat> {
    set c | 0 <= c < |s.clients| && s.clients[c].status.Member?
  }

  predicate Pumps(s: State, c: nat) { c < |s.clients| && !s.clients[c].status.New? && s.clients[c].pumping }

  predicate Enabled(s: State, a: Action) {
    match a
    case Connect => true
    case Register(c) => s.current.None? && c < |s.clients| && s.clients[c].status.New?
    case Unregister(c) => s.current.None? && c < |s.clients| && !s.clients[c].status.New?
    case Publish(_) => true
    case Pull => s.current.None? && s.inbox != []
    case Offer(c) => s.current.Some? && c in s.current.value && c < |s.clients| && s.processed != []
    case EndFanout => s.current == Some({})
    case WriteNext(c, _) => Pumps(s, c) && (s.clients[c].buf != [] || s.clients[c].closed)
    case SendPing(c, _) => Pumps(s, c)
  }

  /** `delete(h.clients, c); close(c.send)`. */
  function Evict(cl: Client, processed: nat): Client {
    cl.(status := Removed, left := processed, closed := true, ops := cl.ops + [Close])
  }

  /** The select of the fan-out loop: send if there is room, otherwise evict. The evicted client misses this message. */
  function Offered(cl: Client, msg: Message, processed: nat): Client
    requires processed > 0
  {
    if |cl.buf| < SEND_BUF then cl.(sent := cl.sent + [msg], buf := cl.buf + [msg], ops := cl.ops + [Put(msg)])
    else Evict(cl, processed - 1)
  }

  /** One receive of the write pump: a message, or the end of a closed channel once it is drained. */
  function Pumped(cl: Client, ok: bool): Client
    requires cl.buf != [] || cl.closed
  {
    if cl.buf != [] then
      var taken := cl.(buf := cl.buf[1..]);
      if ok then taken.(frames := cl.frames + [Json(cl.buf[0])]) else taken.(pumping := false, failed := true)
    else cl.(pumping := false, frames := cl.frames + [CloseFrame])
  }

  function Next(s: State, a: Action): State
    requires Enabled(s, a)
  {
    match a
    case Connect => s.(clients := s.clients + [Client(New, 0, 0, [], [], [], false, true, false, [])])
    case Register(c) => s.(clients := s.clients[c := s.clients[c].(status := Member, joined := |s.processed|)])
    case Unregister(c) =>
      if IsMember(s, c) then s.(clients := s.clients[c := Evict(s.clients[c], |s.processed|)]) else s
    case Publish(msg) => if |s.inbox| < BROADCAST_BUF then s.(inbox := s.inbox + [msg]) else s
    case Pull => s.(inbox := s.inbox[1..], processed := s.processed + [s.inbox[0]], current := Some(Members(s)))
    case Offer(c) =>
      s.(current := Some(s.current.value - {c}),
         clients := s.clients[c := Offered(s.clients[c], s.processed[|s.processed| - 1], |s.processed|)])
    case EndFanout => s.(current := None)
    case WriteNext(c, ok) => s.(clients := s.clients[c := Pumped(s.clients[c], ok)])
    case SendPing(c, ok) =>
      s.(clients := s.clients[c := Pinged(s.clients[c], ok)])
  }

  function Init(): State { State([], [], [], None) }

  predicate IsRun(s: State, acts: seq<Action>)
    decreases |acts|
  {
    acts == [] || (Enabled(s, acts[0]) && IsRun(Next(s, acts[0]), acts[1..]))
  }

  function After(s: State, acts: seq<Action>): State
    requires IsRun(s, acts)
    decreases |acts|
  {
    if acts == [] then s else After(Next(s, acts[0]), acts[1..])
  }

  // ---- invariant ----

  /** The messages among the frames, in order. */
  function Written(frames: seq<Frame>): seq<Message> {
    if frames == [] then [] else
      var last := frames[|frames| - 1];
      Written(frames[..|frames| - 1]) + (if last.Json? then [last.msg] else [])
  }

  /** The broadcasts meant for a member so far: all since it joined, less the one the fan-out still owes it. */
  function Due(s: State, c: nat): int {
    |s.processed| - (if s.current.Some? && c in s.current.value then 1 else 0)
  }

  /** Delivery: what went into the channel is a contiguous run of the processed broadcasts. */
  predicate Delivered(cl: Client, processed: seq<Message>, due: int) {
    match cl.status
    case New => cl.sent == [] && !cl.closed
    case Member => !cl.closed && cl.joined <= due <= |processed| && cl.sent == processed[cl.joined..due]
    case Removed => cl.closed && cl.joined <= cl.left <= |processed| && cl.sent == processed[cl.joined..cl.left]
  }

  /** The pump: frames are what was taken from the channel; a Close frame is the last one and comes only when
      the closed channel is drained. */
  ghost predicate PumpInv(cl: Client) {
    && |cl.buf| <= SEND_BUF
    && (forall i :: 0 <= i < |cl.frames| && cl.frames[i].CloseFrame? ==>
          i == |cl.frames| - 1 && !cl.pumping && !cl.failed && cl.closed && cl.buf == [])
    && (cl.failed ==> !cl.pumping)
    && (!cl.pumping && !cl.failed ==> cl.frames != [] && cl.frames[|cl.frames| - 1].CloseFrame?)
    && (!cl.failed ==> cl.sent == Written(cl.frames) + cl.buf)
    && Written(cl.frames) <= cl.sent
  }

  function Puts(msgs: seq<Message>): seq<ChannelOp> {
    seq(|msgs|, i requires 0 <= i < |msgs| => Put(msgs[i]))
  }

  /** The channel's whole history: its messages, then at most one close. */
  predicate ChannelOk(cl: Client) {
    cl.ops == Puts(cl.sent) + (if cl.closed then [Close] else [])
  }

  ghost predicate ClientInv(cl: Client, processed: seq<Message>, due: int) {
    Delivered(cl, processed, due) && PumpInv(cl) && ChannelOk(cl)
  }

  ghost predicate Inv(s: State) {
    && (forall c :: 0 <= c < |s.clients| ==> ClientInv(s.clients[c], s.processed, Due(s, c)))
    && (s.current.Some? ==> s.processed != [] && forall c :: c in s.current.value ==> IsMember(s, c))
  }

  // ---- one client at a time ----

  lemma OfferedKeeps(cl: Client, processed: seq<Message>)
    requires processed != [] && cl.status.Member? && ClientInv(cl, processed, |processed| - 1)
    ensures ClientInv(Offered(cl, processed[|processed| - 1], |processed|), processed, |processed|)
  {
    var n := |processed|;
    assert processed[cl.joined..n] == processed[cl.joined..n - 1] + [processed[n - 1]];
    assert Written(cl.frames) + (cl.buf + [processed[n - 1]]) == Written(cl.frames) + cl.buf + [processed[n - 1]];
  }

  lemma PumpedKeeps(cl: Client, ok: bool, processed: seq<Message>, due: int)
    requires ClientInv(cl, processed, due) && cl.pumping && (cl.buf != [] || cl.closed)
    ensures ClientInv(Pumped(cl, ok), processed, due)
  {
  }

  function Pinged(cl: Client, ok: bool): Client {
    if ok then cl.(frames := cl.frames + [Ping]) else cl.(pumping := false, failed := true)
  }

  lemma PingedKeeps(cl: Client, ok: bool, processed: seq<Message>, due: int)
    requires ClientInv(cl, processed, due) && cl.pumping
    ensures ClientInv(Pinged(cl, ok), processed, due)
  {
  }

  /** A new broadcast leaves every client as it was, with one more message due to it. */
  lemma ProcessedGrows(cl: Client, processed: seq<Message>, msg: Message)
    requires ClientInv(cl, processed, |processed|)
    ensures ClientInv(cl, processed + [msg], |processed|)
  {
  }

  // ---- the hub ----

  lemma OneClientChanges(s: State, t: State, c: nat, cl: Client)
    requires Inv(s) && c < |s.clients| && t.clients == s.clients[c := cl] && t.processed == s.processed
    requires forall d :: 0 <= d < |s.clients| && d != c ==> Due(t, d) == Due(s, d)
    requires ClientInv(cl, t.processed, Due(t, c))
    requires t.current.Some? ==> t.processed != [] && forall d :: d in t.current.value ==> IsMember(t, d)
    ensures Inv(t)
  {
  }

  /** An offer to one client changes what is due to that client only. */
  lemma OfferDue(s: State, c: nat)
    requires Inv(s) && Enabled(s, Offer(c))
    ensures IsMember(s, c) && Due(s, c) == |s.processed| - 1 && Due(Next(s, Offer(c)), c) == |s.processed|
    ensures forall d :: 0 <= d < |s.clients| && d != c ==> Due(Next(s, Offer(c)), d) == Due(s, d)
    ensures forall d :: d in Next(s, Offer(c)).current.value ==> IsMember(Next(s, Offer(c)), d)
  {
    assert IsMember(s, c);
    forall d | d in Next(s, Offer(c)).current.value
      ensures IsMember(Next(s, Offer(c)), d)
    {
      assert IsMember(s, d);
    }
  }

  lemma OfferKeeps(s: State, c: nat)
    requires Inv(s) && Enabled(s, Offer(c))
    ensures Inv(Next(s, Offer(c)))
  {
    var cl := Offered(s.clients[c], s.processed[|s.processed| - 1], |s.processed|);
    OfferDue(s, c);
    assert ClientInv(s.clients[c], s.processed, |s.processed| - 1);
    OfferedKeeps(s.clients[c], s.processed);
    OneClientChanges(s, Next(s, Offer(c)), c, cl);
  }

  lemma PullKeeps(s: State)
    requires Inv(s) && Enabled(s, Pull)
    ensures Inv(Next(s, Pull))
  {
    var t := Next(s, Pull);
    forall d | 0 <= d < |t.clients|
      ensures ClientInv(t.clients[d], t.processed, Due(t, d))
    {
      ProcessedGrows(s.clients[d], s.processed, s.inbox[0]);
      DueIrrelevant(s.clients[d], t.processed, |s.processed|, Due(t, d));
    }
  }

  lemma DueIrrelevant(cl: Client, processed: seq<Message>, due: int, due': int)
    requires ClientInv(cl, processed, due) && (cl.status.Member? ==> due' == due)
    ensures ClientInv(cl, processed, due')
  {
  }

  lemma UnregisterKeeps(s: State, c: nat)
    requires Inv(s) && Enabled(s, Unregister(c))
    ensures Inv(Next(s, Unregister(c)))
  {
  }

  lemma RegisterKeeps(s: State, c: nat)
    requires Inv(s) && Enabled(s, Register(c))
    ensures Inv(Next(s, Register(c)))
  {
  }

  /** A client's own step leaves its membership alone. */
  lemma PumpChanges(s: State, c: nat, cl: Client)
    requires Inv(s) && c < |s.clients| && cl.status == s.clients[c].status && ClientInv(cl, s.processed, Due(s, c))
    ensures Inv(s.(clients := s.clients[c := cl]))
  {
    var t := s.(clients := s.clients[c := cl]);
    assert forall d :: IsMember(s, d) ==> IsMember(t, d);
    assert forall d :: Due(t, d) == Due(s, d);
    OneClientChanges(s, t, c, cl);
  }

  lemma WriteKeeps(s: State, c: nat, ok: bool)
    requires Inv(s) && Enabled(s, WriteNext(c, ok))
    ensures Inv(Next(s, WriteNext(c, ok)))
  {
    PumpedKeeps(s.clients[c], ok, s.processed, Due(s, c));
    PumpChanges(s, c, Pumped(s.clients[c], ok));
  }

  lemma PingKeeps(s: State, c: nat, ok: bool)
    requires Inv(s) && Enabled(s, SendPing(c, ok))
    ensures Inv(Next(s, SendPing(c, ok)))
  {
    PingedKeeps(s.clients[c], ok, s.processed, Due(s, c));
    PumpChanges(s, c, Pinged(s.clients[c], ok));
  }

  lemma NextKeepsInv(s: State, a: Action)
    requires Inv(s) && Enabled(s, a)
    ensures Inv(Next(s, a))
  {
    match a
    case Connect =>
    case Register(c) => RegisterKeeps(s, c);
    case Unregister(c) => UnregisterKeeps(s, c);
    case Publish(_) =>
    case Pull => PullKeeps(s);
    case Offer(c) => OfferKeeps(s, c);
    case EndFanout =>
    case WriteNext(c, ok) => WriteKeeps(s, c, ok);
    case SendPing(c, ok) => PingKeeps(s, c, ok);
  }

  lemma {:induction false} RunKeepsInv(s: State, acts: seq<Action>)
    requires Inv(s) && IsRun(s, acts)
    ensures Inv(After(s, acts))
    decreases |acts|
  {
    if acts != [] {
      NextKeepsInv(s, acts[0]);
      RunKeepsInv(Next(s, acts[0]), acts[1..]);
    }
  }

  // ---- the claims ----

  /** The messages the broadcast channel accepts in a run, in order, by the actions alone: a publish is accepted if
      fewer than 256 wait, and a pull takes one away. */
  function Accepted(acts: seq<Action>, waiting: nat): seq<Message> {
    if acts == [] then [] else
      match acts[0]
      case Publish(msg) =>
        if waiting < BROADCAST_BUF then [msg] + Accepted(acts[1..], waiting + 1) else Accepted(acts[1..], waiting)
      case Pull => Accepted(acts[1..], if waiting > 0 then waiting - 1 else 0)
      case _ => Accepted(acts[1..], waiting)
  }

  /** The broadcast channel is first in, first out: what the hub has processed, followed by what still waits, is what
      was accepted. */
  lemma {:induction false} ProcessedInOrder(s: State, acts: seq<Action>)
    requires IsRun(s, acts) && |s.inbox| <= BROADCAST_BUF
    ensures var t := After(s, acts);
            && |t.inbox| <= BROADCAST_BUF
            && t.processed + t.inbox == s.processed + s.inbox + Accepted(acts, |s.inbox|)
    decreases |acts|
  {
    if acts != [] {
      var s', rest := Next(s, acts[0]), acts[1..];
      ProcessedInOrder(s', rest);
      if acts[0].Publish? && |s.inbox| < BROADCAST_BUF {
        assert s'.processed + s'.inbox == s.processed + s.inbox + [acts[0].msg];
      } else {
        assert s'.processed + s'.inbox == s.processed + s.inbox;
      }
    }
  }

  /** In every run the processed and the waiting broadcasts are the accepted publishes, in order; and the next publish
      is dropped if and only if 256 wait. */
  lemma PublishedInOrder(acts: seq<Action>, msg: Message)
    requires IsRun(Init(), acts)
    ensures var s := After(Init(), acts); var t := Next(s, Publish(msg));
            && s.processed + s.inbox == Accepted(acts, 0)
            && t.processed + t.inbox == Accepted(acts, 0) + (if |s.inbox| == BROADCAST_BUF then [] else [msg])
  {
    ProcessedInOrder(Init(), acts);
    var s := After(Init(), acts);
    assert [] + Accepted(acts, 0) == Accepted(acts, 0);
    assert s.processed + (s.inbox + [msg]) == s.processed + s.inbox + [msg];
  }

  /** No gap: in every run, what a registered client was sent is exactly a segment of the accepted publishes, from its
      registration to its removal (or to the one being fanned out). Its buffer never exceeds its capacity, and
      what its connection was written is a prefix of that. */
  lemma NoGapDelivery(acts: seq<Action>, c: nat)
    requires IsRun(Init(), acts) && c < |After(Init(), acts).clients| && !After(Init(), acts).clients[c].status.New?
    ensures var s := After(Init(), acts); var cl := s.clients[c];
            var end := if cl.status.Removed? then cl.left else Due(s, c);
            && cl.joined <= end <= |s.processed| <= |Accepted(acts, 0)|
            && cl.sent == Accepted(acts, 0)[cl.joined..end]
            && |cl.buf| <= SEND_BUF && Written(cl.frames) <= cl.sent
            && (!cl.failed ==> cl.sent == Written(cl.frames) + cl.buf)
  {
    RunKeepsInv(Init(), acts);
    AcceptedSegments(acts);
    var s := After(Init(), acts);
    assert ClientInv(s.clients[c], s.processed, Due(s, c));
  }

  lemma AcceptedSegments(acts: seq<Action>)
    requires IsRun(Init(), acts)
    ensures var s := After(Init(), acts);
            && |s.processed| <= |Accepted(acts, 0)|
            && forall i, k :: 0 <= i <= k <= |s.processed| ==> s.processed[i..k] == Accepted(acts, 0)[i..k]
  {
    PublishedInOrder(acts, "");
    var s := After(Init(), acts);
    assert s.processed == Accepted(acts, 0)[..|s.processed|];
  }

  /** The Close frame is the last thing written, and a client that got it got its whole run of broadcasts first. */
  lemma CloseFrameIsLast(acts: seq<Action>, c: nat, i: nat)
    requires IsRun(Init(), acts) && c < |After(Init(), acts).clients|
    requires i < |After(Init(), acts).clients[c].frames| && After(Init(), acts).clients[c].frames[i].CloseFrame?
    ensures var s := After(Init(), acts); var cl := s.clients[c];
            && i == |cl.frames| - 1 && !Pumps(s, c)
            && cl.status.Removed? && cl.joined <= cl.left <= |Accepted(acts, 0)|
            && Written(cl.frames) == Accepted(acts, 0)[cl.joined..cl.left]
  {
    RunKeepsInv(Init(), acts);
    AcceptedSegments(acts);
    var cl := After(Init(), acts).clients[c];
    assert Written(cl.frames) + [] == Written(cl.frames);
  }

  /** In every run no channel is used after it is closed: a close is the last operation ever done to it, so nothing is
      sent on a closed channel and none is closed twice. A channel is closed exactly when its client was removed. */
  lemma ChannelsUsedSafely(acts: seq<Action>, c: nat)
    requires IsRun(Init(), acts) && c < |After(Init(), acts).clients|
    ensures var cl := After(Init(), acts).clients[c];
            && (forall i :: 0 <= i < |cl.ops| && cl.ops[i].Close? ==> i == |cl.ops| - 1)
            && (cl.closed <==> Close in cl.ops) && (cl.closed <==> cl.status.Removed?)
            && |cl.ops| == |cl.sent| + (if cl.closed then 1 else 0)
            && (forall i :: 0 <= i < |cl.sent| ==> cl.ops[i] == Put(cl.sent[i]))
  {
    RunKeepsInv(Init(), acts);
    var s := After(Init(), acts);
    assert ClientInv(s.clients[c], s.processed, Due(s, c));
    if s.clients[c].closed {
      assert s.clients[c].ops[|s.clients[c].sent|] == Close;
    }
  }

  /** A member is evicted by the fan-out exactly when 256 messages wait unread in its channel. */
  lemma EvictedIffFull(acts: seq<Action>, c: nat)
    requires IsRun(Init(), acts) && Enabled(After(Init(), acts), Offer(c))
    ensures var s := After(Init(), acts);
            Next(s, Offer(c)).clients[c].status.Removed? <==> |s.clients[c].buf| == SEND_BUF
  {
    RunKeepsInv(Init(), acts);
    var s := After(Init(), acts);
    assert IsMember(s, c) && ClientInv(s.clients[c], s.processed, Due(s, c));
  }

  // ---- progress ----

  /** The steps of the hub's loop and of the write pumps' receives. The others are choices of publishers, connections
      and the ping ticker. */
  predicate Works(a: Action) { a.Pull? || a.Offer? || a.EndFanout? || a.WriteNext? }

  function ClientLoad(cl: Client): nat { |cl.buf| + (if cl.pumping then 1 else 0) }

  /** Each waiting broadcast may be offered to and written for every client. */
  function Load(s: State): nat {
    |s.inbox| * (2 * |s.clients| + 2) + (if s.current.Some? then 2 * |s.current.value| + 1 else 0)
    + Sum(s.clients, ClientLoad)
  }

  lemma {:induction false} FewerThan(m: set<nat>, n: nat)
    requires forall c :: c in m ==> c < n
    ensures |m| <= n
  {
    if n > 0 {
      FewerThan(m - {n - 1}, n - 1);
    } else {
      assert m == {};
    }
  }

  lemma OneFewer(n: nat, weight: nat)
    requires n > 0
    ensures n * weight == (n - 1) * weight + weight
  {
  }

  /** Every such step lowers the load. */
  lemma WorkLowersLoad(s: State, a: Action)
    requires Enabled(s, a) && Works(a)
    ensures Load(Next(s, a)) < Load(s)
  {
    match a
    case Pull =>
      FewerThan(Members(s), |s.clients|);
      OneFewer(|s.inbox|, 2 * |s.clients| + 2);
    case Offer(c) => SumUpdate(s.clients, c, Next(s, a).clients[c], ClientLoad);
    case EndFanout =>
    case WriteNext(c, ok) => SumUpdate(s.clients, c, Pumped(s.clients[c], ok), ClientLoad);
  }

  lemma {:induction false} WorkIsBounded(s: State, acts: seq<Action>)
    requires IsRun(s, acts) && forall i :: 0 <= i < |acts| ==> Works(acts[i])
    ensures |acts| + Load(After(s, acts)) <= Load(s)
    decreases |acts|
  {
    if acts != [] {
      WorkLowersLoad(s, acts[0]);
      WorkIsBounded(Next(s, acts[0]), acts[1..]);
    }
  }

  ghost predicate Settled(s: State) { forall a :: Enabled(s, a) ==> !Works(a) }

  lemma SettledHub(s: State)
    requires Inv(s) && Settled(s)
    ensures s.inbox == [] && s.current.None?
  {
    if s.current.Some? {
      forall c | c in s.current.value
        ensures Enabled(s, Offer(c))
      {
        assert IsMember(s, c);
      }
      assert s.current.value == {};
    }
    assert !Enabled(s, EndFanout);
    assert !Enabled(s, Pull);
  }

  lemma SettledClient(s: State, c: nat)
    requires Inv(s) && Settled(s) && c < |s.clients| && !s.clients[c].status.New? && !s.clients[c].failed
    ensures Written(s.clients[c].frames) == s.clients[c].sent
    ensures s.clients[c].status.Removed? ==> CloseFrame in s.clients[c].frames
  {
    var cl := s.clients[c];
    assert ClientInv(cl, s.processed, Due(s, c));
    assert !Enabled(s, WriteNext(c, true));
    if !cl.pumping {
      assert cl.frames[|cl.frames| - 1] == CloseFrame;
    }
    assert cl.buf == [];
    assert Written(cl.frames) + [] == Written(cl.frames);
  }

  /** Delivery: when hub and pumps can take no more steps, and left alone they soon cannot, every member whose
      connection works has been written every publish accepted since it registered, and every removed one all of its
      run and then a Close frame. */
  lemma HubDelivers(acts: seq<Action>, c: nat)
    requires IsRun(Init(), acts) && Settled(After(Init(), acts)) && c < |After(Init(), acts).clients|
    requires !After(Init(), acts).clients[c].status.New? && !After(Init(), acts).clients[c].failed
    ensures var s := After(Init(), acts); var cl := s.clients[c]; var accepted := Accepted(acts, 0);
            && s.processed == accepted && cl.joined <= |accepted|
            && (cl.status.Member? ==> Written(cl.frames) == accepted[cl.joined..])
            && (cl.status.Removed? ==> cl.joined <= cl.left <= |accepted| && CloseFrame in cl.frames
                                       && Written(cl.frames) == accepted[cl.joined..cl.left])
  {
    RunKeepsInv(Init(), acts);
    PublishedInOrder(acts, "");
    var s := After(Init(), acts);
    SettledHub(s);
    SettledClient(s, c);
    assert s.processed + [] == s.processed;
    assert ClientInv(s.clients[c], s.processed, Due(s, c));
  }

  // ---- the hub object ----

  /** A client's send channel. A send or a close after a close panics, so both need an open channel. */
  class Peer {
    var send: seq<Message>
    var closed: bool
    var closes: nat  // how often close was called on the channel

    constructor ()
      ensures send == [] && !closed && Sound()
    {
      send, closed, closes := [], false, 0;
    }

    predicate Sound()
      reads this
    {
      closes == (if closed then 1 else 0) && |send| <= SEND_BUF
    }

    method Put(msg: Message)
      requires !closed && |send| < SEND_BUF
      modifies this`send
      ensures send == old(send) + [msg]
    {
      send := send + [msg];
    }

    method CloseSend()
      requires !closed
      modifies this`closed, this`closes
      ensures closed && closes == old(closes) + 1
    {
      closed, closes := true, closes + 1;
    }
  }

  /** `Run`'s three cases, on the objects. A registered peer's channel is open. */
  class Fanout {
    var clients: set<Peer>

    constructor ()
      ensures Valid() && clients == {}
    {
      clients := {};
    }

    ghost predicate Valid()
      reads this, clients
    {
      forall c :: c in clients ==> !c.closed && c.Sound()
    }

    method OnRegister(c: Peer)
      requires Valid() && !c.closed && c.Sound()
      modifies this
      ensures Valid() && clients == old(clients) + {c}
    {
      clients := clients + {c};
    }

    /** A read pump unregisters its client even if the fan-out evicted it before: then nothing must happen. */
    method OnUnregister(c: Peer)
      requires Valid() && c.Sound()
      modifies this, c`closed, c`closes
      ensures Valid() && c.Sound() && clients == old(clients) - {c}
      ensures c.closes == old(c.closes) + (if c in old(clients) then 1 else 0)
    {
      if c in clients {
        clients := clients - {c};
        c.CloseSend();
      }
    }

    /** The fan-out loop, in whatever order the map is ranged over. */
    method OnBroadcast(msg: Message)
      requires Valid()
      modifies this, clients
      ensures Valid() && clients <= old(clients)
      ensures forall c :: c in old(clients) ==> c.Sound() && (c in clients <==> old(|c.send|) < SEND_BUF)
      ensures forall c :: c in old(clients) && c in clients ==> c.send == old(c.send) + [msg]
      ensures forall c :: c in old(clients) && c !in clients ==> c.closes == 1 && c.send == old(c.send)
    {
      var todo := clients;
      while todo != {}
        invariant todo <= clients <= old(clients)
        invariant forall c :: c in todo ==> !c.closed && c.Sound() && c.send == old(c.send)
        invariant forall c :: c in old(clients) && c !in todo ==> (c in clients <==> old(|c.send|) < SEND_BUF)
        invariant forall c :: c in clients && c !in todo ==> !c.closed && c.Sound() && c.send == old(c.send) + [msg]
        invariant forall c :: c in old(clients) && c !in clients ==> c.closed && c.Sound() && c.send == old(c.send)
        decreases |todo|
      {
        var c :| c in todo;
        if |c.send| < SEND_BUF {
          c.Put(msg);
        } else {
          clients := clients - {c};
          c.CloseSend();
        }
        todo := todo - {c};
      }
    }
  }
}
