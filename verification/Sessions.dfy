/** The dashboard's session table refines a specification over the history of operations, in which neither the
    sweep at login nor the lazy deletion of an expired token occurs. */
module Sessions {

  const TTL: int := 24 * 3600 * 1_000_000_000

  datatype Event = Login(token: string, at: int) | Logout(token: string) | Use(token: string, at: int)

  type Table = map<string, int>

  predicate Expired(exp: int, now: int) { now > exp }

  /** `gcLocked`. */
  function Collected(t: Table, now: int): Table {
    map k | k in t && !Expired(t[k], now) :: t[k]
  }

  /** The answer of `Authed` for a token, with auth enabled. */
  predicate Authed(t: Table, token: string, now: int) {
    token in t && !Expired(t[token], now)
  }

  function Apply(t: Table, e: Event): Table {
    match e
    case Login(token, at) => Collected(t, at)[token := at + TTL]
    case Logout(token) => t - {token}
    case Use(token, at) =>
      if token !in t then t else if Expired(t[token], at) then t - {token} else t[token := at + TTL]
  }

  function After(h: seq<Event>, n: nat): Table
    requires n <= |h|
  {
    if n == 0 then map[] else Apply(After(h, n - 1), h[n - 1])
  }

  // ---- the specification ----

  predicate Touches(e: Event, token: string) { !e.Logout? && e.token == token }

  /** The operations at which an expired token is dropped: every login sweeps, a use looks at its own token. */
  predicate Checks(e: Event, token: string) { e.Login? || (e.Use? && e.token == token) }

  /** The token's last login or use before position `n`, when its login is at `i`. */
  function Last(h: seq<Event>, i: nat, n: nat, token: string): (j: nat)
    requires i < n <= |h| && Touches(h[i], token)
    ensures i <= j < n && Touches(h[j], token) && forall k :: j < k < n ==> !Touches(h[k], token)
  {
    if Touches(h[n - 1], token) then n - 1 else Last(h, i, n - 1, token)
  }

  /** By the clock reading `at`, the token's last login or use before position `n` is at most one TTL old. */
  predicate InTime(h: seq<Event>, i: nat, n: nat, token: string, at: int)
    requires i < n <= |h| && Touches(h[i], token)
  {
    at - h[Last(h, i, n, token)].at <= TTL
  }

  /** A login of the token at `i` that survives every logout, sweep and use up to position `n`. */
  ghost predicate KeptSince(h: seq<Event>, n: nat, token: string, i: nat)
    requires n <= |h|
  {
    && i < n && h[i].Login? && h[i].token == token
    && (forall j :: i < j < n ==> h[j] != Logout(token))
    && (forall m :: i < m < n && Checks(h[m], token) ==> InTime(h, i, m, token, h[m].at))
  }

  ghost predicate AliveSince(h: seq<Event>, n: nat, token: string, now: int, i: nat)
    requires n <= |h|
  {
    KeptSince(h, n, token, i) && InTime(h, i, n, token, now)
  }

  /** The token was issued and not logged out since, and it was in time at every login of anybody, at every use of
      its own, and now: each by its own clock reading, in whatever order those readings are. */
  ghost predicate Alive(h: seq<Event>, n: nat, token: string, now: int)
    requires n <= |h|
  {
    exists i: nat :: AliveSince(h, n, token, now, i)
  }

  // ---- the specification, event by event ----

  lemma KeptStep(h: seq<Event>, n: nat, token: string, i: nat)
    requires i < n < |h| && Touches(h[i], token)
    ensures KeptSince(h, n + 1, token, i) <==>
            && KeptSince(h, n, token, i) && h[n] != Logout(token)
            && (Checks(h[n], token) ==> InTime(h, i, n, token, h[n].at))
  {
  }

  lemma LogoutEvent(h: seq<Event>, n: nat, token: string, now: int)
    requires n < |h| && h[n] == Logout(token)
    ensures !Alive(h, n + 1, token, now)
  {
  }

  lemma LoginEvent(h: seq<Event>, n: nat, token: string, now: int)
    requires n < |h| && h[n].Login? && h[n].token == token
    ensures Alive(h, n + 1, token, now) <==> now - h[n].at <= TTL
  {
    if Alive(h, n + 1, token, now) {
      var i: nat :| AliveSince(h, n + 1, token, now, i);
      assert Last(h, i, n + 1, token) == n;
    }
    if now - h[n].at <= TTL {
      assert AliveSince(h, n + 1, token, now, n);
    }
  }

  lemma OtherEventOnly(h: seq<Event>, n: nat, token: string, now: int)
    requires n < |h| && !Touches(h[n], token) && Alive(h, n + 1, token, now)
    ensures Alive(h, n, token, now) && (h[n].Login? ==> Alive(h, n, token, h[n].at))
  {
    var i: nat :| AliveSince(h, n + 1, token, now, i);
    KeptStep(h, n, token, i);
    assert AliveSince(h, n, token, now, i);
    assert h[n].Login? ==> AliveSince(h, n, token, h[n].at, i);
  }

  lemma OtherEventThen(h: seq<Event>, n: nat, token: string, now: int)
    requires n < |h| && !Touches(h[n], token) && h[n] != Logout(token)
    requires Alive(h, n, token, now) && (h[n].Login? ==> Alive(h, n, token, h[n].at))
    ensures Alive(h, n + 1, token, now)
  {
    var i: nat :| AliveSince(h, n, token, now, i);
    if h[n].Login? {
      var k: nat :| AliveSince(h, n, token, h[n].at, k);
      assert Last(h, i, n, token) == Last(h, k, n, token);
    }
    KeptStep(h, n, token, i);
    assert AliveSince(h, n + 1, token, now, i);
  }

  /** An event about another token counts only if it is a login, and then by the sweep's clock reading. */
  lemma OtherEvent(h: seq<Event>, n: nat, token: string, now: int)
    requires n < |h| && !Touches(h[n], token) && h[n] != Logout(token)
    ensures Alive(h, n + 1, token, now) <==>
            Alive(h, n, token, now) && (h[n].Login? ==> Alive(h, n, token, h[n].at))
  {
    if Alive(h, n + 1, token, now) {
      OtherEventOnly(h, n, token, now);
    }
    if Alive(h, n, token, now) && (h[n].Login? ==> Alive(h, n, token, h[n].at)) {
      OtherEventThen(h, n, token, now);
    }
  }

  /** Sliding expiry: a use splits the condition at its own clock reading. */
  lemma UseEvent(h: seq<Event>, n: nat, token: string, now: int)
    requires n < |h| && h[n].Use? && h[n].token == token
    ensures Alive(h, n + 1, token, now) <==> Alive(h, n, token, h[n].at) && now - h[n].at <= TTL
  {
    if Alive(h, n + 1, token, now) {
      var i: nat :| AliveSince(h, n + 1, token, now, i);
      KeptStep(h, n, token, i);
      assert AliveSince(h, n, token, h[n].at, i);
    }
    if Alive(h, n, token, h[n].at) && now - h[n].at <= TTL {
      var i: nat :| AliveSince(h, n, token, h[n].at, i);
      KeptStep(h, n, token, i);
      assert AliveSince(h, n + 1, token, now, i);
    }
  }

  // ---- refinement ----

  /** What one operation does to the answers of the table. */
  lemma TableStep(t: Table, e: Event, token: string, now: int)
    ensures e == Logout(token) ==> !Authed(Apply(t, e), token, now)
    ensures !Touches(e, token) && e != Logout(token) ==>
            (Authed(Apply(t, e), token, now) <==> Authed(t, token, now) && (e.Login? ==> Authed(t, token, e.at)))
    ensures e.Login? && e.token == token ==> (Authed(Apply(t, e), token, now) <==> now - e.at <= TTL)
    ensures e.Use? && e.token == token ==>
            (Authed(Apply(t, e), token, now) <==> Authed(t, token, e.at) && now - e.at <= TTL)
  {
  }

  /** What it does to the specification: the same. */
  lemma AliveStep(h: seq<Event>, n: nat, token: string, now: int)
    requires n < |h|
    ensures h[n] == Logout(token) ==> !Alive(h, n + 1, token, now)
    ensures !Touches(h[n], token) && h[n] != Logout(token) ==>
            (Alive(h, n + 1, token, now) <==>
             Alive(h, n, token, now) && (h[n].Login? ==> Alive(h, n, token, h[n].at)))
    ensures h[n].Login? && h[n].token == token ==> (Alive(h, n + 1, token, now) <==> now - h[n].at <= TTL)
    ensures h[n].Use? && h[n].token == token ==>
            (Alive(h, n + 1, token, now) <==> Alive(h, n, token, h[n].at) && now - h[n].at <= TTL)
  {
    if h[n] == Logout(token) {
      LogoutEvent(h, n, token, now);
    } else if !Touches(h[n], token) {
      OtherEvent(h, n, token, now);
    } else if h[n].Login? {
      LoginEvent(h, n, token, now);
    } else {
      UseEvent(h, n, token, now);
    }
  }

  /** The exact account, for every history, whatever order the clock readings are in: the table accepts a token at `now`
      if and only if it is alive. */
  lemma {:induction false} TableMatchesHistory(h: seq<Event>, n: nat, token: string, now: int)
    requires n <= |h|
    ensures Authed(After(h, n), token, now) <==> Alive(h, n, token, now)
  {
    if n > 0 {
      var e := h[n - 1];
      TableMatchesHistory(h, n - 1, token, now);
      if !e.Logout? {
        TableMatchesHistory(h, n - 1, token, e.at);
      }
      TableStep(After(h, n - 1), e, token, now);
      AliveStep(h, n - 1, token, now);
    }
  }

  // ---- clock readings in lock order ----

  /** The first `n` operations, in lock order, have times that do not decrease, and none is after `now`. */
  ghost predicate Monotone(h: seq<Event>, n: nat, now: int)
    requires n <= |h|
  {
    && (forall i, k :: 0 <= i < k < n && !h[i].Logout? && !h[k].Logout? ==> h[i].at <= h[k].at)
    && (forall i :: 0 <= i < n && !h[i].Logout? ==> h[i].at <= now)
  }

  /** Within a TTL of event `j` the token is used again before position `n`, or the time `now` is reached. */
  ghost predicate KeptAlive(h: seq<Event>, n: nat, token: string, now: int, j: nat)
    requires j < n <= |h| && !h[j].Logout?
  {
    now - h[j].at <= TTL || exists k :: j < k < n && Touches(h[k], token) && h[k].at - h[j].at <= TTL
  }

  ghost predicate ValidSince(h: seq<Event>, n: nat, token: string, now: int, i: nat)
    requires n <= |h|
  {
    && i < n && h[i].Login? && h[i].token == token
    && (forall j :: i < j < n ==> h[j] != Logout(token))
    && (forall j :: i <= j < n && Touches(h[j], token) ==> KeptAlive(h, n, token, now, j))
  }

  /** The specification without sweeps: the token was issued, not logged out since, and no gap between its own uses,
      from the login to now, exceeds the TTL. Other tokens do not occur in it. */
  ghost predicate Valid(h: seq<Event>, n: nat, token: string, now: int)
    requires n <= |h|
  {
    exists i: nat :: ValidSince(h, n, token, now, i)
  }

  /** The first touch after `j` has `j` as its last touch. */
  lemma {:induction false} NextTouch(h: seq<Event>, i: nat, n: nat, token: string, j: nat) returns (m: nat)
    requires i <= j < n <= |h| && Touches(h[i], token) && Touches(h[j], token) && j < Last(h, i, n, token)
    ensures j < m < n && Touches(h[m], token) && Last(h, i, m, token) == j
  {
    m := Last(h, i, n, token);
    if Last(h, i, m, token) != j {
      m := NextTouch(h, i, m, token, j);
    }
  }

  lemma AliveIsValid(h: seq<Event>, n: nat, token: string, now: int, i: nat)
    requires n <= |h| && AliveSince(h, n, token, now, i)
    ensures ValidSince(h, n, token, now, i)
  {
    forall j | i <= j < n && Touches(h[j], token)
      ensures KeptAlive(h, n, token, now, j)
    {
      if j != Last(h, i, n, token) {
        var m := NextTouch(h, i, n, token, j);
        assert InTime(h, i, m, token, h[m].at);
      }
    }
  }

  lemma ValidIsAlive(h: seq<Event>, n: nat, token: string, now: int, i: nat)
    requires n <= |h| && Monotone(h, n, now) && ValidSince(h, n, token, now, i)
    ensures AliveSince(h, n, token, now, i)
  {
    forall m | i < m < n && Checks(h[m], token)
      ensures InTime(h, i, m, token, h[m].at)
    {
      assert KeptAlive(h, n, token, now, Last(h, i, m, token));
    }
    assert KeptAlive(h, n, token, now, Last(h, i, n, token));
  }

  /** In any order of readings, what the table accepts is valid: an overtaking sweep can only turn a valid token
      away. */
  lemma AcceptedIsValid(h: seq<Event>, n: nat, token: string, now: int)
    requires n <= |h| && Authed(After(h, n), token, now)
    ensures Valid(h, n, token, now)
  {
    TableMatchesHistory(h, n, token, now);
    var i: nat :| AliveSince(h, n, token, now, i);
    AliveIsValid(h, n, token, now, i);
  }

  /** With clock readings in lock order the sweep does not show: the table answers as the specification without
      sweeps does. */
  lemma InOrderTableMatchesUses(h: seq<Event>, n: nat, token: string, now: int)
    requires n <= |h| && Monotone(h, n, now)
    ensures Authed(After(h, n), token, now) <==> Valid(h, n, token, now)
  {
    TableMatchesHistory(h, n, token, now);
    if Authed(After(h, n), token, now) {
      AcceptedIsValid(h, n, token, now);
    }
    if Valid(h, n, token, now) {
      var i: nat :| ValidSince(h, n, token, now, i);
      ValidIsAlive(h, n, token, now, i);
    }
  }

  /** It happens: `Authed` reads the clock before it takes the lock, so a login with a later time may sweep first, and a
      use that was in time when it read the clock is turned away. */
  lemma OutOfOrderUseIsRejected(a: string, b: string)
    requires a != b
    ensures var h := [Login(a, 0), Login(b, TTL + 1)];
            && Valid(h, 2, a, TTL) && !Authed(After(h, 2), a, TTL)
            && !Monotone(h, 2, TTL) && !InTime(h, 0, 1, a, h[1].at)
  {
    var h := [Login(a, 0), Login(b, TTL + 1)];
    assert After(h, 1) == Apply(After(h, 0), h[0]);
    assert After(h, 2) == Apply(After(h, 1), h[1]);
    assert ValidSince(h, 2, a, TTL, 0);
  }

  // ---- without sweeps ----

  /** The table with neither the sweep at login nor the lazy deletion. */
  function ApplyLazily(t: Table, e: Event): Table {
    match e
    case Login(token, at) => t[token := at + TTL]
    case Logout(token) => t - {token}
    case Use(token, at) => if Authed(t, token, at) then t[token := at + TTL] else t
  }

  function AfterLazily(h: seq<Event>, n: nat): Table
    requires n <= |h|
  {
    if n == 0 then map[] else ApplyLazily(AfterLazily(h, n - 1), h[n - 1])
  }

  /** Deletions are invisible over whole histories: with all of them left out, every answer is the same. */
  lemma {:induction false} DeletionsAreInvisible(h: seq<Event>, n: nat, token: string, now: int)
    requires n <= |h| && Monotone(h, n, now)
    ensures Authed(After(h, n), token, now) <==> Authed(AfterLazily(h, n), token, now)
  {
    if n > 0 {
      DeletionsAreInvisible(h, n - 1, token, now);
      if h[n - 1].Use? {
        DeletionsAreInvisible(h, n - 1, token, h[n - 1].at);
      }
    }
  }

  datatype Cookie = NoCookie | Cookie(value: string)

  /** The service object; the caller passes the clock reading. */
  class Service {
    const enabled: bool
    var sessions: Table

    constructor (enabled: bool)
      ensures this.enabled == enabled && sessions == map[]
    {
      this.enabled, sessions := enabled, map[];
    }

    /** `gcLocked` ranges over the map and deletes what has expired. */
    method Collect(now: int)
      modifies this
      ensures sessions == Collected(old(sessions), now)
    {
      var todo := sessions.Keys;
      while todo != {}
        invariant todo <= sessions.Keys <= old(sessions).Keys
        invariant forall k :: k in sessions ==> sessions[k] == old(sessions)[k]
        invariant forall k :: k in old(sessions) && k !in todo ==> (k in sessions <==> !Expired(old(sessions)[k], now))
        decreases |todo|
      {
        var k :| k in todo;
        if now > sessions[k] {
          sessions := sessions - {k};
        }
        todo := todo - {k};
      }
    }

    /** `handleLogin`; without auth, or with wrong credentials, no session is made. */
    method HandleLogin(credentialsOk: bool, token: string, now: int) returns (ok: bool)
      modifies this
      ensures ok <==> !enabled || credentialsOk
      ensures sessions == if enabled && credentialsOk then Apply(old(sessions), Login(token, now)) else old(sessions)
    {
      if !enabled {
        return true;
      }
      if !credentialsOk {
        return false;
      }
      Collect(now);
      sessions := sessions[token := now + TTL];
      return true;
    }

    method HandleLogout(cookie: Cookie)
      modifies this
      ensures sessions == if cookie.Cookie? then Apply(old(sessions), Logout(cookie.value)) else old(sessions)
    {
      if cookie.Cookie? {
        sessions := sessions - {cookie.value};
      }
    }

    /** `Authed`, with sliding expiry and lazy deletion. */
    method CheckSession(cookie: Cookie, now: int) returns (ok: bool)
      modifies this
      ensures !enabled ==> ok && sessions == old(sessions)
      ensures enabled && (cookie.NoCookie? || cookie.value == "") ==> !ok && sessions == old(sessions)
      ensures enabled && cookie.Cookie? && cookie.value != "" ==>
                && ok == Authed(old(sessions), cookie.value, now)
                && sessions == Apply(old(sessions), Use(cookie.value, now))
    {
      if !enabled {
        return true;
      }
      if cookie.NoCookie? || cookie.value == "" {
        return false;
      }
      if cookie.value !in sessions {
        return false;
      }
      if now > sessions[cookie.value] {
        sessions := sessions - {cookie.value};
        return false;
      }
      sessions := sessions[cookie.value := now + TTL];
      return true;
    }
  }
}
