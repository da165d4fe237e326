/** The app cache of the webhook handler against the history of its puts: a route is served exactly what was last
    cached under its key, at most one TTL ago, under every interleaving of handlers, updates and sweeps. */
module AppCache {
  import opened Common
  import Keys

  const TTL: int := 30 * 1_000_000_000

  datatype Route = Route(group: string, app: string)

  /** `Route` rows of the store; the payload stands for every other column, encrypted credentials included. */
  datatype AppRow = AppRow(enabled: bool, payload: string)

  datatype Cached = Cached(app: string, expires: int)

  function CacheKey(r: Route): string { r.group + ":" + r.app }

  /** What a handler read from the store on a miss. */
  datatype Lookup = Lookup(route: Route, row: AppRow)

  datatype State = State(now: int, table: map<Route, AppRow>, entries: map<string, Cached>, lookups: seq<Lookup>)

  datatype Action =
    | Tick(d: nat)
    | Write(route: Route, row: AppRow)
    | Delete(route: Route)
    | Read(route: Route)          // GetAppByRoute on a miss
    | Put(i: nat)                 // decrypt and cache the row of an earlier lookup
    | Sweep

  /** The handler caches what it looked up if the app is enabled and its credentials decrypt. */
  predicate Caches(s: State, decrypt: string -> Option<string>, i: nat) {
    i < |s.lookups| && s.lookups[i].row.enabled && decrypt(s.lookups[i].row.payload).Some?
  }

  /** A handler that finds no row, a disabled app or bad credentials answers with an error and changes nothing. */
  function Next(s: State, decrypt: string -> Option<string>, a: Action): State {
    match a
    case Tick(d) => s.(now := s.now + d)
    case Write(route, row) => s.(table := s.table[route := row])
    case Delete(route) => s.(table := s.table - {route})
    case Read(route) => if route in s.table then s.(lookups := s.lookups + [Lookup(route, s.table[route])]) else s
    case Put(i) =>
      if Caches(s, decrypt, i) then
        var entry := Cached(decrypt(s.lookups[i].row.payload).value, s.now + TTL);
        s.(entries := s.entries[CacheKey(s.lookups[i].route) := entry])
      else s
    case Sweep => s.(entries := Swept(s.entries, s.now))
  }

  /** The cleanup goroutine's tick. */
  function Swept(entries: map<string, Cached>, now: int): map<string, Cached> {
    map k | k in entries && now <= entries[k].expires :: entries[k]
  }

  /** What `Get` answers from the entries it saw under the lock, with the clock it reads afterwards. */
  function Answer(entries: map<string, Cached>, key: string, now: int): Option<string> {
    if key !in entries || now > entries[key].expires then None else Some(entries[key].app)
  }

  /** A run: every interleaving of handlers, store updates, sweeps and the clock is a sequence of actions. */
  datatype Run = Run(start: int, decrypt: string -> Option<string>, acts: seq<Action>)

  /** The state after the first `n` actions. */
  function At(r: Run, n: nat): State
    requires n <= |r.acts|
  {
    if n == 0 then State(r.start, map[], map[], []) else Next(At(r, n - 1), r.decrypt, r.acts[n - 1])
  }

  lemma {:induction false} ClockMonotone(r: Run, m: nat, n: nat)
    requires m <= n <= |r.acts|
    ensures At(r, m).now <= At(r, n).now
  {
    if m < n {
      ClockMonotone(r, m, n - 1);
    }
  }

  // ---- the specification: puts only ----

  /** Action `p` of the run caches something under `key`. */
  predicate Stores(r: Run, p: nat, key: string) {
    && p < |r.acts| && r.acts[p].Put? && r.acts[p].i < |At(r, p).lookups|
    && var l := At(r, p).lookups[r.acts[p].i];
    && l.row.enabled && r.decrypt(l.row.payload).Some? && CacheKey(l.route) == key
  }

  /** The app that action cached. */
  function Stored(r: Run, p: nat, key: string): string
    requires Stores(r, p, key)
  {
    r.decrypt(At(r, p).lookups[r.acts[p].i].row.payload).value
  }

  /** Action `p` is the last of the first `n` that cached something under `key`. */
  ghost predicate LastPut(r: Run, n: nat, key: string, p: nat) {
    p < n <= |r.acts| && Stores(r, p, key) && forall q :: p < q < n ==> !Stores(r, q, key)
  }

  /** The map against the puts: an entry is the last put under its key, and a last put without entry has expired. */
  ghost predicate Tracks(r: Run, n: nat)
    requires n <= |r.acts|
  {
    && (forall key :: key in At(r, n).entries ==> exists p :: EntryOf(r, n, key, p))
    && (forall key, p :: LastPut(r, n, key, p) ==> key in At(r, n).entries || At(r, n).now > At(r, p).now + TTL)
  }

  ghost predicate EntryOf(r: Run, n: nat, key: string, p: nat)
    requires n <= |r.acts|
  {
    && LastPut(r, n, key, p) && key in At(r, n).entries
    && At(r, n).entries[key] == Cached(Stored(r, p, key), At(r, p).now + TTL)
  }

  /** One more action that stores nothing under `key` leaves the last put of `key` what it was. */
  lemma LastPutStays(r: Run, n: nat, key: string, p: nat)
    requires n < |r.acts| && !Stores(r, n, key)
    ensures LastPut(r, n + 1, key, p) <==> LastPut(r, n, key, p)
  {
  }

  /** What an action that puts nothing under `key` does to its entry: nothing, unless a sweep finds it expired. */
  lemma StepEntry(r: Run, n: nat, m: nat, key: string)
    requires m == n + 1 <= |r.acts| && !Stores(r, n, key)
    ensures var s, t := At(r, n), At(r, m);
            && (key in t.entries ==> key in s.entries && t.entries[key] == s.entries[key])
            && (key in s.entries && key !in t.entries ==> t.now > s.entries[key].expires)
            && s.now <= t.now
  {
  }

  /** An entry after one more action is the last put of its key. */
  lemma StepKeepsEntry(r: Run, n: nat, m: nat, key: string)
    requires m == n + 1 <= |r.acts| && Tracks(r, n) && key in At(r, m).entries
    ensures exists p :: EntryOf(r, m, key, p)
  {
    if Stores(r, n, key) {
      assert EntryOf(r, m, key, n);
    } else {
      StepEntry(r, n, m, key);
      var p :| EntryOf(r, n, key, p);
      LastPutStays(r, n, key, p);
      assert EntryOf(r, m, key, p);
    }
  }

  /** A last put that has no entry after one more action has expired: only a sweep drops entries. */
  lemma StepKeepsPut(r: Run, n: nat, m: nat, key: string, p: nat)
    requires m == n + 1 <= |r.acts| && Tracks(r, n) && LastPut(r, m, key, p)
    ensures key in At(r, m).entries || At(r, m).now > At(r, p).now + TTL
  {
    if !Stores(r, n, key) {
      StepEntry(r, n, m, key);
      LastPutStays(r, n, key, p);
      if key in At(r, n).entries {
        var q :| EntryOf(r, n, key, q);
        assert q == p;
      }
    }
  }

  lemma {:induction false} RunTracks(r: Run, n: nat)
    requires n <= |r.acts|
    ensures Tracks(r, n)
  {
    if n > 0 {
      RunTracks(r, n - 1);
      forall key | key in At(r, n).entries
        ensures exists p :: EntryOf(r, n, key, p)
      {
        StepKeepsEntry(r, n - 1, n, key);
      }
      forall key, p | LastPut(r, n, key, p)
        ensures key in At(r, n).entries || At(r, n).now > At(r, p).now + TTL
      {
        StepKeepsPut(r, n - 1, n, key, p);
      }
    }
  }

  /** `app` is what action `p` cached under `key`, last and at most one TTL before `now`. */
  ghost predicate Fresh(r: Run, n: nat, key: string, now: int, app: string, p: nat) {
    LastPut(r, n, key, p) && now - At(r, p).now <= TTL && Stored(r, p, key) == app
  }

  /** The two-sided specification: at every moment of every run, a lookup that then reads the clock is answered `app`
      if and only if `app` is what was last cached under its key, at most one TTL before. Sweeps do not occur in it. */
  lemma AnswersMatchHistory(r: Run, n: nat, key: string, now: int, app: string)
    requires n <= |r.acts| && At(r, n).now <= now
    ensures Answer(At(r, n).entries, key, now) == Some(app) <==>
            exists p :: Fresh(r, n, key, now, app, p)
  {
    RunTracks(r, n);
    if key in At(r, n).entries {
      var p :| EntryOf(r, n, key, p);
      assert forall q :: LastPut(r, n, key, q) ==> q == p;
      assert Fresh(r, n, key, now, Stored(r, p, key), p) || now - At(r, p).now > TTL;
    }
  }

  // ---- sweeps ----

  /** The same run with every sweep deleted: in its place nothing happens. */
  function Unswept(r: Run): Run {
    r.(acts := seq(|r.acts|, i requires 0 <= i < |r.acts| => if r.acts[i].Sweep? then Tick(0) else r.acts[i]))
  }

  predicate SameButEntries(s: State, t: State) { s.now == t.now && s.table == t.table && s.lookups == t.lookups }

  lemma SameStep(s: State, t: State, decrypt: string -> Option<string>, a: Action)
    requires SameButEntries(s, t)
    ensures SameButEntries(Next(s, decrypt, a), Next(t, decrypt, if a.Sweep? then Tick(0) else a))
  {
  }

  lemma {:induction false} SameRun(r: Run, n: nat)
    requires n <= |r.acts|
    ensures SameButEntries(At(r, n), At(Unswept(r), n))
  {
    if n > 0 {
      SameRun(r, n - 1);
      SameStep(At(r, n - 1), At(Unswept(r), n - 1), r.decrypt, r.acts[n - 1]);
    }
  }

  /** Deleting the sweeps changes neither what is put nor when. */
  lemma SamePut(r: Run, p: nat, key: string)
    requires p < |r.acts|
    ensures Stores(Unswept(r), p, key) <==> Stores(r, p, key)
    ensures Stores(r, p, key) ==> Stored(Unswept(r), p, key) == Stored(r, p, key)
    ensures At(Unswept(r), p).now == At(r, p).now
  {
    SameRun(r, p);
  }

  lemma SameLastPut(r: Run, n: nat, key: string, p: nat)
    requires n <= |r.acts|
    ensures LastPut(Unswept(r), n, key, p) <==> LastPut(r, n, key, p)
  {
    forall q | 0 <= q < |r.acts|
      ensures Stores(Unswept(r), q, key) <==> Stores(r, q, key)
    {
      SamePut(r, q, key);
    }
  }

  lemma SameFresh(r: Run, n: nat, key: string, now: int, app: string, p: nat)
    requires n <= |r.acts|
    ensures Fresh(Unswept(r), n, key, now, app, p) <==> Fresh(r, n, key, now, app, p)
  {
    SameLastPut(r, n, key, p);
    if p < |r.acts| {
      SamePut(r, p, key);
    }
  }

  /** Sweeps are invisible over whole runs: with all of them deleted, every lookup gets the answer it got. */
  lemma SweepsAreInvisible(r: Run, n: nat, key: string, now: int)
    requires n <= |r.acts| && At(r, n).now <= now
    ensures Answer(At(r, n).entries, key, now) == Answer(At(Unswept(r), n).entries, key, now)
  {
    var u := Unswept(r);
    SameRun(r, n);
    forall app: string
      ensures Answer(At(r, n).entries, key, now) == Some(app) <==> Answer(At(u, n).entries, key, now) == Some(app)
    {
      AnswersMatchHistory(r, n, key, now, app);
      AnswersMatchHistory(u, n, key, now, app);
      forall p: nat
        ensures Fresh(u, n, key, now, app, p) <==> Fresh(r, n, key, now, app, p)
      {
        SameFresh(r, n, key, now, app, p);
      }
    }
  }

  // ---- bounded staleness ----

  /** Action `k` of the run read, from the store of that moment, what lookup `l` recorded. */
  predicate ReadBy(r: Run, k: nat, l: Lookup) {
    && k < |r.acts| && r.acts[k] == Read(l.route)
    && l.route in At(r, k).table && At(r, k).table[l.route] == l.row
  }

  /** Every lookup of a run records what the store held at some moment of the run. */
  lemma {:induction false} LookupWasRead(r: Run, n: nat, i: nat) returns (k: nat)
    requires n <= |r.acts| && i < |At(r, n).lookups|
    ensures k < n && ReadBy(r, k, At(r, n).lookups[i])
  {
    if i < |At(r, n - 1).lookups| {
      k := LookupWasRead(r, n - 1, i);
    } else {
      k := n - 1;
    }
  }

  /** The app a route is served at time `now` was read from the store, enabled, by action `k` of the run and cached by a
      later action `p`, at most one TTL before `now` and not replaced since. If group names contain no ':', the row
      read is the route's own. */
  ghost predicate ServedFrom(r: Run, n: nat, route: Route, now: int, k: nat, p: nat)
    requires n <= |r.acts|
  {
    && k < p && LastPut(r, n, CacheKey(route), p)
    && var l := At(r, p).lookups[r.acts[p].i];
    && ReadBy(r, k, l) && l.row.enabled
    && r.decrypt(l.row.payload) == Answer(At(r, n).entries, CacheKey(route), now)
    && At(r, k).now <= At(r, p).now <= At(r, n).now && now - At(r, p).now <= TTL
    && (':' !in route.group && ':' !in l.route.group ==> l.route == route)
  }

  /** Bounded staleness: at every moment of every run, whatever a route is served comes from such a read and put. */
  lemma {:induction false} ServedIsRecent(r: Run, n: nat, route: Route, now: int)
    requires n <= |r.acts| && Answer(At(r, n).entries, CacheKey(route), now).Some?
    ensures exists k, p :: ServedFrom(r, n, route, now, k, p)
  {
    RunTracks(r, n);
    var p: nat :| EntryOf(r, n, CacheKey(route), p);
    var l := At(r, p).lookups[r.acts[p].i];
    var k := LookupWasRead(r, p, r.acts[p].i);
    ClockMonotone(r, k, p);
    ClockMonotone(r, p, n);
    if ':' !in route.group && ':' !in l.route.group {
      Keys.Split(':', l.route.group, l.route.app, route.group, route.app);
    }
    assert ServedFrom(r, n, route, now, k, p);
  }

  /** A lookup once recorded stays. */
  lemma {:induction false} LookupStays(r: Run, m: nat, n: nat, i: nat)
    requires m <= n <= |r.acts| && i < |At(r, m).lookups|
    ensures i < |At(r, n).lookups| && At(r, n).lookups[i] == At(r, m).lookups[i]
  {
    if m < n {
      LookupStays(r, m, n - 1, i);
    }
  }

  /** A put of the lookup that action `k` recorded. */
  lemma PutOfRead(r: Run, k: nat, p: nat, route: Route)
    requires k < p < |r.acts| && r.acts[k] == Read(route) && route in At(r, k).table
    requires At(r, k).table[route].enabled && r.decrypt(At(r, k).table[route].payload).Some?
    requires r.acts[p] == Put(|At(r, k).lookups|)
    ensures Stores(r, p, CacheKey(route))
    ensures Stored(r, p, CacheKey(route)) == r.decrypt(At(r, k).table[route].payload).value
  {
    var after: nat := k + 1;
    assert At(r, after) == Next(At(r, k), r.decrypt, r.acts[k]);
    LookupStays(r, after, p, |At(r, k).lookups|);
  }

  /** And the cache serves: an enabled app read by action `k` and cached by a later action `p` is what its route is
      answered with until a TTL has passed or something else is cached under the key. */
  lemma CachedIsServed(r: Run, k: nat, p: nat, n: nat, route: Route, now: int)
    requires k < p < n <= |r.acts| && r.acts[k] == Read(route) && route in At(r, k).table
    requires At(r, k).table[route].enabled && r.decrypt(At(r, k).table[route].payload).Some?
    requires r.acts[p] == Put(|At(r, k).lookups|) && forall q :: p < q < n ==> !Stores(r, q, CacheKey(route))
    requires At(r, n).now <= now <= At(r, p).now + TTL
    ensures Answer(At(r, n).entries, CacheKey(route), now) == r.decrypt(At(r, k).table[route].payload)
  {
    var app := r.decrypt(At(r, k).table[route].payload).value;
    PutOfRead(r, k, p, route);
    assert Fresh(r, n, CacheKey(route), now, app, p);
    AnswersMatchHistory(r, n, CacheKey(route), now, app);
  }

  /** The condition on names is exact: a route shares its key with one of a shorter group name iff its group
      contains ':'. */
  lemma KeySharedIff(r: Route)
    ensures ':' in r.group <==> exists q: Route :: q != r && |q.group| < |r.group| && CacheKey(q) == CacheKey(r)
  {
    if ':' in r.group {
      var g, a := Keys.Collides(':', r.group, r.app);
      assert CacheKey(Route(g, a)) == CacheKey(r);
    } else {
      forall q: Route | q != r && |q.group| < |r.group|
        ensures CacheKey(q) != CacheKey(r)
      {
        assert CacheKey(q)[|q.group|] == ':';
        assert CacheKey(r)[|q.group|] == r.group[|q.group|];
      }
    }
  }

  /** The cache object; the caller passes the clock readings. */
  class Cache {
    var entries: map<string, Cached>

    constructor ()
      ensures entries == map[]
    {
      entries := map[];
    }

    /** The entry is read under the lock, the clock afterwards. */
    method Lookup(route: Route, now: int) returns (app: Option<string>)
      ensures app == Answer(entries, CacheKey(route), now)
    {
      if CacheKey(route) !in entries || now > entries[CacheKey(route)].expires {
        return None;
      }
      return Some(entries[CacheKey(route)].app);
    }

    /** From now on the route's key is answered with this app until one TTL has passed, and no other key is affected. */
    method Set(route: Route, app: string, now: int)
      modifies this
      ensures entries.Keys == old(entries.Keys) + {CacheKey(route)}
      ensures forall later :: Answer(entries, CacheKey(route), later) == if later <= now + TTL then Some(app) else None
      ensures forall key, later :: key != CacheKey(route) ==>
                Answer(entries, key, later) == Answer(old(entries), key, later)
    {
      entries := entries[CacheKey(route) := Cached(app, now + TTL)];
    }

    /** One tick of the cleanup goroutine. */
    method Cleanup(now: int)
      modifies this
      ensures entries == Swept(old(entries), now)
    {
      var todo := entries.Keys;
      while todo != {}
        invariant todo <= entries.Keys <= old(entries).Keys
        invariant forall k :: k in entries ==> entries[k] == old(entries)[k]
        invariant forall k :: k in old(entries) && k !in todo ==> (k in entries <==> now <= old(entries)[k].expires)
        decreases |todo|
      {
        var k :| k in todo;
        if now > entries[k].expires {
          entries := entries - {k};
        }
        todo := todo - {k};
      }
    }
  }
}
