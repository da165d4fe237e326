/** The MinIO client cache: load, else build and load-or-store, by any number of goroutines. */
module ClientCache {
  import Keys

  datatype Config = Config(
    endpoint: string, accessKey: string, secretKey: string, region: string, useSsl: bool, skipTls: bool)

  /** What `minio.New` builds from a configuration; `id` is the pointer. */
  datatype Client = Client(
    id: nat, endpoint: string, accessKey: string, secretKey: string, region: string, secure: bool, insecureTls: bool)

  function Build(id: nat, c: Config): Client {
    Client(id, c.endpoint, c.accessKey, c.secretKey, c.region, c.useSsl, c.skipTls)
  }

  function CacheKey(c: Config): string {
    c.endpoint + "|" + c.accessKey + "|" + (if c.skipTls then "1" else "0")
  }

  /** A call of `clientFor`: before its load, holding the client it built, or returned. */
  datatype Call =
    | Loading(cfg: Config)
    | Built(cfg: Config, client: Client)
    | Returned(cfg: Config, client: Client)
    | FailedCall(cfg: Config)

  datatype State = State(clients: map<string, Client>, calls: seq<Call>, built: nat)

  datatype Action = Start(cfg: Config) | Load(i: nat, ok: bool) | Store(i: nat)

  predicate Enabled(s: State, a: Action) {
    match a
    case Start(_) => true
    case Load(i, _) => i < |s.calls| && s.calls[i].Loading?
    case Store(i) => i < |s.calls| && s.calls[i].Built?
  }

  function Next(s: State, a: Action): State
    requires Enabled(s, a)
  {
    match a
    case Start(cfg) => s.(calls := s.calls + [Loading(cfg)])
    case Load(i, ok) =>
      var cfg := s.calls[i].cfg;
      var k := CacheKey(cfg);
      if k in s.clients then s.(calls := s.calls[i := Returned(cfg, s.clients[k])])
      else if ok then s.(calls := s.calls[i := Built(cfg, Build(s.built, cfg))], built := s.built + 1)
      else s.(calls := s.calls[i := FailedCall(cfg)])
    case Store(i) =>
      var cfg := s.calls[i].cfg;
      var k := CacheKey(cfg);
      if k in s.clients then s.(calls := s.calls[i := Returned(cfg, s.clients[k])])
      else s.(clients := s.clients[k := s.calls[i].client], calls := s.calls[i := Returned(cfg, s.calls[i].client)])
  }

  predicate IsRun(s: State, acts: seq<Action>)
    decreases |acts|
  {
    acts == [] || (Enabled(s, acts[0]) && IsRun(Next(s, acts[0]), acts[1..]))
  }

  function After(s: State, acts: seq<Action>): State
    requires IsRun(s, acts)
    decreases |acts|
  {
    if acts == [] then s else After(Next(s, acts[0]), acts[1..])
  }

  function Init(): State { State(map[], [], 0) }

  /** The configuration some call started with and the client it built from it. */
  predicate BuiltFrom(cl: Client, k: string, cfg: Config) {
    CacheKey(cfg) == k && cl == Build(cl.id, cfg)
  }

  ghost predicate BuildsOk(s: State) {
    forall i :: 0 <= i < |s.calls| && s.calls[i].Built? ==>
      s.calls[i].client == Build(s.calls[i].client.id, s.calls[i].cfg)
  }

  /** Whoever returned, returned what the map holds under its key. */
  ghost predicate ReturnsOk(s: State) {
    forall i :: 0 <= i < |s.calls| && s.calls[i].Returned? ==>
      CacheKey(s.calls[i].cfg) in s.clients && s.clients[CacheKey(s.calls[i].cfg)] == s.calls[i].client
  }

  /** Every entry was built by a call with that key. */
  ghost predicate EntriesOk(s: State) {
    forall k :: k in s.clients ==> exists i :: 0 <= i < |s.calls| && BuiltFrom(s.clients[k], k, s.calls[i].cfg)
  }

  ghost predicate Inv(s: State) { BuildsOk(s) && ReturnsOk(s) && EntriesOk(s) }

  /** An entry is never replaced, and a call keeps its configuration. */
  lemma EntriesStay(s: State, a: Action)
    requires Enabled(s, a)
    ensures forall k :: k in s.clients ==> k in Next(s, a).clients && Next(s, a).clients[k] == s.clients[k]
    ensures |s.calls| <= |Next(s, a).calls|
    ensures forall i :: 0 <= i < |s.calls| ==> Next(s, a).calls[i].cfg == s.calls[i].cfg
  {
  }

  lemma KeepsReturns(s: State, a: Action)
    requires ReturnsOk(s) && Enabled(s, a)
    ensures ReturnsOk(Next(s, a))
  {
  }

  lemma KeepsBuilds(s: State, a: Action)
    requires BuildsOk(s) && Enabled(s, a)
    ensures BuildsOk(Next(s, a))
  {
  }

  lemma KeepsEntries(s: State, a: Action)
    requires BuildsOk(s) && EntriesOk(s) && Enabled(s, a)
    ensures EntriesOk(Next(s, a))
  {
    var t := Next(s, a);
    EntriesStay(s, a);
    forall k | k in t.clients
      ensures exists i :: 0 <= i < |t.calls| && BuiltFrom(t.clients[k], k, t.calls[i].cfg)
    {
      if k in s.clients {
        var i :| 0 <= i < |s.calls| && BuiltFrom(s.clients[k], k, s.calls[i].cfg);
        assert BuiltFrom(t.clients[k], k, t.calls[i].cfg);
      } else {
        assert a.Store? && BuiltFrom(t.clients[k], k, t.calls[a.i].cfg);
      }
    }
  }

  lemma NextKeepsInv(s: State, a: Action)
    requires Inv(s) && Enabled(s, a)
    ensures Inv(Next(s, a))
  {
    KeepsBuilds(s, a);
    KeepsReturns(s, a);
    KeepsEntries(s, a);
  }

  lemma {:induction false} RunKeepsInv(s: State, acts: seq<Action>)
    requires Inv(s) && IsRun(s, acts)
    ensures Inv(After(s, acts))
    ensures forall k :: k in s.clients ==> k in After(s, acts).clients && After(s, acts).clients[k] == s.clients[k]
    decreases |acts|
  {
    if acts != [] {
      NextKeepsInv(s, acts[0]);
      EntriesStay(s, acts[0]);
      RunKeepsInv(Next(s, acts[0]), acts[1..]);
    }
  }

  /** First store wins: in every interleaving, any two calls with one key return the identical client. */
  lemma SameKeySameClient(acts: seq<Action>, i: nat, j: nat)
    requires IsRun(Init(), acts) && i < |After(Init(), acts).calls| && j < |After(Init(), acts).calls|
    requires After(Init(), acts).calls[i].Returned? && After(Init(), acts).calls[j].Returned?
    requires CacheKey(After(Init(), acts).calls[i].cfg) == CacheKey(After(Init(), acts).calls[j].cfg)
    ensures After(Init(), acts).calls[i].client == After(Init(), acts).calls[j].client
  {
    RunKeepsInv(Init(), acts);
  }

  lemma KeyParts(c: Config, d: Config)
    requires CacheKey(c) == CacheKey(d) && '|' !in c.endpoint && '|' !in d.endpoint
    ensures c.endpoint == d.endpoint && c.accessKey == d.accessKey && c.skipTls == d.skipTls
  {
    var k, l := CacheKey(c), CacheKey(d);
    var n := |k| - 2;
    assert k == c.endpoint + "|" + c.accessKey + "|" + (if c.skipTls then "1" else "0");
    assert k[n + 1] == (if c.skipTls then '1' else '0') && l[n + 1] == (if d.skipTls then '1' else '0');
    assert k[..n] == c.endpoint + ['|'] + c.accessKey && l[..n] == d.endpoint + ['|'] + d.accessKey;
    Keys.Split('|', c.endpoint, c.accessKey, d.endpoint, d.accessKey);
  }

  /** A returned client was built by some call of the run with the same key and has that call's settings. If endpoints
      contain no '|' it has the caller's endpoint, access key and TLS setting; it equals, apart from its identity, a
      fresh build for the caller exactly when secret, region and SSL flag agree with that builder's. */
  lemma ReturnedClientFits(acts: seq<Action>, i: nat) returns (b: nat)
    requires IsRun(Init(), acts) && i < |After(Init(), acts).calls| && After(Init(), acts).calls[i].Returned?
    ensures var s := After(Init(), acts);
            b < |s.calls| && var me, builder, cl := s.calls[i].cfg, s.calls[b].cfg, s.calls[i].client;
            && CacheKey(builder) == CacheKey(me)
            && cl.endpoint == builder.endpoint && cl.accessKey == builder.accessKey && cl.secretKey == builder.secretKey
            && cl.region == builder.region && cl.secure == builder.useSsl && cl.insecureTls == builder.skipTls
            && ('|' !in me.endpoint && '|' !in builder.endpoint ==>
                  && cl.endpoint == me.endpoint && cl.accessKey == me.accessKey && cl.insecureTls == me.skipTls
                  && (cl == Build(cl.id, me) <==>
                      builder.secretKey == me.secretKey && builder.region == me.region && builder.useSsl == me.useSsl))
  {
    RunKeepsInv(Init(), acts);
    var s := After(Init(), acts);
    var k := CacheKey(s.calls[i].cfg);
    b :| 0 <= b < |s.calls| && BuiltFrom(s.clients[k], k, s.calls[b].cfg);
    if '|' !in s.calls[i].cfg.endpoint && '|' !in s.calls[b].cfg.endpoint {
      KeyParts(s.calls[i].cfg, s.calls[b].cfg);
    }
  }

  lemma RunCons(s: State, a: Action, rest: seq<Action>)
    requires Enabled(s, a) && IsRun(Next(s, a), rest)
    ensures IsRun(s, [a] + rest) && After(s, [a] + rest) == After(Next(s, a), rest)
  {
  }

  /** So a changed secret is not picked up: in some run a caller with a new secret gets the client of the old one. */
  lemma RotatedSecretIsIgnored(c: Config, secret: string) returns (acts: seq<Action>)
    requires secret != c.secretKey
    ensures IsRun(Init(), acts) && |After(Init(), acts).calls| == 2
    ensures After(Init(), acts).calls[1] == Returned(c.(secretKey := secret), Build(0, c))
    ensures After(Init(), acts).calls[1].client.secretKey == c.secretKey
  {
    var d := c.(secretKey := secret);
    var s1 := Next(Init(), Start(c));
    var s2 := Next(s1, Load(0, true));
    var s3 := Next(s2, Store(0));
    var s4 := Next(s3, Start(d));
    RunCons(s4, Load(1, true), []);
    acts := [Load(1, true)] + [];
    RunCons(s3, Start(d), acts);
    acts := [Start(d)] + acts;
    RunCons(s2, Store(0), acts);
    acts := [Store(0)] + acts;
    RunCons(s1, Load(0, true), acts);
    acts := [Load(0, true)] + acts;
    RunCons(Init(), Start(c), acts);
    acts := [Start(c)] + acts;
  }
}
