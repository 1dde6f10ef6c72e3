/** The SSH gateway's limiter for ticket requests: a token bucket per client, in a table that is pruned and
    bounded. In exact arithmetic it decides like a limiter that never forgets a client, exactly when a
    bucket refills within the time after which a client is forgotten. */
module TicketLimiter {
  import opened Options

  type Ip = nat

  datatype Bucket = Bucket(tokens: real, updatedAt: real, lastSeenAt: real)

  /** `Config` holds what `with_policy` is given. */
  datatype Config = Config(burst: nat, refill: real, maximum: nat, expiry: real, cleanupInterval: real)

  datatype State = State(clients: map<Ip, Bucket>, nextCleanup: real)

  datatype Decision = Accepted | Exhausted | TurnedAway

  datatype Request = Request(ip: Ip, now: real)

  function Min(a: real, b: real): real { if a <= b then a else b }

  /** `checked_duration_since(..).unwrap_or_default()`. */
  function Since(now: real, earlier: real): real { if now >= earlier then now - earlier else 0.0 }

  /** A bucket after `elapsed` seconds without a request. */
  function Filled(cfg: Config, tokens: real, elapsed: real): real {
    Min(tokens + elapsed * cfg.refill, cfg.burst as real)
  }

  // ------------------------------------------------------------------ the evicting limiter

  function RemoveExpired(cfg: Config, clients: map<Ip, Bucket>, now: real): map<Ip, Bucket> {
    map ip | ip in clients && Since(now, clients[ip].lastSeenAt) < cfg.expiry :: clients[ip]
  }

  function Cleaned(cfg: Config, s: State, now: real): State {
    if now >= s.nextCleanup then State(RemoveExpired(cfg, s.clients, now), now + cfg.cleanupInterval) else s
  }

  function AllowAt(cfg: Config, s: State, ip: Ip, now: real): (Decision, State) {
    Allow(cfg, Cleaned(cfg, s, now), ip, now)
  }

  function Allow(cfg: Config, s: State, ip: Ip, now: real): (Decision, State) {
    if ip in s.clients then
      var level := Filled(cfg, s.clients[ip].tokens, Since(now, s.clients[ip].updatedAt));
      if level < 1.0 then (Exhausted, s.(clients := s.clients[ip := Bucket(level, now, now)]))
      else (Accepted, s.(clients := s.clients[ip := Bucket(level - 1.0, now, now)]))
    else
      var kept := if |s.clients| >= cfg.maximum then RemoveExpired(cfg, s.clients, now) else s.clients;
      if |kept| >= cfg.maximum then (TurnedAway, s.(clients := kept))
      else (Accepted, s.(clients := kept[ip := Bucket(cfg.burst as real - 1.0, now, now)]))
  }

  // ------------------------------------------------------------------ the limiter that never evicts

  datatype Account = Account(tokens: real, at: real)
  type Ledger = map<Ip, Account>

  /** A client that was never seen has a full bucket. */
  function Level(cfg: Config, ledger: Ledger, ip: Ip, now: real): real {
    if ip in ledger then Filled(cfg, ledger[ip].tokens, Since(now, ledger[ip].at))
    else cfg.burst as real
  }

  function Remembering(cfg: Config, ledger: Ledger, ip: Ip, now: real): (bool, Ledger) {
    var level := Level(cfg, ledger, ip, now);
    if level < 1.0 then (false, ledger[ip := Account(level, now)]) else (true, ledger[ip := Account(level - 1.0, now)])
  }

  // ------------------------------------------------------------------ both of them, request by request

  datatype Pair = Pair(state: State, ledger: Ledger)

  function Start(cfg: Config, now: real): Pair { Pair(State(map[], now + cfg.cleanupInterval), map[]) }

  /** The limiter that never evicts is not asked about requests that the client-count cap turns away. */
  function Advance(cfg: Config, p: Pair, r: Request): Pair {
    var (decision, state) := AllowAt(cfg, p.state, r.ip, r.now);
    Pair(state, if decision.TurnedAway? then p.ledger else Remembering(cfg, p.ledger, r.ip, r.now).1)
  }

  function After(cfg: Config, start: real, log: seq<Request>): Pair {
    if log == [] then Start(cfg, start) else Advance(cfg, After(cfg, start, log[..|log| - 1]), log[|log| - 1])
  }

  /** The decision on request `n` of a log. */
  function DecisionAt(cfg: Config, start: real, log: seq<Request>, n: nat): Decision
    requires n < |log|
  {
    AllowAt(cfg, After(cfg, start, log[..n]).state, log[n].ip, log[n].now).0
  }

  function RememberingAt(cfg: Config, start: real, log: seq<Request>, n: nat): bool
    requires n < |log|
  {
    Remembering(cfg, After(cfg, start, log[..n]).ledger, log[n].ip, log[n].now).0
  }

  predicate InOrder(start: real, log: seq<Request>) {
    && (forall n | 0 <= n < |log| :: start <= log[n].now)
    && forall m, n | 0 <= m < n < |log| :: log[m].now <= log[n].now
  }

  /** The moment of the last request. */
  function Clock(start: real, log: seq<Request>): real { if log == [] then start else log[|log| - 1].now }

  predicate Policy(cfg: Config) { cfg.burst >= 1 && cfg.refill >= 0.0 && cfg.expiry > 0.0 && cfg.cleanupInterval > 0.0 }

  /** A bucket is full again when its client is forgotten. */
  predicate RefillsInTime(cfg: Config) { cfg.refill * cfg.expiry >= cfg.burst as real }

  // ------------------------------------------------------------------ the invariant

  /** What is in the table agrees with the ledger; what is only in the ledger would be full. */
  ghost predicate Tracks(cfg: Config, p: Pair, now: real) {
    && (forall ip | ip in p.state.clients ::
          && ip in p.ledger
          && p.state.clients[ip] == Bucket(p.ledger[ip].tokens, p.ledger[ip].at, p.ledger[ip].at))
    && (forall ip | ip in p.ledger :: 0.0 <= p.ledger[ip].tokens <= cfg.burst as real && p.ledger[ip].at <= now)
    && (forall ip | ip in p.ledger && ip !in p.state.clients :: cfg.expiry <= now - p.ledger[ip].at)
  }

  lemma FullAfterExpiry(cfg: Config, tokens: real, elapsed: real)
    requires Policy(cfg) && RefillsInTime(cfg) && tokens >= 0.0 && elapsed >= cfg.expiry
    ensures Filled(cfg, tokens, elapsed) == cfg.burst as real
  {
    ProductMonotone(cfg.refill, cfg.expiry, elapsed);
    var full, flowed := cfg.expiry * cfg.refill, elapsed * cfg.refill;
    assert full == cfg.refill * cfg.expiry;
    assert flowed >= full >= cfg.burst as real;
  }

  lemma ForgottenIsFull(cfg: Config, p: Pair, ip: Ip, now: real)
    requires Policy(cfg) && RefillsInTime(cfg) && Tracks(cfg, p, now) && ip !in p.state.clients
    ensures Level(cfg, p.ledger, ip, now) == cfg.burst as real
  {
    if ip in p.ledger {
      FullAfterExpiry(cfg, p.ledger[ip].tokens, Since(now, p.ledger[ip].at));
    }
  }

  lemma ProductMonotone(r: real, x: real, y: real)
    requires r >= 0.0 && x <= y
    ensures r * x <= r * y && x * r <= y * r
  {
  }

  lemma TracksLater(cfg: Config, p: Pair, now: real, later: real)
    requires Tracks(cfg, p, now) && now <= later
    ensures Tracks(cfg, p, later)
  {
  }

  lemma PruningTracks(cfg: Config, p: Pair, now: real)
    requires Tracks(cfg, p, now)
    ensures Tracks(cfg, p.(state := p.state.(clients := RemoveExpired(cfg, p.state.clients, now))), now)
  {
  }

  lemma LevelBounds(cfg: Config, ledger: Ledger, ip: Ip, now: real)
    requires cfg.refill >= 0.0 && (ip in ledger ==> ledger[ip].tokens >= 0.0)
    ensures 0.0 <= Level(cfg, ledger, ip, now) <= cfg.burst as real
  {
    if ip in ledger { ProductMonotone(cfg.refill, 0.0, Since(now, ledger[ip].at)); }
  }

  /** Both limiters write the same bucket. */
  lemma WritingTracks(cfg: Config, p: Pair, ip: Ip, tokens: real, now: real)
    requires Tracks(cfg, p, now) && 0.0 <= tokens <= cfg.burst as real
    ensures Tracks(cfg, Pair(p.state.(clients := p.state.clients[ip := Bucket(tokens, now, now)]),
                             p.ledger[ip := Account(tokens, now)]), now)
  {
  }

  lemma KnownClientAgrees(cfg: Config, p: Pair, ip: Ip, now: real)
    requires Policy(cfg) && Tracks(cfg, p, now) && ip in p.state.clients
    ensures var (d, s') := Allow(cfg, p.state, ip, now);
            var (allowed, ledger') := Remembering(cfg, p.ledger, ip, now);
            !d.TurnedAway? && (d.Accepted? <==> allowed) && Tracks(cfg, Pair(s', ledger'), now)
  {
    hide Since, Filled;
    LevelBounds(cfg, p.ledger, ip, now);
    var level := Level(cfg, p.ledger, ip, now);
    WritingTracks(cfg, p, ip, if level < 1.0 then level else level - 1.0, now);
    assert level == Filled(cfg, p.state.clients[ip].tokens, Since(now, p.state.clients[ip].updatedAt));
    hide Tracks, Level;
  }

  lemma NewClientAgrees(cfg: Config, p: Pair, ip: Ip, now: real)
    requires Policy(cfg) && Tracks(cfg, p, now) && ip !in p.state.clients
    requires Level(cfg, p.ledger, ip, now) == cfg.burst as real
    ensures var (d, s') := Allow(cfg, p.state, ip, now);
            if d.TurnedAway? then Tracks(cfg, Pair(s', p.ledger), now)
            else var (allowed, ledger') := Remembering(cfg, p.ledger, ip, now);
                 d.Accepted? && allowed && Tracks(cfg, Pair(s', ledger'), now)
  {
    hide RemoveExpired, Level, Tracks;
    PruningTracks(cfg, p, now);
    WritingTracks(cfg, p, ip, cfg.burst as real - 1.0, now);
    var pruned := p.(state := p.state.(clients := RemoveExpired(cfg, p.state.clients, now)));
    WritingTracks(cfg, pruned, ip, cfg.burst as real - 1.0, now);
  }

  /** One request: unless the cap turns it away, both limiters decide alike and keep agreeing. */
  lemma StepAgrees(cfg: Config, p: Pair, r: Request)
    requires Policy(cfg) && RefillsInTime(cfg) && Tracks(cfg, p, r.now)
    ensures var d := AllowAt(cfg, p.state, r.ip, r.now).0;
            d.TurnedAway? || (d.Accepted? <==> Remembering(cfg, p.ledger, r.ip, r.now).0)
    ensures Tracks(cfg, Advance(cfg, p, r), r.now)
  {
    hide Allow, Remembering, RemoveExpired, Tracks;
    var s := Cleaned(cfg, p.state, r.now);
    var q := Pair(s, p.ledger);
    CleanedTracks(cfg, p, r.now);
    if r.ip in s.clients {
      KnownClientAgrees(cfg, q, r.ip, r.now);
    } else {
      ForgottenIsFull(cfg, q, r.ip, r.now);
      NewClientAgrees(cfg, q, r.ip, r.now);
    }
  }

  lemma CleanedTracks(cfg: Config, p: Pair, now: real)
    requires Tracks(cfg, p, now)
    ensures Tracks(cfg, Pair(Cleaned(cfg, p.state, now), p.ledger), now)
  {
    PruningTracks(cfg, p, now);
  }

  lemma {:induction false} AfterTracks(cfg: Config, start: real, log: seq<Request>)
    requires Policy(cfg) && RefillsInTime(cfg) && InOrder(start, log)
    ensures Tracks(cfg, After(cfg, start, log), Clock(start, log))
  {
    if log != [] {
      var front, r := log[..|log| - 1], log[|log| - 1];
      AfterTracks(cfg, start, front);
      TracksLater(cfg, After(cfg, start, front), Clock(start, front), r.now);
      StepAgrees(cfg, After(cfg, start, front), r);
    }
  }

  /** Forgetting idle clients is invisible: every request that the cap does not turn away is decided as a
      limiter that never evicts decides it. */
  lemma DecidesLikeRemembering(cfg: Config, start: real, log: seq<Request>, n: nat)
    requires Policy(cfg) && RefillsInTime(cfg) && InOrder(start, log) && n < |log|
    ensures var d := DecisionAt(cfg, start, log, n);
            d.TurnedAway? || (d.Accepted? <==> RememberingAt(cfg, start, log, n))
  {
    AfterTracks(cfg, start, log[..n]);
    TracksLater(cfg, After(cfg, start, log[..n]), Clock(start, log[..n]), log[n].now);
    StepAgrees(cfg, After(cfg, start, log[..n]), log[n]);
  }

  // ------------------------------------------------------------------ how much a client gets

  function CountAccepted(cfg: Config, start: real, log: seq<Request>, ip: Ip, from: nat, to: nat): nat
    requires from <= to <= |log|
  {
    if from == to then 0
    else CountAccepted(cfg, start, log, ip, from, to - 1)
         + if log[to - 1].ip == ip && DecisionAt(cfg, start, log, to - 1).Accepted? then 1 else 0
  }

  /** Tokens only come with time, at the refill rate. */
  lemma LevelRises(cfg: Config, ledger: Ledger, ip: Ip, now: real, later: real)
    requires cfg.refill >= 0.0 && now <= later && (ip in ledger ==> ledger[ip].at <= now)
    ensures Level(cfg, ledger, ip, later) <= Level(cfg, ledger, ip, now) + cfg.refill * (later - now)
  {
    ProductMonotone(cfg.refill, 0.0, later - now);
    if ip in ledger {
      var a, b := Since(now, ledger[ip].at), Since(later, ledger[ip].at);
      assert b * cfg.refill == a * cfg.refill + cfg.refill * (later - now);
    }
  }

  /** An accepted request takes one token from its client, and no request changes another client's level. */
  lemma RequestTakesOneToken(cfg: Config, p: Pair, r: Request, ip: Ip)
    requires Policy(cfg) && RefillsInTime(cfg) && Tracks(cfg, p, r.now)
    ensures var accepted := r.ip == ip && AllowAt(cfg, p.state, r.ip, r.now).0.Accepted?;
            Level(cfg, Advance(cfg, p, r).ledger, ip, r.now)
              <= Level(cfg, p.ledger, ip, r.now) - if accepted then 1.0 else 0.0
  {
    StepAgrees(cfg, p, r);
    LevelBounds(cfg, p.ledger, r.ip, r.now);
    hide AllowAt;
    assert 0.0 * cfg.refill == 0.0;
  }

  /** Tokens at the end and accepts since `from` never exceed a full bucket and what has flowed in. */
  predicate Paid(cfg: Config, start: real, log: seq<Request>, ip: Ip, from: nat, to: nat)
    requires from < to <= |log|
  {
    CountAccepted(cfg, start, log, ip, from, to) as real
        + Level(cfg, After(cfg, start, log[..to]).ledger, ip, log[to - 1].now)
      <= cfg.burst as real + cfg.refill * (log[to - 1].now - log[from].now)
  }

  /** What request `to - 1` does to one client's level. */
  lemma LastRequest(cfg: Config, start: real, log: seq<Request>, ip: Ip, from: nat, to: nat)
    requires Policy(cfg) && RefillsInTime(cfg) && InOrder(start, log) && from < to <= |log|
    ensures CountAccepted(cfg, start, log, ip, from, to) as real
              + Level(cfg, After(cfg, start, log[..to]).ledger, ip, log[to - 1].now)
         <= CountAccepted(cfg, start, log, ip, from, to - 1) as real
            + Level(cfg, After(cfg, start, log[..to - 1]).ledger, ip, log[to - 1].now)
  {
    hide Level, Advance, AllowAt, Policy, RefillsInTime, Tracks;
    var front, r := log[..to - 1], log[to - 1];
    assert log[..to][..to - 1] == front;
    var before := After(cfg, start, front);
    AfterTracks(cfg, start, front);
    TracksLater(cfg, before, Clock(start, front), r.now);
    RequestTakesOneToken(cfg, before, r, ip);
  }

  lemma {:induction false} TokensPayForAccepts(cfg: Config, start: real, log: seq<Request>, ip: Ip, from: nat, to: nat)
    requires Policy(cfg) && RefillsInTime(cfg) && InOrder(start, log) && from < to <= |log|
    ensures Paid(cfg, start, log, ip, from, to)
  {
    hide Level, After, Policy, RefillsInTime, Tracks, DecisionAt;
    LastRequest(cfg, start, log, ip, from, to);
    var before, now := After(cfg, start, log[..to - 1]), log[to - 1].now;
    if from == to - 1 {
      LevelAtMostBurst(cfg, before.ledger, ip, now);
      assert cfg.refill * (now - log[from].now) == 0.0;
    } else {
      TokensPayForAccepts(cfg, start, log, ip, from, to - 1);
      var earlier := log[to - 2].now;
      AfterTracks(cfg, start, log[..to - 1]);
      LevelRisesTracked(cfg, before, ip, earlier, now);
      assert cfg.refill * (now - log[from].now)
          == cfg.refill * (earlier - log[from].now) + cfg.refill * (now - earlier);
    }
  }

  lemma LevelAtMostBurst(cfg: Config, ledger: Ledger, ip: Ip, now: real)
    ensures Level(cfg, ledger, ip, now) <= cfg.burst as real
  {
  }

  lemma LevelRisesTracked(cfg: Config, p: Pair, ip: Ip, now: real, later: real)
    requires Policy(cfg) && Tracks(cfg, p, now) && now <= later
    ensures Level(cfg, p.ledger, ip, later) <= Level(cfg, p.ledger, ip, now) + cfg.refill * (later - now)
  {
    LevelRises(cfg, p.ledger, ip, now, later);
  }

  /** In any span of time, whatever the other clients do, a client is accepted at most `burst` times plus
      what the refill rate gives for the span. */
  lemma AcceptsAreBounded(cfg: Config, start: real, log: seq<Request>, ip: Ip, from: nat, to: nat)
    requires Policy(cfg) && RefillsInTime(cfg) && InOrder(start, log) && from < to <= |log|
    ensures CountAccepted(cfg, start, log, ip, from, to) as real
         <= cfg.burst as real + cfg.refill * (log[to - 1].now - log[from].now)
  {
    hide Level, After, DecisionAt, CountAccepted, RefillsInTime;
    TokensPayForAccepts(cfg, start, log, ip, from, to);
    AfterTracks(cfg, start, log[..to]);
    var ledger, now := After(cfg, start, log[..to]).ledger, log[to - 1].now;
    LevelBounds(cfg, ledger, ip, now);
    var level, flow := Level(cfg, ledger, ip, now), cfg.refill * (now - log[from].now);
    assert level >= 0.0;
    assert CountAccepted(cfg, start, log, ip, from, to) as real + level <= cfg.burst as real + flow;
  }

  lemma PruningShrinks(cfg: Config, clients: map<Ip, Bucket>, now: real)
    ensures |RemoveExpired(cfg, clients, now)| <= |clients|
  {
    var pruned := RemoveExpired(cfg, clients, now);
    assert pruned.Keys <= clients.Keys;
    SubsetCount(pruned.Keys, clients.Keys);
  }

  /** The table never outgrows its maximum, whatever the policy and the clock. */
  lemma {:induction false} TableIsBounded(cfg: Config, start: real, log: seq<Request>)
    ensures |After(cfg, start, log).state.clients| <= cfg.maximum
  {
    if log != [] {
      var r := log[|log| - 1];
      var s := After(cfg, start, log[..|log| - 1]).state;
      TableIsBounded(cfg, start, log[..|log| - 1]);
      PruningShrinks(cfg, s.clients, r.now);
      var c := Cleaned(cfg, s, r.now);
      PruningShrinks(cfg, c.clients, r.now);
      AllowIsBounded(cfg, c, r.ip, r.now);
    }
  }

  lemma PutGrowsByOne(clients: map<Ip, Bucket>, ip: Ip, b: Bucket)
    ensures |clients[ip := b]| == |clients| + if ip in clients then 0 else 1
  {
    assert clients[ip := b].Keys == clients.Keys + {ip};
  }

  lemma AllowIsBounded(cfg: Config, s: State, ip: Ip, now: real)
    requires |s.clients| <= cfg.maximum && |RemoveExpired(cfg, s.clients, now)| <= |s.clients|
    ensures |Allow(cfg, s, ip, now).1.clients| <= cfg.maximum
  {
    hide RemoveExpired, Filled;
    var level := if ip in s.clients then Filled(cfg, s.clients[ip].tokens, Since(now, s.clients[ip].updatedAt))
        else 0.0;
    PutGrowsByOne(s.clients, ip, Bucket(level, now, now));
    PutGrowsByOne(s.clients, ip, Bucket(level - 1.0, now, now));
    var kept := if |s.clients| >= cfg.maximum then RemoveExpired(cfg, s.clients, now) else s.clients;
    PutGrowsByOne(kept, ip, Bucket(cfg.burst as real - 1.0, now, now));
  }

  // ------------------------------------------------------------------ and nothing less than a refill will do

  predicate Agrees(cfg: Config, start: real, log: seq<Request>, n: nat)
    requires n < |log|
  {
    DecisionAt(cfg, start, log, n).TurnedAway?
        || (DecisionAt(cfg, start, log, n).Accepted? <==> RememberingAt(cfg, start, log, n))
  }

  /** Forgetting idle clients is invisible in every history. */
  ghost predicate Transparent(cfg: Config) {
    forall start: real, log: seq<Request>, n: nat | InOrder(start, log) && n < |log| :: Agrees(cfg, start, log, n)
  }

  /** Late enough that the first clean-up falls into the idle time that follows. */
  function BurstTime(cfg: Config): real {
    if cfg.cleanupInterval > cfg.expiry then cfg.cleanupInterval - cfg.expiry else 0.0
  }

  function BackTime(cfg: Config): real { BurstTime(cfg) + cfg.expiry }

  /** One client spends its bucket, stays away until it is forgotten, and spends a bucket again. */
  function TwoBursts(cfg: Config, n: nat): seq<Request> {
    seq(n, i => Request(0, if i < cfg.burst then BurstTime(cfg) else BackTime(cfg)))
  }

  lemma AfterOneMore(cfg: Config, n: nat)
    ensures After(cfg, 0.0, TwoBursts(cfg, n + 1))
         == Advance(cfg, After(cfg, 0.0, TwoBursts(cfg, n)),
             Request(0, if n < cfg.burst then BurstTime(cfg) else BackTime(cfg)))
  {
    assert TwoBursts(cfg, n + 1)[..n] == TwoBursts(cfg, n);
  }

  lemma StaysInsideBurst(cfg: Config, tokens: real)
    requires tokens <= cfg.burst as real
    ensures Filled(cfg, tokens, 0.0) == tokens
  {
  }

  function One(cfg: Config, tokens: real, account: real, now: real, nextCleanup: real): Pair {
    Pair(State(map[0 := Bucket(tokens, now, now)], nextCleanup), map[0 := Account(account, now)])
  }

  /** A further request at the same moment. */
  lemma SpendOne(cfg: Config, tokens: real, account: real, now: real, nextCleanup: real)
    requires 1.0 <= tokens <= cfg.burst as real && account <= cfg.burst as real && now < nextCleanup
    ensures var p := One(cfg, tokens, account, now, nextCleanup);
            && AllowAt(cfg, p.state, 0, now).0.Accepted?
            && Remembering(cfg, p.ledger, 0, now).0 == (account >= 1.0)
            && (account >= 1.0 ==>
                  Advance(cfg, p, Request(0, now)) == One(cfg, tokens - 1.0, account - 1.0, now, nextCleanup))
  {
    StaysInsideBurst(cfg, tokens);
    StaysInsideBurst(cfg, account);
    hide Filled;
    var p := One(cfg, tokens, account, now, nextCleanup);
    assert Level(cfg, p.ledger, 0, now) == account;
    assert Cleaned(cfg, p.state, now) == p.state;
    assert p.state.clients[0 := Bucket(tokens - 1.0, now, now)] == map[0 := Bucket(tokens - 1.0, now, now)];
    assert p.ledger[0 := Account(account - 1.0, now)] == map[0 := Account(account - 1.0, now)];
  }

  lemma {:induction false} FirstBurst(cfg: Config, n: nat)
    requires Policy(cfg) && cfg.maximum >= 1 && 1 <= n <= cfg.burst
    ensures var s, tokens := BurstTime(cfg), (cfg.burst - n) as real;
            After(cfg, 0.0, TwoBursts(cfg, n)) == One(cfg, tokens, tokens, s, cfg.cleanupInterval)
  {
    hide After, AllowAt, Remembering, TwoBursts, Advance;
    var s := BurstTime(cfg);
    AfterOneMore(cfg, n - 1);
    if n == 1 {
      FirstRequest(cfg);
    } else {
      FirstBurst(cfg, n - 1);
      var tokens := (cfg.burst - (n - 1)) as real;
      SpendOne(cfg, tokens, tokens, s, cfg.cleanupInterval);
    }
  }

  lemma FirstRequest(cfg: Config)
    requires Policy(cfg) && cfg.maximum >= 1
    ensures var s, tokens := BurstTime(cfg), cfg.burst as real - 1.0;
            Advance(cfg, After(cfg, 0.0, TwoBursts(cfg, 0)), Request(0, s))
                == One(cfg, tokens, tokens, s, cfg.cleanupInterval)
  {
    assert TwoBursts(cfg, 0) == [];
    assert BurstTime(cfg) < cfg.cleanupInterval;
    hide Filled;
  }

  /** The flow of tokens while the client was away. */
  function Flow(cfg: Config): real { cfg.refill * cfg.expiry }

  /** The first request after the absence: a new bucket against what has flowed into the old one. */
  lemma Back(cfg: Config)
    requires Policy(cfg) && cfg.maximum >= 1 && !RefillsInTime(cfg)
    ensures var p, t := One(cfg, 0.0, 0.0, BurstTime(cfg), cfg.cleanupInterval), BackTime(cfg);
            && AllowAt(cfg, p.state, 0, t)
               == (Accepted, State(map[0 := Bucket(cfg.burst as real - 1.0, t, t)], t + cfg.cleanupInterval))
            && Level(cfg, p.ledger, 0, t) == Flow(cfg)
  {
    var p, t := One(cfg, 0.0, 0.0, BurstTime(cfg), cfg.cleanupInterval), BackTime(cfg);
    EmptyRefills(cfg);
    hide Filled, RefillsInTime, Flow;
    var empty: map<Ip, Bucket> := map[];
    assert RemoveExpired(cfg, p.state.clients, t) == empty;
    assert Cleaned(cfg, p.state, t) == State(empty, t + cfg.cleanupInterval);
    assert empty[0 := Bucket(cfg.burst as real - 1.0, t, t)] == map[0 := Bucket(cfg.burst as real - 1.0, t, t)];
  }

  lemma BackStep(cfg: Config)
    requires Policy(cfg) && cfg.maximum >= 1 && !RefillsInTime(cfg)
    ensures var p, t := One(cfg, 0.0, 0.0, BurstTime(cfg), cfg.cleanupInterval), BackTime(cfg);
            && AllowAt(cfg, p.state, 0, t).0.Accepted?
            && Remembering(cfg, p.ledger, 0, t).0 == (Flow(cfg) >= 1.0)
            && (Flow(cfg) >= 1.0 ==>
                  Advance(cfg, p, Request(0, t))
                      == One(cfg, cfg.burst as real - 1.0, Flow(cfg) - 1.0, t, t + cfg.cleanupInterval))
  {
    Back(cfg);
    hide AllowAt, Level, RefillsInTime, Flow, BurstTime, BackTime;
    var p, t := One(cfg, 0.0, 0.0, BurstTime(cfg), cfg.cleanupInterval), BackTime(cfg);
    assert p.ledger[0 := Account(Flow(cfg) - 1.0, t)] == map[0 := Account(Flow(cfg) - 1.0, t)];
  }

  lemma EmptyRefills(cfg: Config)
    requires !RefillsInTime(cfg)
    ensures Filled(cfg, 0.0, cfg.expiry) == Flow(cfg)
  {
    assert cfg.expiry * cfg.refill == Flow(cfg);
  }

  predicate AgreesAt(cfg: Config, n: nat) { Agrees(cfg, 0.0, TwoBursts(cfg, n + 1), n) }

  lemma AgreementFact(cfg: Config, n: nat)
    requires AgreesAt(cfg, n)
    ensures var p, now := After(cfg, 0.0, TwoBursts(cfg, n)), if n < cfg.burst then BurstTime(cfg) else BackTime(cfg);
            AllowAt(cfg, p.state, 0, now).0.Accepted? ==> Remembering(cfg, p.ledger, 0, now).0
  {
    assert TwoBursts(cfg, n + 1)[..n] == TwoBursts(cfg, n);
    hide After, AllowAt, Remembering;
  }

  /** `k` requests after the absence: both accepted them all, out of unequal buckets. */
  predicate Spent(cfg: Config, k: nat) {
    var t := BackTime(cfg);
    && After(cfg, 0.0, TwoBursts(cfg, cfg.burst + k))
       == One(cfg, cfg.burst as real - k as real, Flow(cfg) - k as real, t, t + cfg.cleanupInterval)
    && Flow(cfg) >= k as real
  }

  lemma SpentOnce(cfg: Config)
    requires Policy(cfg) && cfg.maximum >= 1 && !RefillsInTime(cfg) && AgreesAt(cfg, cfg.burst)
    ensures Spent(cfg, 1)
  {
    hide After, AllowAt, Remembering, TwoBursts, Advance, RefillsInTime, Flow, AgreesAt, BackTime, BurstTime, One;
    AfterOneMore(cfg, cfg.burst);
    AgreementFact(cfg, cfg.burst);
    FirstBurst(cfg, cfg.burst);
    BackStep(cfg);
  }

  lemma SpentAgain(cfg: Config, k: nat)
    requires Policy(cfg) && cfg.maximum >= 1 && 1 <= k < cfg.burst && Spent(cfg, k) && Flow(cfg) <= cfg.burst as real
    requires AgreesAt(cfg, cfg.burst + k)
    ensures Spent(cfg, k + 1)
  {
    hide After, AllowAt, Remembering, TwoBursts, Advance, Flow, AgreesAt, BackTime, BurstTime, One;
    var t := BackTime(cfg);
    AfterOneMore(cfg, cfg.burst + k);
    AgreementFact(cfg, cfg.burst + k);
    SpendOne(cfg, cfg.burst as real - k as real, Flow(cfg) - k as real, t, t + cfg.cleanupInterval);
  }

  lemma {:induction false} SecondBurst(cfg: Config, k: nat)
    requires Policy(cfg) && cfg.maximum >= 1 && !RefillsInTime(cfg) && 1 <= k <= cfg.burst
    requires forall n | cfg.burst <= n < cfg.burst + k :: AgreesAt(cfg, n)
    ensures Spent(cfg, k)
  {
    hide Spent, AgreesAt;
    FlowFact(cfg);
    if k == 1 {
      SpentOnce(cfg);
    } else {
      SecondBurst(cfg, k - 1);
      SpentAgain(cfg, k - 1);
    }
  }

  lemma BurstsInOrder(cfg: Config, n: nat)
    requires Policy(cfg)
    ensures InOrder(0.0, TwoBursts(cfg, n))
  {
    var log := TwoBursts(cfg, n);
    assert forall i | 0 <= i < n :: log[i] == Request(0, if i < cfg.burst then BurstTime(cfg) else BackTime(cfg));
  }

  /** Forgetting clients is invisible exactly when a bucket refills before its client is forgotten. */
  lemma TransparentExactlyWhenRefilled(cfg: Config)
    requires Policy(cfg) && cfg.maximum >= 1
    ensures Transparent(cfg) <==> RefillsInTime(cfg)
  {
    hide DecisionAt, RememberingAt;
    if RefillsInTime(cfg) {
      forall start: real, log: seq<Request>, n: nat | InOrder(start, log) && n < |log|
          ensures Agrees(cfg, start, log, n) {
        DecidesLikeRemembering(cfg, start, log, n);
      }
    } else if Transparent(cfg) {
      hide RefillsInTime;
      forall n | cfg.burst <= n < cfg.burst + cfg.burst ensures AgreesAt(cfg, n) {
        BurstsInOrder(cfg, n + 1);
      }
      SecondBurst(cfg, cfg.burst);
      FlowFact(cfg);
    }
  }

  lemma FlowFact(cfg: Config)
    ensures Flow(cfg) >= cfg.burst as real <==> RefillsInTime(cfg)
  {
  }
}
