/** `ClientTicketLimiter`: the table of buckets as it is updated in place. */
module ClientTicketLimiter {
  import opened TicketLimiter

  class ClientTicketLimiter {
    const cfg: Config
    var clients: map<Ip, Bucket>
    var nextCleanup: real
    /** Whether a holder of the lock has panicked. */
    var poisoned: bool

    function View(): State
      reads this
    {
      State(clients, nextCleanup)
    }

    /** `with_policy`. */
    constructor (cfg: Config, now: real)
      ensures this.cfg == cfg && !poisoned && View() == Start(cfg, now).state
    {
      this.cfg := cfg;
      clients, nextCleanup, poisoned := map[], now + cfg.cleanupInterval, false;
    }

    /** `allow_at`. A poisoned limiter refuses everything. */
    method AllowAt(ip: Ip, now: real) returns (allowed: bool)
      modifies this`clients, this`nextCleanup
      ensures poisoned ==> !allowed && View() == old(View())
      ensures !poisoned ==>
                && View() == TicketLimiter.AllowAt(cfg, old(View()), ip, now).1
                && allowed == TicketLimiter.AllowAt(cfg, old(View()), ip, now).0.Accepted?
      ensures |old(clients)| <= cfg.maximum ==> |clients| <= cfg.maximum
    {
      hide TicketLimiter.RemoveExpired, Filled;
      if |clients| <= cfg.maximum { Bounded(cfg, View(), ip, now); }
      if poisoned { return false; }
      if now >= nextCleanup {
        RemoveExpired(now);
        nextCleanup := now + cfg.cleanupInterval;
      }
      if ip in clients {
        var bucket := clients[ip];
        var elapsed := Since(now, bucket.updatedAt);
        var tokens := Filled(cfg, bucket.tokens, elapsed);
        clients := clients[ip := Bucket(tokens, now, now)];
        if tokens < 1.0 { return false; }
        clients := clients[ip := Bucket(tokens - 1.0, now, now)];
        return true;
      }
      if |clients| >= cfg.maximum {
        RemoveExpired(now);
        if |clients| >= cfg.maximum { return false; }
      }
      clients := clients[ip := Bucket(cfg.burst as real - 1.0, now, now)];
      return true;
    }

    /** `remove_expired`: `retain` visits every bucket. */
    method RemoveExpired(now: real)
      modifies this`clients
      ensures clients == TicketLimiter.RemoveExpired(cfg, old(clients), now)
    {
      var rest := clients.Keys;
      while rest != {}
        invariant rest <= old(clients).Keys
        invariant clients.Keys <= old(clients).Keys
        invariant forall ip | ip in clients :: clients[ip] == old(clients)[ip]
        invariant forall ip | ip in rest :: ip in clients
        invariant forall ip | ip in old(clients) && ip !in rest ::
                    ip in clients <==> Since(now, old(clients)[ip].lastSeenAt) < cfg.expiry
      {
        var ip :| ip in rest;
        rest := rest - {ip};
        if !(Since(now, clients[ip].lastSeenAt) < cfg.expiry) { clients := clients - {ip}; }
      }
    }
  }

  lemma Bounded(cfg: Config, s: State, ip: Ip, now: real)
    requires |s.clients| <= cfg.maximum
    ensures |TicketLimiter.AllowAt(cfg, s, ip, now).1.clients| <= cfg.maximum
  {
    var c := Cleaned(cfg, s, now);
    PruningShrinks(cfg, s.clients, now);
    PruningShrinks(cfg, c.clients, now);
    AllowIsBounded(cfg, c, ip, now);
  }
}
