/** `RateLimiter`: the table of windows as it is updated in place. */
module RateLimiter {
  import opened WindowLimiter

  class RateLimiter {
    var windows: Table

    constructor ()
      ensures windows == map[]
    {
      windows := map[];
    }

    /** `allow`, for the key made of an operation and a subject. */
    method Allow(operation: string, subject: string, limit: nat, interval: nat, now: int) returns (allowed: bool)
      modifies this
      ensures (allowed, windows)
                == WindowLimiter.Allow(old(windows), Call(operation + ":" + subject, limit, interval, now))
    {
      Retain(now);
      var key := operation + ":" + subject;
      if key !in windows { windows := windows[key := Window(now, 0, interval)]; }
      var window := windows[key];
      if window.interval != interval || now - window.started >= window.interval {
        window := Window(now, 0, interval);
        windows := windows[key := window];
      }
      ghost var pruned, call := Prune(old(windows), now), Call(key, limit, interval, now);
      assert window == Current(pruned, call);
      assert windows == pruned[key := window];
      if window.count >= limit { return false; }
      windows := windows[key := window.(count := window.count + 1)];
      assert windows == pruned[key := window.(count := window.count + 1)];
      return true;
    }

    method Retain(now: int)
      modifies this
      ensures windows == Prune(old(windows), now)
    {
      var rest := windows.Keys;
      while rest != {}
        invariant rest <= old(windows).Keys && windows.Keys <= old(windows).Keys
        invariant forall k | k in windows :: windows[k] == old(windows)[k]
        invariant forall k | k in rest :: k in windows
        invariant forall k | k in old(windows) && k !in rest :: k in windows <==> !Over(old(windows)[k], now)
      {
        var k :| k in rest;
        rest := rest - {k};
        if Over(windows[k], now) { windows := windows - {k}; }
      }
    }
  }
}
