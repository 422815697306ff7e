/** The authentication-failure limiter as the object the server keeps. */
module AuthLimiter {
  import opened LimiterModel

  class AuthFailureLimiter {
    const config: Config
    var buckets: map<string, Bucket>
    var lastSweep: real
    var swept: bool

    constructor (config: Config)
      ensures View() == EMPTY && this.config == config
    {
      this.config := config;
      buckets, lastSweep, swept := map[], 0.0, false;
    }

    ghost function View(): Limiter
      reads this
    {
      Limiter(buckets, lastSweep, swept)
    }

    method SweepIdle(seconds: real)
      modifies this
      ensures View() == Swept(config, old(View()), Earned(config, seconds))
    {
      var now := Earned(config, seconds);
      if swept && now - lastSweep < SweepPeriod(config) { return; }
      buckets := SweepBuckets(config, buckets, now);
      lastSweep, swept := now, true;
    }

    method Reserve(peer: string, seconds: real) returns (granted: bool, slot: string)
      modifies this
      ensures View() == Reserved(config, old(View()), peer, Earned(config, seconds))
      ensures (granted, slot) == Granted(config, old(View()), peer, Earned(config, seconds))
    {
      SweepIdle(seconds);
      var now := Earned(config, seconds);
      slot := peer;
      if peer !in buckets && |buckets| >= MAX_BUCKETS { slot := UNKNOWN; }
      var bucket := if slot in buckets then buckets[slot] else Fresh(config, now);
      bucket := bucket.(lastSeen := now);
      granted := TokensAt(config, bucket, now) - bucket.pending as real >= 1.0;
      if granted { bucket := bucket.(pending := bucket.pending + 1); }
      buckets := buckets[slot := bucket];
    }

    /** Finishing a permit that Reserve granted. */
    method Finish(slot: string, success: bool, seconds: real)
      requires slot in buckets && buckets[slot].pending > 0
      modifies this`buckets
      ensures View() == Finished(config, old(View()), slot, success, Earned(config, seconds))
    {
      var now := Earned(config, seconds);
      var bucket := buckets[slot];
      if !success { bucket := Charged(config, bucket, now); }
      buckets := buckets[slot := bucket.(pending := bucket.pending - 1, lastSeen := now)];
    }
  }

  /** The sweep drops the idle buckets and no other, whatever the map order. */
  method SweepBuckets(c: Config, buckets: map<string, Bucket>, now: real) returns (kept: map<string, Bucket>)
    ensures kept == Kept(c, buckets, now)
  {
    kept := buckets;
    var todo := buckets.Keys;
    while todo != {}
      invariant todo <= buckets.Keys
      invariant kept == map k | k in buckets && (k in todo || !Idle(c, buckets[k], now)) :: buckets[k]
      decreases |todo|
    {
      var k :| k in todo;
      todo := todo - {k};
      if kept[k].pending == 0 && now - kept[k].lastSeen >= IdleTtl(c) { kept := kept - {k}; }
    }
  }
}
