/** The authentication-failure limiter as a value: one token bucket per peer, with permits held
    while a token review is under way. rate.Limiter is a real-valued bucket. Instants are counted in
    tokens: t seconds are rate * t, the tokens earned in that time (see Units). */
module LimiterModel {

  /** Configured failures per second and burst; both are positive in every configuration. */
  datatype Config = Config(rate: real, burst: nat)

  predicate Configured(c: Config) { c.rate > 0.0 && c.burst > 0 }

  datatype Bucket = Bucket(tokens: real, last: real, pending: nat, lastSeen: real)

  datatype Limiter = Limiter(buckets: map<string, Bucket>, lastSweep: real, swept: bool)

  const UNKNOWN := "unknown"
  const IDLE_SECONDS := 600.0
  const SWEEP_SECONDS := 60.0
  const MAX_BUCKETS := 4096

  const EMPTY := Limiter(map[], 0.0, false)

  function Min(a: real, b: real): real { if a <= b then a else b }

  /** An interval in tokens. */
  function Earned(c: Config, seconds: real): real { c.rate * seconds }

  function IdleTtl(c: Config): real { c.rate * IDLE_SECONDS }

  function SweepPeriod(c: Config): real { c.rate * SWEEP_SECONDS }

  /** Comparing intervals in tokens is comparing them in seconds. */
  lemma Units(c: Config, from: real, to: real, seconds: real)
    requires Configured(c)
    ensures to - from >= seconds <==> Earned(c, to) - Earned(c, from) >= Earned(c, seconds)
  {
    var d := to - from - seconds;
    assert Earned(c, to) - Earned(c, from) - Earned(c, seconds) == c.rate * d;
    if d < 0.0 { assert c.rate * d < 0.0; }
  }

  function TokensAt(c: Config, b: Bucket, now: real): real {
    Min(c.burst as real, b.tokens + (now - b.last))
  }

  function Fresh(c: Config, now: real): Bucket { Bucket(c.burst as real, now, 0, now) }

  /** rate.Limiter.AllowN(now, 1) and whether it succeeded. */
  function Charged(c: Config, b: Bucket, now: real): Bucket {
    if TokensAt(c, b, now) >= 1.0 then b.(tokens := TokensAt(c, b, now) - 1.0, last := now) else b
  }

  predicate Idle(c: Config, b: Bucket, now: real) { b.pending == 0 && now - b.lastSeen >= IdleTtl(c) }

  function Kept(c: Config, buckets: map<string, Bucket>, now: real): map<string, Bucket> {
    map k | k in buckets && !Idle(c, buckets[k], now) :: buckets[k]
  }

  /** sweepIdleLocked */
  function Swept(c: Config, l: Limiter, now: real): Limiter {
    if l.swept && now - l.lastSweep < SweepPeriod(c) then l else Limiter(Kept(c, l.buckets, now), now, true)
  }

  /** The bucket a peer is counted in. */
  function Slot(buckets: map<string, Bucket>, peer: string): string {
    if peer !in buckets && |buckets| >= MAX_BUCKETS then UNKNOWN else peer
  }

  function Found(c: Config, buckets: map<string, Bucket>, slot: string, now: real): Bucket {
    (if slot in buckets then buckets[slot] else Fresh(c, now)).(lastSeen := now)
  }

  predicate Room(c: Config, b: Bucket, now: real) { TokensAt(c, b, now) - b.pending as real >= 1.0 }

  /** reserve, without its verdict. */
  function Reserved(c: Config, l: Limiter, peer: string, now: real): Limiter {
    var m := Swept(c, l, now);
    var slot := Slot(m.buckets, peer);
    var b := Found(c, m.buckets, slot, now);
    m.(buckets := m.buckets[slot := if Room(c, b, now) then b.(pending := b.pending + 1) else b])
  }

  /** The slot a permit was given in, if it was. */
  function Granted(c: Config, l: Limiter, peer: string, now: real): (bool, string) {
    var m := Swept(c, l, now);
    var slot := Slot(m.buckets, peer);
    (Room(c, Found(c, m.buckets, slot, now), now), slot)
  }

  /** finish, for a permit held in the slot. */
  function Finished(c: Config, l: Limiter, slot: string, success: bool, now: real): Limiter
    requires slot in l.buckets && l.buckets[slot].pending > 0
  {
    var b := if success then l.buckets[slot] else Charged(c, l.buckets[slot], now);
    l.(buckets := l.buckets[slot := b.(pending := b.pending - 1, lastSeen := now)])
  }

  // ----- Arithmetic of one bucket -----

  /** A bucket that is in range at time now. */
  ghost predicate Filled(c: Config, b: Bucket, now: real) {
    && 0.0 <= b.tokens <= c.burst as real && b.last <= b.lastSeen <= now
    && b.pending as real <= TokensAt(c, b, now)
  }

  /** A permit is a token: charging a bucket with a permit succeeds and keeps the other permits covered. */
  lemma PermitCharges(c: Config, b: Bucket, now: real)
    requires Filled(c, b, now) && b.pending > 0
    ensures TokensAt(c, b, now) >= 1.0
    ensures var d := Charged(c, b, now).(pending := b.pending - 1, lastSeen := now);
      Filled(c, d, now) && TokensAt(c, d, now) == TokensAt(c, b, now) - 1.0
  {
    assert (b.pending - 1) as real == b.pending as real - 1.0;
  }

  /** A bucket that has been idle long enough to be swept is full exactly when the idle time refills
      any bucket: rate times ten minutes is at least burst. */
  lemma SweptIsFreshIff(c: Config)
    requires Configured(c)
    ensures c.rate * 600.0 >= c.burst as real <==>
      forall b: Bucket, now: real | Filled(c, b, now) && Idle(c, b, now) :: TokensAt(c, b, now) == c.burst as real
  {
    if c.rate * IDLE_SECONDS < c.burst as real {
      var b := Bucket(0.0, 0.0, 0, 0.0);
      assert Filled(c, b, IdleTtl(c)) && Idle(c, b, IdleTtl(c));
      assert TokensAt(c, b, IdleTtl(c)) < c.burst as real;
    }
  }
}
