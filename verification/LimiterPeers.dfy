/** How many failures one peer can be charged: a peer is counted in its own bucket or, while the map is
    full, in the overflow bucket. */
module LimiterPeers {
  import opened LimiterModel
  import opened LimiterRuns
  import opened LimiterWindow

  // ----- A permit is in the peer's bucket or in the overflow bucket -----

  ghost predicate Slotted(s: State) {
    forall id | id in s.held :: s.held[id].slot == s.held[id].peer || s.held[id].slot == UNKNOWN
  }

  lemma StepSlotted(c: Config, s: State, step: Step)
    requires Enabled(s, step) && Slotted(s)
    ensures Slotted(Apply(c, s, step))
  {
  }

  lemma {:induction false} RunSlotted(c: Config, s: State, steps: seq<Step>)
    requires Legal(c, s, steps) && Slotted(s)
    ensures Slotted(After(c, s, steps))
    decreases |steps|
  {
    if steps != [] {
      StepSlotted(c, s, steps[0]);
      RunSlotted(c, Apply(c, s, steps[0]), steps[1..]);
    }
  }

  lemma {:induction false} PeerInBuckets(c: Config, s: State, steps: seq<Step>, peer: string)
    requires Legal(c, s, steps) && Slotted(s)
    ensures ChargesBy(c, s, steps, peer) <= Charges(c, s, steps, peer) + Charges(c, s, steps, UNKNOWN)
    decreases |steps|
  {
    if steps != [] {
      StepSlotted(c, s, steps[0]);
      PeerInBuckets(c, Apply(c, s, steps[0]), steps[1..], peer);
    }
  }

  /** Whatever the map does, a peer is charged at most twice the bound of a bucket. */
  lemma PeerTwiceBound(c: Config, prefix: seq<Step>, steps: seq<Step>, peer: string)
    requires Configured(c) && Refilled(c)
    requires Legal(c, START, prefix) && Legal(c, After(c, START, prefix), steps)
    ensures var s := After(c, START, prefix);
      ChargesBy(c, s, steps, peer) as real <= 2.0 * (c.burst as real + (After(c, s, steps).now - s.now))
  {
    RunSlotted(c, START, prefix);
    PeerInBuckets(c, After(c, START, prefix), steps, peer);
    WindowBound(c, prefix, steps, peer);
    WindowBound(c, prefix, steps, UNKNOWN);
  }

  // ----- One bucket -----

  /** The guard of the branch that sends a new peer to the overflow bucket. */
  predicate Overflows(c: Config, s: State, peer: string) {
    var buckets := Swept(c, s.limiter, s.now).buckets;
    peer !in buckets && |buckets| >= MAX_BUCKETS
  }

  function Home(peer: string, overflow: bool): string { if overflow then UNKNOWN else peer }

  /** Every reserve of the peer takes that branch, or none does. */
  ghost predicate Guarded(c: Config, s: State, steps: seq<Step>, peer: string, overflow: bool)
    requires Legal(c, s, steps)
    decreases |steps|
  {
    steps == [] ||
    ((steps[0].Reserve? && steps[0].peer == peer ==> Overflows(c, s, peer) == overflow)
     && Guarded(c, Apply(c, s, steps[0]), steps[1..], peer, overflow))
  }

  /** The permits the peer holds are in one bucket. */
  ghost predicate Homed(s: State, peer: string, k: string) {
    forall id | id in s.held && s.held[id].peer == peer :: s.held[id].slot == k
  }

  lemma StepHomed(c: Config, s: State, step: Step, peer: string, overflow: bool)
    requires Enabled(s, step) && Homed(s, peer, Home(peer, overflow))
    requires step.Reserve? && step.peer == peer ==> Overflows(c, s, peer) == overflow
    ensures Homed(Apply(c, s, step), peer, Home(peer, overflow))
    ensures SpentBy(s, step, peer) <= Spent(s, step, Home(peer, overflow))
  {
  }

  lemma {:induction false} PeerInBucket(c: Config, s: State, steps: seq<Step>, peer: string, overflow: bool)
    requires Legal(c, s, steps) && Guarded(c, s, steps, peer, overflow) && Homed(s, peer, Home(peer, overflow))
    ensures ChargesBy(c, s, steps, peer) <= Charges(c, s, steps, Home(peer, overflow))
    decreases |steps|
  {
    if steps != [] {
      StepHomed(c, s, steps[0], peer, overflow);
      PeerInBucket(c, Apply(c, s, steps[0]), steps[1..], peer, overflow);
    }
  }

  /** The window is within the bound for the peer. */
  ghost predicate PeerWithin(c: Config, prefix: seq<Step>, steps: seq<Step>, peer: string) {
    Legal(c, START, prefix) && Legal(c, After(c, START, prefix), steps) ==>
      var s := After(c, START, prefix);
      ChargesBy(c, s, steps, peer) as real <= c.burst as real + (After(c, s, steps).now - s.now)
  }

  /** A peer all of whose reserves in a window find room in the map, or all of which find it full, and whose
      permits at its start are there too, is charged within the bound of a bucket. */
  lemma PeerWindow(c: Config, prefix: seq<Step>, steps: seq<Step>, peer: string, overflow: bool)
    requires Configured(c) && Refilled(c)
    requires Legal(c, START, prefix) && Legal(c, After(c, START, prefix), steps)
    requires Guarded(c, After(c, START, prefix), steps, peer, overflow)
    requires Homed(After(c, START, prefix), peer, Home(peer, overflow))
    ensures PeerWithin(c, prefix, steps, peer)
  {
    WindowBound(c, prefix, steps, Home(peer, overflow));
    PeerInBucket(c, After(c, START, prefix), steps, peer, overflow);
  }

  lemma {:induction false} UnknownInBucket(c: Config, s: State, steps: seq<Step>)
    requires Legal(c, s, steps) && Slotted(s)
    ensures ChargesBy(c, s, steps, UNKNOWN) <= Charges(c, s, steps, UNKNOWN)
    decreases |steps|
  {
    if steps != [] {
      StepSlotted(c, s, steps[0]);
      UnknownInBucket(c, Apply(c, s, steps[0]), steps[1..]);
    }
  }

  lemma UnknownWithin(c: Config, prefix: seq<Step>, steps: seq<Step>)
    requires Configured(c) && Refilled(c)
    ensures PeerWithin(c, prefix, steps, UNKNOWN)
  {
    if Legal(c, START, prefix) && Legal(c, After(c, START, prefix), steps) {
      WindowBound(c, prefix, steps, UNKNOWN);
      RunSlotted(c, START, prefix);
      UnknownInBucket(c, After(c, START, prefix), steps);
    }
  }

  // ----- Filling the map -----

  /** Other peers, all different. */
  function Other(peer: string, i: nat): string { seq(|peer| + 8 + i, _ => 'x') }

  function Fill(peer: string, n: nat): seq<Step> {
    if n == 0 then [] else Fill(peer, n - 1) + [Reserve(0, Other(peer, n - 1)), Finish(0, true)]
  }

  /** n other peers were seen at instant 0 and nothing else. */
  ghost predicate Crowded(s: State, peer: string, n: nat) {
    && s.now == 0.0 && s.held == map[] && s.limiter.lastSweep == 0.0 && (n > 0 ==> s.limiter.swept)
    && |s.limiter.buckets| == n && OthersOnly(s.limiter.buckets, peer, n)
    && forall k | k in s.limiter.buckets :: s.limiter.buckets[k].pending == 0 && s.limiter.buckets[k].lastSeen == 0.0
  }

  ghost predicate OthersOnly(buckets: map<string, Bucket>, peer: string, n: nat) {
    forall k | k in buckets :: |peer| + 8 <= |k| < |peer| + 8 + n
  }

  lemma CrowdReserves(c: Config, s: State, peer: string, n: nat)
    requires Configured(c) && n < MAX_BUCKETS && Crowded(s, peer, n)
    ensures var s1, o := Apply(c, s, Reserve(0, Other(peer, n))), Other(peer, n);
      && o !in s.limiter.buckets && s1.now == 0.0 && s1.held == map[0 := Permit(o, o)]
      && s1.limiter == Limiter(s.limiter.buckets[o := Bucket(c.burst as real, 0.0, 1, 0.0)], 0.0, true)
  {
    var o := Other(peer, n);
    assert |o| == |peer| + 8 + n;
    var m := Swept(c, s.limiter, s.now);
    if s.limiter.swept { assert m == s.limiter; } else { assert s.limiter.buckets == map[] && m.buckets == map[]; }
    assert m == Limiter(s.limiter.buckets, 0.0, true);
  }

  lemma CrowdGrows(c: Config, s: State, peer: string, n: nat)
    requires Configured(c) && n < MAX_BUCKETS && Crowded(s, peer, n)
    ensures Legal(c, s, [Reserve(0, Other(peer, n)), Finish(0, true)])
    ensures Crowded(After(c, s, [Reserve(0, Other(peer, n)), Finish(0, true)]), peer, n + 1)
  {
    var o := Other(peer, n);
    CrowdReserves(c, s, peer, n);
    var s1 := Apply(c, s, Reserve(0, o));
    TwoSteps(c, s, Reserve(0, o), Finish(0, true), o);
    var s2 := Apply(c, s1, Finish(0, true));
    assert s2.held == map[];
    assert s2.limiter.buckets.Keys == s.limiter.buckets.Keys + {o};
    assert |s2.limiter.buckets| == |s2.limiter.buckets.Keys| && |s.limiter.buckets| == |s.limiter.buckets.Keys|;
  }

  ghost predicate Fills(c: Config, peer: string, n: nat, steps: seq<Step>) {
    Legal(c, START, steps) && Crowded(After(c, START, steps), peer, n)
  }

  lemma FillNone(c: Config, peer: string)
    ensures Fills(c, peer, 0, [])
  {
  }

  lemma FillNext(c: Config, peer: string, n: nat, steps: seq<Step>)
    requires Configured(c) && n < MAX_BUCKETS && Fills(c, peer, n, steps)
    ensures Fills(c, peer, n + 1, steps + [Reserve(0, Other(peer, n)), Finish(0, true)])
  {
    CrowdGrows(c, After(c, START, steps), peer, n);
    Concat(c, START, steps, [Reserve(0, Other(peer, n)), Finish(0, true)]);
  }

  /** Up to 4096 other peers fill the map. */
  lemma {:induction false} FillCrowds(c: Config, peer: string, n: nat)
    requires Configured(c) && n <= MAX_BUCKETS
    ensures Fills(c, peer, n, Fill(peer, n))
  {
    if n == 0 {
      FillNone(c, peer);
    } else {
      FillCrowds(c, peer, n - 1);
      FillNext(c, peer, n - 1, Fill(peer, n - 1));
    }
  }

  // ----- Overflow and then an own bucket -----

  /** The map is full of idle peers and the next sweep is due in elapsed. */
  ghost predicate AboutToSweep(c: Config, s: State, peer: string, elapsed: real) {
    && s.held == map[] && OthersOnly(s.limiter.buckets, peer, MAX_BUCKETS) && |s.limiter.buckets| == MAX_BUCKETS
    && s.limiter.swept && s.now - s.limiter.lastSweep < SweepPeriod(c) <= s.now + elapsed - s.limiter.lastSweep
    && forall k | k in s.limiter.buckets :: Idle(c, s.limiter.buckets[k], s.now + elapsed)
  }

  /** Nine minutes, a sweep, and most of another minute. */
  function Wait(c: Config, elapsed: real): seq<Step> {
    [Tick(IdleTtl(c) - SweepPeriod(c)), Sweep] + [Tick(SweepPeriod(c) - elapsed)]
  }

  lemma WaitSweeps(c: Config, s: State, peer: string, elapsed: real)
    requires Configured(c) && 0.0 < elapsed < SweepPeriod(c) && Crowded(s, peer, MAX_BUCKETS)
    ensures Legal(c, s, Wait(c, elapsed)) && AboutToSweep(c, After(c, s, Wait(c, elapsed)), peer, elapsed)
  {
    var a, b := Tick(IdleTtl(c) - SweepPeriod(c)), Tick(SweepPeriod(c) - elapsed);
    var s1 := Apply(c, s, a);
    TwoSteps(c, s, a, Sweep, peer);
    var s2 := Apply(c, s1, Sweep);
    assert s2.limiter.buckets == s.limiter.buckets;
    OneStep(c, s2, b, peer);
    Concat(c, s, [a, Sweep], [b]);
    assert After(c, s, Wait(c, elapsed)) == Apply(c, s2, b);
  }

  /** A peer counted in the overflow bucket and then in its own is charged two bursts. */
  lemma OverflowThenOwn(c: Config, s: State, peer: string, elapsed: real)
    requires Configured(c) && peer != UNKNOWN && 0.0 < elapsed < SweepPeriod(c) && AboutToSweep(c, s, peer, elapsed)
    ensures var steps := Failures(peer, c.burst) + ([Tick(elapsed)] + Failures(peer, c.burst));
      && Legal(c, s, steps) && After(c, s, steps).now - s.now == elapsed
      && ChargesBy(c, s, steps, peer) == 2 * c.burst
  {
    var first := Failures(peer, c.burst);
    assert |UNKNOWN| == 7 && UNKNOWN !in s.limiter.buckets && peer !in s.limiter.buckets;
    assert Stands(c, s, peer, UNKNOWN, c.burst as real);
    Drain(c, s, peer, UNKNOWN, c.burst as real, c.burst);
    var s1 := After(c, s, first);
    var s2 := Apply(c, s1, Tick(elapsed));
    assert Swept(c, s2.limiter, s2.now).buckets.Keys == {UNKNOWN};
    assert |Swept(c, s2.limiter, s2.now).buckets| == |{UNKNOWN}|;
    assert Stands(c, s2, peer, peer, c.burst as real);
    Drain(c, s2, peer, peer, c.burst as real, c.burst);
    Twice(c, s, first, Tick(elapsed), peer);
  }

  /** For every configuration and every peer but the overflow bucket's own name there is a run that exceeds
      the bound: 4096 peers fill the map, the peer fails a burst in the overflow bucket just before they are
      swept, and another burst in its own just after. */
  lemma OverflowBreaksBound(c: Config, peer: string) returns (prefix: seq<Step>, steps: seq<Step>)
    requires Configured(c) && peer != UNKNOWN
    ensures Legal(c, START, prefix) && Legal(c, After(c, START, prefix), steps)
    ensures !PeerWithin(c, prefix, steps, peer)
  {
    var elapsed := Min(0.5, SweepPeriod(c) / 2.0);
    var full := Fill(peer, MAX_BUCKETS);
    FillCrowds(c, peer, MAX_BUCKETS);
    var s := After(c, START, full);
    WaitSweeps(c, s, peer, elapsed);
    Concat(c, START, full, Wait(c, elapsed));
    prefix := full + Wait(c, elapsed);
    var t := After(c, START, prefix);
    OverflowThenOwn(c, t, peer, elapsed);
    steps := Failures(peer, c.burst) + ([Tick(elapsed)] + Failures(peer, c.burst));
  }

  /** A peer is charged within the bound of a bucket in every window of every run if and only if ten minutes
      refill a bucket and the peer is the one the overflow bucket is named after. */
  lemma PeerBoundIff(c: Config, peer: string)
    requires Configured(c)
    ensures (forall prefix, steps :: PeerWithin(c, prefix, steps, peer)) <==> Refilled(c) && peer == UNKNOWN
  {
    if !Refilled(c) {
      TwoBurstsCharge(c, peer);
      assert After(c, START, []) == START;
      assert !PeerWithin(c, [], TwoBursts(c, peer), peer);
    } else if peer == UNKNOWN {
      forall prefix, steps ensures PeerWithin(c, prefix, steps, peer) { UnknownWithin(c, prefix, steps); }
    } else {
      var prefix, steps := OverflowBreaksBound(c, peer);
    }
  }
}
