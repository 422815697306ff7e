/** How many failures one bucket, and one peer, can be charged in a window of time. */
module LimiterWindow {
  import opened Sets
  import opened LimiterModel
  import opened LimiterRuns

  /** The tokens a bucket has now; a bucket that does not exist yet is full. */
  function Level(c: Config, s: State, k: string): real {
    if k in s.limiter.buckets then TokensAt(c, s.limiter.buckets[k], s.now) else c.burst as real
  }

  /** 1 for a step that charges the bucket. */
  function Spent(s: State, step: Step, k: string): nat
    requires Enabled(s, step)
  {
    if step.Finish? && !step.success && s.held[step.id].slot == k then 1 else 0
  }

  predicate Refilled(c: Config) { c.rate * 600.0 >= c.burst as real }

  lemma LevelRange(c: Config, s: State, k: string)
    requires Configured(c) && Sound(c, s)
    ensures 0.0 <= Level(c, s, k) <= c.burst as real
  {
    if k in s.limiter.buckets { assert Filled(c, s.limiter.buckets[k], s.now); }
  }

  lemma SweepLevel(c: Config, s: State, k: string)
    requires Configured(c) && Refilled(c) && Sound(c, s)
    ensures Level(c, s.(limiter := Swept(c, s.limiter, s.now)), k) == Level(c, s, k)
  {
    SweptIsFreshIff(c);
  }

  lemma ReserveLevel(c: Config, s: State, id: nat, peer: string, k: string)
    requires Configured(c) && Refilled(c) && Sound(c, s) && id !in s.held
    ensures Level(c, Apply(c, s, Reserve(id, peer)), k) == Level(c, s, k)
  {
    SweepLevel(c, s, k);
    var m := Swept(c, s.limiter, s.now).buckets;
    var slot := Slot(m, peer);
    FoundLevel(c, m, slot, s.now);
  }

  lemma FoundLevel(c: Config, buckets: map<string, Bucket>, slot: string, now: real)
    ensures var b := Found(c, buckets, slot, now);
      && TokensAt(c, b, now) == (if slot in buckets then TokensAt(c, buckets[slot], now) else c.burst as real)
      && TokensAt(c, b.(pending := b.pending + 1), now) == TokensAt(c, b, now)
  {
  }

  lemma FinishLevel(c: Config, s: State, id: nat, success: bool, k: string)
    requires Configured(c) && Sound(c, s) && Enabled(s, Finish(id, success))
    ensures Level(c, Apply(c, s, Finish(id, success)), k) == Level(c, s, k) - Spent(s, Finish(id, success), k) as real
  {
    var slot := s.held[id].slot;
    if !success { PermitCharges(c, s.limiter.buckets[slot], s.now); }
  }

  lemma TickLevel(c: Config, s: State, elapsed: real, k: string)
    requires Configured(c) && Sound(c, s) && elapsed >= 0.0
    ensures Level(c, Apply(c, s, Tick(elapsed)), k) <= Level(c, s, k) + elapsed
  {
  }

  lemma StepLevel(c: Config, s: State, step: Step, k: string)
    requires Configured(c) && Refilled(c) && Sound(c, s) && Enabled(s, step)
    ensures var s' := Apply(c, s, step);
      Spent(s, step, k) as real <= Level(c, s, k) - Level(c, s', k) + (s'.now - s.now)
  {
    match step
    case Reserve(id, peer) => ReserveLevel(c, s, id, peer, k);
    case Finish(id, success) => FinishLevel(c, s, id, success, k);
    case Sweep => SweepLevel(c, s, k);
    case Tick(elapsed) => TickLevel(c, s, elapsed, k);
  }

  /** 1 for a step that charges a failure of the peer, in whatever bucket. */
  function SpentBy(s: State, step: Step, peer: string): nat
    requires Enabled(s, step)
  {
    if step.Finish? && !step.success && s.held[step.id].peer == peer then 1 else 0
  }

  ghost function ChargesBy(c: Config, s: State, steps: seq<Step>, peer: string): nat
    requires Legal(c, s, steps)
    decreases |steps|
  {
    if steps == [] then 0 else SpentBy(s, steps[0], peer) + ChargesBy(c, Apply(c, s, steps[0]), steps[1..], peer)
  }

  ghost function Charges(c: Config, s: State, steps: seq<Step>, k: string): nat
    requires Legal(c, s, steps)
    decreases |steps|
  {
    if steps == [] then 0 else Spent(s, steps[0], k) + Charges(c, Apply(c, s, steps[0]), steps[1..], k)
  }

  lemma {:induction false} Window(c: Config, s: State, steps: seq<Step>, k: string)
    requires Configured(c) && Refilled(c) && Sound(c, s) && Legal(c, s, steps)
    ensures var s' := After(c, s, steps);
      Charges(c, s, steps, k) as real <= Level(c, s, k) - Level(c, s', k) + (s'.now - s.now)
    decreases |steps|
  {
    if steps != [] {
      StepLevel(c, s, steps[0], k);
      StepSound(c, s, steps[0]);
      Window(c, Apply(c, s, steps[0]), steps[1..], k);
    }
  }

  /** The window of the run between prefix and the end of steps is within the bound. */
  ghost predicate Within(c: Config, prefix: seq<Step>, steps: seq<Step>, k: string) {
    Legal(c, START, prefix) && Legal(c, After(c, START, prefix), steps) ==>
      var s := After(c, START, prefix);
      Charges(c, s, steps, k) as real <= c.burst as real + (After(c, s, steps).now - s.now)
  }

  /** In any window of any run a bucket is charged at most burst plus rate times the window (instants
      are in tokens, so the window's length is rate times its seconds). */
  lemma WindowBound(c: Config, prefix: seq<Step>, steps: seq<Step>, k: string)
    requires Configured(c) && Refilled(c)
    ensures Within(c, prefix, steps, k)
  {
    if Legal(c, START, prefix) && Legal(c, After(c, START, prefix), steps) {
      var s := After(c, START, prefix);
      ReachableSound(c, prefix);
      Window(c, s, steps, k);
      LevelRange(c, s, k);
      RunSound(c, s, steps);
      LevelRange(c, After(c, s, steps), k);
    }
  }

  // ----- Draining a bucket -----

  /** The peer is counted in bucket k, which has x tokens and no permit out. */
  ghost predicate Stands(c: Config, s: State, peer: string, k: string, x: real) {
    var m := Swept(c, s.limiter, s.now).buckets;
    && s.held == map[] && Slot(m, peer) == k
    && if k in m then m[k].pending == 0 && TokensAt(c, m[k], s.now) == x else x == c.burst as real
  }

  function Failures(peer: string, n: nat): seq<Step> {
    if n == 0 then [] else [Reserve(0, peer), Finish(0, false)] + Failures(peer, n - 1)
  }

  lemma OneStep(c: Config, s: State, a: Step, k: string)
    requires Enabled(s, a)
    ensures Legal(c, s, [a]) && After(c, s, [a]) == Apply(c, s, a)
    ensures Charges(c, s, [a], k) == Spent(s, a, k) && ChargesBy(c, s, [a], k) == SpentBy(s, a, k)
  {
    var s' := Apply(c, s, a);
    assert [a][1..] == [];
    assert Legal(c, s', []) && After(c, s', []) == s' && Charges(c, s', [], k) == 0 && ChargesBy(c, s', [], k) == 0;
  }

  /** A step and another are a run of two. */
  lemma TwoSteps(c: Config, s: State, a: Step, b: Step, k: string)
    requires Enabled(s, a) && Enabled(Apply(c, s, a), b)
    ensures Legal(c, s, [a, b]) && After(c, s, [a, b]) == Apply(c, Apply(c, s, a), b)
    ensures Charges(c, s, [a, b], k) == Spent(s, a, k) + Spent(Apply(c, s, a), b, k)
    ensures ChargesBy(c, s, [a, b], k) == SpentBy(s, a, k) + SpentBy(Apply(c, s, a), b, k)
  {
    OneStep(c, Apply(c, s, a), b, k);
    assert [a, b][1..] == [b];
  }

  /** The attempt is given a permit. */
  lemma FailReserves(c: Config, s: State, peer: string, k: string, x: real)
    requires Configured(c) && Stands(c, s, peer, k, x) && 1.0 <= x <= c.burst as real
    ensures var s1, m := Apply(c, s, Reserve(0, peer)), Swept(c, s.limiter, s.now);
      && s1.now == s.now && s1.held == map[0 := Permit(peer, k)] && k in s1.limiter.buckets
      && s1.limiter == m.(buckets := m.buckets[k := s1.limiter.buckets[k]])
      && s1.limiter.buckets[k].pending == 1 && TokensAt(c, s1.limiter.buckets[k], s.now) == x
  {
    var m := Swept(c, s.limiter, s.now).buckets;
    FoundLevel(c, m, k, s.now);
  }

  /** And charged. */
  lemma FailFinishes(c: Config, s1: State, peer: string, k: string, x: real)
    requires s1.held == map[0 := Permit(peer, k)] && k in s1.limiter.buckets && 1.0 <= x
    requires s1.limiter.buckets[k].pending == 1 && TokensAt(c, s1.limiter.buckets[k], s1.now) == x
    ensures Enabled(s1, Finish(0, false))
    ensures var s2 := Apply(c, s1, Finish(0, false));
      && s2.now == s1.now && s2.held == map[]
      && s2.limiter == s1.limiter.(buckets := s1.limiter.buckets[k := Bucket(x - 1.0, s1.now, 0, s1.now)])
  {
    assert Apply(c, s1, Finish(0, false)).held == map[];
  }

  /** The state after one failed attempt. */
  function Failed(c: Config, s: State, k: string, x: real): State {
    var m := Swept(c, s.limiter, s.now);
    State(m.(buckets := m.buckets[k := Bucket(x - 1.0, s.now, 0, s.now)]), s.now, map[])
  }

  /** One failed attempt takes one token. */
  lemma FailOnce(c: Config, s: State, peer: string, k: string, x: real)
    requires Configured(c) && Stands(c, s, peer, k, x) && 1.0 <= x <= c.burst as real
    ensures Legal(c, s, [Reserve(0, peer), Finish(0, false)])
    ensures After(c, s, [Reserve(0, peer), Finish(0, false)]) == Failed(c, s, k, x)
    ensures Charges(c, s, [Reserve(0, peer), Finish(0, false)], k) == 1
    ensures ChargesBy(c, s, [Reserve(0, peer), Finish(0, false)], peer) == 1
  {
    FailReserves(c, s, peer, k, x);
    var s1 := Apply(c, s, Reserve(0, peer));
    FailFinishes(c, s1, peer, k, x);
    TwoSteps(c, s, Reserve(0, peer), Finish(0, false), k);
    TwoSteps(c, s, Reserve(0, peer), Finish(0, false), peer);
    var m := Swept(c, s.limiter, s.now).buckets;
    assert m[k := s1.limiter.buckets[k]][k := Bucket(x - 1.0, s.now, 0, s.now)]
        == m[k := Bucket(x - 1.0, s.now, 0, s.now)];
  }

  /** A second sweep at the same instant drops nothing, so the peer still stands there. */
  lemma FailedStands(c: Config, s: State, peer: string, k: string, x: real)
    requires Configured(c) && Stands(c, s, peer, k, x) && 1.0 <= x <= c.burst as real
    ensures var t := Failed(c, s, k, x); Swept(c, t.limiter, t.now) == t.limiter && Stands(c, t, peer, k, x - 1.0)
  {
    var m, t := Swept(c, s.limiter, s.now), Failed(c, s, k, x);
    assert m.swept && s.now - m.lastSweep < SweepPeriod(c);
    assert Swept(c, t.limiter, t.now) == t.limiter;
    StillFull(m.buckets, peer, k, Bucket(x - 1.0, s.now, 0, s.now));
  }

  lemma StillFull(buckets: map<string, Bucket>, peer: string, k: string, b: Bucket)
    requires Slot(buckets, peer) == k
    ensures Slot(buckets[k := b], peer) == k
  {
    var all := buckets[k := b];
    assert all.Keys == buckets.Keys + {k};
    Cardinal(buckets.Keys, all.Keys);
    assert |buckets| == |buckets.Keys| && |all| == |all.Keys|;
  }

  lemma {:induction false} Concat(c: Config, s: State, a: seq<Step>, b: seq<Step>)
    requires Legal(c, s, a) && Legal(c, After(c, s, a), b)
    ensures Legal(c, s, a + b) && After(c, s, a + b) == After(c, After(c, s, a), b)
    decreases |a|
  {
    if a == [] {
      assert a + b == b;
    } else {
      Concat(c, Apply(c, s, a[0]), a[1..], b);
      assert (a + b)[0] == a[0] && (a + b)[1..] == a[1..] + b;
    }
  }

  lemma {:induction false} ConcatCharges(c: Config, s: State, a: seq<Step>, b: seq<Step>, k: string)
    requires Legal(c, s, a) && Legal(c, After(c, s, a), b) && Legal(c, s, a + b)
    ensures Charges(c, s, a + b, k) == Charges(c, s, a, k) + Charges(c, After(c, s, a), b, k)
    decreases |a|
  {
    if a == [] {
      assert a + b == b;
    } else {
      Concat(c, Apply(c, s, a[0]), a[1..], b);
      ConcatCharges(c, Apply(c, s, a[0]), a[1..], b, k);
      assert (a + b)[0] == a[0] && (a + b)[1..] == a[1..] + b;
    }
  }

  lemma {:induction false} ConcatChargesBy(c: Config, s: State, a: seq<Step>, b: seq<Step>, peer: string)
    requires Legal(c, s, a) && Legal(c, After(c, s, a), b) && Legal(c, s, a + b)
    ensures ChargesBy(c, s, a + b, peer) == ChargesBy(c, s, a, peer) + ChargesBy(c, After(c, s, a), b, peer)
    decreases |a|
  {
    if a == [] {
      assert a + b == b;
    } else {
      Concat(c, Apply(c, s, a[0]), a[1..], b);
      ConcatChargesBy(c, Apply(c, s, a[0]), a[1..], b, peer);
      assert (a + b)[0] == a[0] && (a + b)[1..] == a[1..] + b;
    }
  }

  /** One failure before others. */
  lemma FailFirst(c: Config, s: State, peer: string, k: string, x: real, rest: seq<Step>)
    requires Configured(c) && Stands(c, s, peer, k, x) && 1.0 <= x <= c.burst as real
    requires Legal(c, Failed(c, s, k, x), rest)
    ensures var t, all := Failed(c, s, k, x), [Reserve(0, peer), Finish(0, false)] + rest;
      && Legal(c, s, all) && After(c, s, all) == After(c, t, rest)
      && Charges(c, s, all, k) == 1 + Charges(c, t, rest, k)
      && ChargesBy(c, s, all, peer) == 1 + ChargesBy(c, t, rest, peer)
  {
    var once := [Reserve(0, peer), Finish(0, false)];
    FailOnce(c, s, peer, k, x);
    Concat(c, s, once, rest);
    ConcatCharges(c, s, once, rest, k);
    ConcatChargesBy(c, s, once, rest, peer);
  }

  /** The state after n failures in a row. */
  function Drained(c: Config, s: State, k: string, x: real, n: nat): State {
    if n == 0 then s else Failed(c, s, k, x - n as real + 1.0)
  }

  /** The steps are n failures of the peer and nothing else happens. */
  ghost predicate Drains(c: Config, s: State, peer: string, k: string, x: real, n: nat, steps: seq<Step>) {
    && Legal(c, s, steps) && After(c, s, steps) == Drained(c, s, k, x, n)
    && Charges(c, s, steps, k) == n && ChargesBy(c, s, steps, peer) == n
  }

  lemma DrainedNext(c: Config, s: State, peer: string, k: string, x: real, n: nat)
    requires Configured(c) && Stands(c, s, peer, k, x) && 1.0 <= x <= c.burst as real
    ensures Drained(c, Failed(c, s, k, x), k, x - 1.0, n) == Drained(c, s, k, x, n + 1)
  {
    assert (n + 1) as real == n as real + 1.0;
    if n > 0 {
      FailedStands(c, s, peer, k, x);
      FailedAgain(c, s, k, x, x - (n + 1) as real + 1.0);
    }
  }

  lemma DrainNext(c: Config, s: State, peer: string, k: string, x: real, n: nat, rest: seq<Step>)
    requires Configured(c) && Stands(c, s, peer, k, x) && 1.0 <= x <= c.burst as real
    requires Drains(c, Failed(c, s, k, x), peer, k, x - 1.0, n, rest)
    ensures Drains(c, s, peer, k, x, n + 1, [Reserve(0, peer), Finish(0, false)] + rest)
  {
    FailFirst(c, s, peer, k, x, rest);
    DrainedNext(c, s, peer, k, x, n);
  }

  lemma DrainNone(c: Config, s: State, peer: string, k: string, x: real)
    ensures Drains(c, s, peer, k, x, 0, [])
  {
  }

  /** The peer stands at x tokens, enough for n failures. */
  ghost predicate Affords(c: Config, s: State, peer: string, k: string, x: real, n: nat) {
    Configured(c) && Stands(c, s, peer, k, x) && n as real <= x <= c.burst as real
  }

  lemma AffordsNext(c: Config, s: State, peer: string, k: string, x: real, n: nat)
    requires Affords(c, s, peer, k, x, n) && n > 0
    ensures 1.0 <= x && Affords(c, Failed(c, s, k, x), peer, k, x - 1.0, n - 1)
  {
    FailedStands(c, s, peer, k, x);
    assert (n - 1) as real == n as real - 1.0;
  }

  /** n failures take n tokens. */
  lemma {:induction false} Drain(c: Config, s: State, peer: string, k: string, x: real, n: nat)
    requires Affords(c, s, peer, k, x, n)
    ensures Drains(c, s, peer, k, x, n, Failures(peer, n))
    decreases n
  {
    if n == 0 {
      DrainNone(c, s, peer, k, x);
    } else {
      AffordsNext(c, s, peer, k, x, n);
      Drain(c, Failed(c, s, k, x), peer, k, x - 1.0, n - 1);
      DrainNext(c, s, peer, k, x, n - 1, Failures(peer, n - 1));
    }
  }

  lemma FailedAgain(c: Config, s: State, k: string, x: real, y: real)
    requires Swept(c, Failed(c, s, k, x).limiter, s.now) == Failed(c, s, k, x).limiter
    ensures Failed(c, Failed(c, s, k, x), k, y) == Failed(c, s, k, y)
  {
    var m := Swept(c, s.limiter, s.now).buckets;
    var a, b := Bucket(x - 1.0, s.now, 0, s.now), Bucket(y - 1.0, s.now, 0, s.now);
    assert m[k := a][k := b] == m[k := b];
  }

  /** Failures, a pause, and the same failures again. */
  lemma Twice(c: Config, s: State, first: seq<Step>, pause: Step, k: string)
    requires Legal(c, s, first) && Enabled(After(c, s, first), pause) && pause.Tick?
    requires Legal(c, Apply(c, After(c, s, first), pause), first)
    ensures var all, s2 := first + ([pause] + first), Apply(c, After(c, s, first), pause);
      && Legal(c, s, all) && After(c, s, all) == After(c, s2, first)
      && Charges(c, s, all, k) == Charges(c, s, first, k) + Charges(c, s2, first, k)
      && ChargesBy(c, s, all, k) == ChargesBy(c, s, first, k) + ChargesBy(c, s2, first, k)
  {
    var s1 := After(c, s, first);
    OneStep(c, s1, pause, k);
    Concat(c, s1, [pause], first);
    ConcatCharges(c, s1, [pause], first, k);
    ConcatChargesBy(c, s1, [pause], first, k);
    Concat(c, s, first, [pause] + first);
    ConcatCharges(c, s, first, [pause] + first, k);
    ConcatChargesBy(c, s, first, [pause] + first, k);
  }

  // ----- Where the bound fails -----

  /** burst failures, ten idle minutes, burst failures. */
  function TwoBursts(c: Config, peer: string): seq<Step> {
    Failures(peer, c.burst) + ([Tick(IdleTtl(c))] + Failures(peer, c.burst))
  }

  /** Ten idle minutes later the drained bucket is gone. */
  lemma DrainedIsSwept(c: Config, peer: string)
    requires Configured(c)
    ensures Drains(c, START, peer, peer, c.burst as real, c.burst, Failures(peer, c.burst))
    ensures var s2 := Apply(c, After(c, START, Failures(peer, c.burst)), Tick(IdleTtl(c)));
      s2.now == IdleTtl(c) && Stands(c, s2, peer, peer, c.burst as real)
  {
    var first := Failures(peer, c.burst);
    assert Swept(c, START.limiter, START.now) == Limiter(map[], 0.0, true);
    Drain(c, START, peer, peer, c.burst as real, c.burst);
    var s1 := After(c, START, first);
    assert s1.limiter == Limiter(map[peer := Bucket(0.0, 0.0, 0, 0.0)], 0.0, true);
    var s2 := Apply(c, s1, Tick(IdleTtl(c)));
    assert Swept(c, s2.limiter, s2.now).buckets == map[];
  }

  lemma TwoBurstsCharge(c: Config, peer: string)
    requires Configured(c)
    ensures Legal(c, START, TwoBursts(c, peer)) && After(c, START, TwoBursts(c, peer)).now == IdleTtl(c)
    ensures Charges(c, START, TwoBursts(c, peer), peer) == 2 * c.burst
    ensures ChargesBy(c, START, TwoBursts(c, peer), peer) == 2 * c.burst
  {
    var first := Failures(peer, c.burst);
    DrainedIsSwept(c, peer);
    var s2 := Apply(c, After(c, START, first), Tick(IdleTtl(c)));
    Drain(c, s2, peer, peer, c.burst as real, c.burst);
    Twice(c, START, first, Tick(IdleTtl(c)), peer);
  }

  /** If ten minutes do not refill a bucket, the sweep gives an idle peer a full bucket too early. */
  lemma SweepBreaksBound(c: Config, peer: string)
    requires Configured(c) && !Refilled(c)
    ensures !Within(c, [], TwoBursts(c, peer), peer)
  {
    TwoBurstsCharge(c, peer);
    assert After(c, START, []) == START;
  }

  /** The window bound holds in all runs if and only if rate times ten minutes is at least burst. */
  lemma WindowBoundIff(c: Config)
    requires Configured(c)
    ensures c.rate * 600.0 >= c.burst as real <==> forall prefix, steps, k :: Within(c, prefix, steps, k)
  {
    if Refilled(c) {
      forall prefix, steps, k ensures Within(c, prefix, steps, k) { WindowBound(c, prefix, steps, k); }
    } else {
      SweepBreaksBound(c, "10.0.0.1");
    }
  }
}
