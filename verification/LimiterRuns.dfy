/** The limiter over every interleaving of reserve, finish and sweep, with a clock that does not go
    back between atomic steps. */
module LimiterRuns {
  import opened Sets
  import opened LimiterModel

  datatype Permit = Permit(peer: string, slot: string)

  datatype State = State(limiter: Limiter, now: real, held: map<nat, Permit>)

  datatype Step =
    | Reserve(id: nat, peer: string)
    | Finish(id: nat, success: bool)
    | Sweep
    | Tick(elapsed: real)

  const START := State(EMPTY, 0.0, map[])

  predicate Enabled(s: State, step: Step) {
    match step
    case Reserve(id, _) => id !in s.held
    case Finish(id, _) => id in s.held && var slot := s.held[id].slot;
      slot in s.limiter.buckets && s.limiter.buckets[slot].pending > 0
    case Sweep => true
    case Tick(elapsed) => elapsed >= 0.0
  }

  function Apply(c: Config, s: State, step: Step): State
    requires Enabled(s, step)
  {
    match step
    case Reserve(id, peer) =>
      var g := Granted(c, s.limiter, peer, s.now);
      s.(limiter := Reserved(c, s.limiter, peer, s.now),
         held := if g.0 then s.held[id := Permit(peer, g.1)] else s.held)
    case Finish(id, success) =>
      s.(limiter := Finished(c, s.limiter, s.held[id].slot, success, s.now), held := s.held - {id})
    case Sweep => s.(limiter := Swept(c, s.limiter, s.now))
    case Tick(elapsed) => s.(now := s.now + elapsed)
  }

  function Permits(held: map<nat, Permit>, slot: string): set<nat> {
    set id | id in held && held[id].slot == slot
  }

  /** pending counts the permits out on a bucket; a permit's bucket is in the map. */
  ghost predicate Counted(buckets: map<string, Bucket>, held: map<nat, Permit>) {
    forall k: string :: |Permits(held, k)| == if k in buckets then buckets[k].pending else 0
  }

  ghost predicate AllFilled(c: Config, buckets: map<string, Bucket>, now: real) {
    forall k | k in buckets :: Filled(c, buckets[k], now)
  }

  ghost predicate Few(buckets: map<string, Bucket>) { |buckets.Keys - {UNKNOWN}| <= MAX_BUCKETS }

  ghost predicate Sound(c: Config, s: State) {
    && AllFilled(c, s.limiter.buckets, s.now) && Counted(s.limiter.buckets, s.held) && Few(s.limiter.buckets)
    && s.limiter.lastSweep <= s.now
  }

  // ----- Sweep -----

  lemma SweepSound(c: Config, s: State)
    requires Sound(c, s)
    ensures Sound(c, s.(limiter := Swept(c, s.limiter, s.now)))
  {
    var b, b' := s.limiter.buckets, Swept(c, s.limiter, s.now).buckets;
    Cardinal(b'.Keys - {UNKNOWN}, b.Keys - {UNKNOWN});
  }

  // ----- Reserve -----

  lemma FewAfterReserve(buckets: map<string, Bucket>, peer: string, b: Bucket)
    requires Few(buckets)
    ensures Few(buckets[Slot(buckets, peer) := b])
  {
    var slot := Slot(buckets, peer);
    var ks := buckets[slot := b].Keys - {UNKNOWN};
    if slot == UNKNOWN || peer in buckets {
      assert ks == buckets.Keys - {UNKNOWN};
    } else {
      assert ks == (buckets.Keys - {UNKNOWN}) + {peer};
      Cardinal(buckets.Keys - {UNKNOWN}, buckets.Keys);
    }
  }

  lemma FoundFilled(c: Config, buckets: map<string, Bucket>, slot: string, now: real)
    requires Configured(c) && AllFilled(c, buckets, now)
    ensures Filled(c, Found(c, buckets, slot, now), now)
    ensures Room(c, Found(c, buckets, slot, now), now) ==>
      Filled(c, Found(c, buckets, slot, now).(pending := Found(c, buckets, slot, now).pending + 1), now)
  {
  }

  lemma PermitAdded(held: map<nat, Permit>, id: nat, p: Permit, k: string)
    requires id !in held
    ensures |Permits(held[id := p], k)| == |Permits(held, k)| + if p.slot == k then 1 else 0
  {
    assert Permits(held[id := p], k) == Permits(held, k) + if p.slot == k then {id} else {};
  }

  lemma PermitRemoved(held: map<nat, Permit>, id: nat, k: string)
    requires id in held
    ensures |Permits(held - {id}, k)| == |Permits(held, k)| - if held[id].slot == k then 1 else 0
  {
    assert Permits(held - {id}, k) == Permits(held, k) - {id};
    assert held[id].slot == k <==> id in Permits(held, k);
  }

  lemma ReserveCounted(c: Config, s: State, id: nat, peer: string)
    requires Counted(Swept(c, s.limiter, s.now).buckets, s.held) && id !in s.held
    ensures var s' := Apply(c, s, Reserve(id, peer)); Counted(s'.limiter.buckets, s'.held)
  {
    var s' := Apply(c, s, Reserve(id, peer));
    var g := Granted(c, s.limiter, peer, s.now);
    forall k: string
      ensures |Permits(s'.held, k)| == if k in s'.limiter.buckets then s'.limiter.buckets[k].pending else 0
    {
      PermitAdded(s.held, id, Permit(peer, g.1), k);
      var swept := Swept(c, s.limiter, s.now).buckets;
      assert |Permits(s.held, k)| == if k in swept then swept[k].pending else 0;
    }
  }

  lemma ReserveSound(c: Config, s: State, id: nat, peer: string)
    requires Configured(c) && Sound(c, s) && id !in s.held
    ensures Sound(c, Apply(c, s, Reserve(id, peer)))
  {
    SweepSound(c, s);
    var m := Swept(c, s.limiter, s.now).buckets;
    ReserveCounted(c, s, id, peer);
    FewAfterReserve(m, peer, Apply(c, s, Reserve(id, peer)).limiter.buckets[Slot(m, peer)]);
    FoundFilled(c, m, Slot(m, peer), s.now);
  }

  // ----- Finish and time -----

  lemma FinishCounted(c: Config, s: State, id: nat, success: bool)
    requires Counted(s.limiter.buckets, s.held) && Enabled(s, Finish(id, success))
    ensures var s' := Apply(c, s, Finish(id, success)); Counted(s'.limiter.buckets, s'.held)
  {
    var s' := Apply(c, s, Finish(id, success));
    forall k: string
      ensures |Permits(s'.held, k)| == if k in s'.limiter.buckets then s'.limiter.buckets[k].pending else 0
    {
      PermitRemoved(s.held, id, k);
      assert |Permits(s.held, k)| == if k in s.limiter.buckets then s.limiter.buckets[k].pending else 0;
    }
  }

  lemma SettledFilled(c: Config, b: Bucket, success: bool, now: real)
    requires Configured(c) && Filled(c, b, now) && b.pending > 0
    ensures Filled(c, (if success then b else Charged(c, b, now)).(pending := b.pending - 1, lastSeen := now), now)
  {
    if success {
      var d := b.(pending := b.pending - 1, lastSeen := now);
      assert TokensAt(c, d, now) == TokensAt(c, b, now);
      assert d.pending as real == b.pending as real - 1.0;
    } else {
      PermitCharges(c, b, now);
    }
  }

  lemma FinishSound(c: Config, s: State, id: nat, success: bool)
    requires Configured(c) && Sound(c, s) && Enabled(s, Finish(id, success))
    ensures Sound(c, Apply(c, s, Finish(id, success)))
  {
    var b, b' := s.limiter.buckets, Apply(c, s, Finish(id, success)).limiter.buckets;
    var slot := s.held[id].slot;
    FinishCounted(c, s, id, success);
    SettledFilled(c, b[slot], success, s.now);
    assert b' == b[slot := b'[slot]] && b'.Keys == b.Keys;
    assert Filled(c, b'[slot], s.now);
  }

  lemma TickSound(c: Config, s: State, elapsed: real)
    requires Configured(c) && Sound(c, s) && elapsed >= 0.0
    ensures Sound(c, Apply(c, s, Tick(elapsed)))
  {
  }

  lemma StepSound(c: Config, s: State, step: Step)
    requires Configured(c) && Sound(c, s) && Enabled(s, step)
    ensures Sound(c, Apply(c, s, step))
  {
    match step
    case Reserve(id, peer) => ReserveSound(c, s, id, peer);
    case Finish(id, success) => FinishSound(c, s, id, success);
    case Sweep => SweepSound(c, s);
    case Tick(elapsed) => TickSound(c, s, elapsed);
  }

  // ----- Runs -----

  ghost predicate Legal(c: Config, s: State, steps: seq<Step>)
    decreases |steps|
  {
    steps == [] || (Enabled(s, steps[0]) && Legal(c, Apply(c, s, steps[0]), steps[1..]))
  }

  ghost function After(c: Config, s: State, steps: seq<Step>): State
    requires Legal(c, s, steps)
    decreases |steps|
  {
    if steps == [] then s else After(c, Apply(c, s, steps[0]), steps[1..])
  }

  lemma StartSound(c: Config)
    ensures Sound(c, START)
  {
    forall k: string ensures Permits(map[], k) == {} { }
  }

  lemma {:induction false} RunSound(c: Config, s: State, steps: seq<Step>)
    requires Configured(c) && Sound(c, s) && Legal(c, s, steps)
    ensures Sound(c, After(c, s, steps))
    decreases |steps|
  {
    if steps != [] {
      StepSound(c, s, steps[0]);
      RunSound(c, Apply(c, s, steps[0]), steps[1..]);
    }
  }

  lemma ReachableSound(c: Config, steps: seq<Step>)
    requires Configured(c) && Legal(c, START, steps)
    ensures Sound(c, After(c, START, steps))
  {
    StartSound(c);
    RunSound(c, START, steps);
  }

  /** A permit's bucket is never swept, so its finish always finds it. */
  lemma PermitHasBucket(c: Config, steps: seq<Step>, id: nat, success: bool)
    requires Configured(c) && Legal(c, START, steps) && id in After(c, START, steps).held
    ensures Enabled(After(c, START, steps), Finish(id, success))
  {
    ReachableSound(c, steps);
    var s := After(c, START, steps);
    assert id in Permits(s.held, s.held[id].slot);
    assert |Permits(s.held, s.held[id].slot)| > 0;
  }

  /** In every reachable state a bucket's tokens cover its permits, so charging a failure succeeds
      and takes exactly one token. */
  lemma ChargeSucceeds(c: Config, steps: seq<Step>, id: nat)
    requires Configured(c) && Legal(c, START, steps) && Enabled(After(c, START, steps), Finish(id, false))
    ensures var s := After(c, START, steps);
      var slot, s' := s.held[id].slot, Apply(c, s, Finish(id, false));
      && s.limiter.buckets[slot].pending as real <= TokensAt(c, s.limiter.buckets[slot], s.now)
      && TokensAt(c, s'.limiter.buckets[slot], s.now) == TokensAt(c, s.limiter.buckets[slot], s.now) - 1.0
  {
    ReachableSound(c, steps);
    var s := After(c, START, steps);
    PermitCharges(c, s.limiter.buckets[s.held[id].slot], s.now);
  }

  /** At most 4097 buckets exist: 4096 peers and the overflow bucket. */
  lemma BucketsBounded(c: Config, steps: seq<Step>)
    requires Configured(c) && Legal(c, START, steps)
    ensures |After(c, START, steps).limiter.buckets| <= 4097
  {
    ReachableSound(c, steps);
    var ks := After(c, START, steps).limiter.buckets.Keys;
    if UNKNOWN in ks {
      assert ks == (ks - {UNKNOWN}) + {UNKNOWN};
    } else {
      assert ks == ks - {UNKNOWN};
    }
  }

  // ----- What a sweep may drop -----

  /** A sweep is due once a minute. It drops exactly the buckets without permits that nobody used for ten
      minutes. */
  lemma SweepIff(c: Config, s: State, k: string)
    ensures k in Apply(c, s, Sweep).limiter.buckets <==>
      && k in s.limiter.buckets
      && var b := s.limiter.buckets[k];
         || (s.limiter.swept && s.now - s.limiter.lastSweep < c.rate * 60.0)
         || b.pending > 0 || s.now - b.lastSeen < c.rate * 600.0
    ensures k in Apply(c, s, Sweep).limiter.buckets ==> Apply(c, s, Sweep).limiter.buckets[k] == s.limiter.buckets[k]
  {
  }

  /** The bucket was used at instant t or later. */
  ghost predicate UsedSince(s: State, k: string, t: real) {
    k in s.limiter.buckets && s.limiter.buckets[k].lastSeen >= t
  }

  /** Reserving and finishing use the bucket, whatever their outcome. */
  lemma StepUses(c: Config, s: State, step: Step)
    requires Enabled(s, step)
    ensures step.Reserve? ==> UsedSince(Apply(c, s, step), Granted(c, s.limiter, step.peer, s.now).1, s.now)
    ensures step.Finish? ==> UsedSince(Apply(c, s, step), s.held[step.id].slot, s.now)
  {
  }

  lemma StillUsed(c: Config, s: State, step: Step, k: string, t: real)
    requires Enabled(s, step) && UsedSince(s, k, t) && t <= s.now && s.now - t < c.rate * 600.0
    ensures UsedSince(Apply(c, s, step), k, t) && s.now <= Apply(c, s, step).now
  {
  }

  /** In every run a bucket stays for ten minutes after it was last used. */
  lemma {:induction false} UsedStays(c: Config, s: State, steps: seq<Step>, k: string, t: real)
    requires Legal(c, s, steps) && UsedSince(s, k, t) && t <= s.now
    requires After(c, s, steps).now - t < c.rate * 600.0
    ensures UsedSince(After(c, s, steps), k, t)
    decreases |steps|
  {
    if steps != [] {
      ClockGrows(c, s, steps);
      StillUsed(c, s, steps[0], k, t);
      UsedStays(c, Apply(c, s, steps[0]), steps[1..], k, t);
    }
  }

  lemma {:induction false} ClockGrows(c: Config, s: State, steps: seq<Step>)
    requires Legal(c, s, steps)
    ensures s.now <= After(c, s, steps).now
    decreases |steps|
  {
    if steps != [] { ClockGrows(c, Apply(c, s, steps[0]), steps[1..]); }
  }
}
