/** What a climbing proxy is pushed: one retry per rung, each a resource it has not seen. */
module ServerPushes {
  import opened Strings
  import opened StoreModel
  import opened StoreInvariant
  import opened StoreLaws
  import opened Server
  import opened ServerStore
  import opened ServerClimb
  import opened ServerRace

  /** What a step pushes to the proxy. */
  ghost function PushedBy(sha: string -> string, s: Server, step: Step, k: string): seq<Cached>
    requires Enabled(s, step)
  {
    var t := Apply(sha, s, step).store;
    if Publishes(s, step, k) && k in t.cache then [t.cache[k]] else []
  }

  /** The snapshots that the published retries of a run put in the proxy's cache, in order. */
  ghost function Pushed(sha: string -> string, s: Server, steps: seq<Step>, k: string): seq<Cached>
    requires Legal(sha, s, steps)
    decreases |steps|
  {
    if steps == [] then [] else PushedBy(sha, s, steps[0], k) + Pushed(sha, Apply(sha, s, steps[0]), steps[1..], k)
  }

  /** The ladder of an Engine's snapshot, rung by rung. */
  function LadderOf(m: Snapshot): nat -> Option<Cached> { n => Rejected(m, n) }

  /** The rungs above h. */
  ghost predicate Rungs(ladder: nat -> Option<Cached>, h: nat, pushed: seq<Cached>) {
    forall i | 0 <= i < |pushed| :: ladder(h + 1 + i) == Some(pushed[i])
  }

  lemma FireBumps(sha: string -> string, s: Server, step: Step, k: string)
    requires Enabled(s, step) && Publishes(s, step, k)
    ensures var x := s.streams[step.id].timers[step.timer];
      Bump(s.store, x.resource, k, x.base, x.attempt) == Some(Apply(sha, s, step).store)
  {
  }

  /** From height h to height g the step pushed the rung in between, or nothing. */
  ghost predicate Climbs(ladder: nat -> Option<Cached>, h: nat, one: seq<Cached>, g: nat) {
    || (one == [] && g == h)
    || (|one| == 1 && g == h + 1 && ladder(h + 1) == Some(one[0]))
  }

  lemma FiredIsNext(s: Server, step: Step, r: string, e: string, k: string)
    requires Enabled(s, step) && Climbing(s, r, e, k) && Publishes(s, step, k)
    ensures s.streams[step.id].timers[step.timer] == NextRung(s.store, r, e, k)
  {
    assert Wants(s.streams[step.id], s.streams[step.id].timers[step.timer]);
  }

  lemma OneClimbs(m: Snapshot, h: nat, c: Cached)
    requires Rejected(m, h + 1) == Some(c)
    ensures Climbs(LadderOf(m), h, [c], h + 1)
  {
    assert LadderOf(m)(h + 1) == Rejected(m, h + 1);
  }

  lemma BumpPushes(s: Store, t: Store, x: Retry, r: string, e: string, k: string)
    requires Ladder(s, r, e, k) && x.resource == r && x.proxyKey == k && Bump(s, r, k, x.base, x.attempt) == Some(t)
    ensures k in t.cache && Rejected(s.meta[e], x.attempt) == Some(t.cache[k])
  {
    BumpInv(s, r, k, x.base, x.attempt);
  }

  lemma BumpClimbs(s: Store, t: Store, x: Retry, h: nat, r: string, e: string, k: string)
    requires Ladder(s, r, e, k) && x == Retry(r, k, s.meta[e].version, h + 1) && Bump(s, r, k, x.base, h + 1) == Some(t)
    ensures k in t.cache && Climbs(LadderOf(s.meta[e]), h, [t.cache[k]], h + 1)
  {
    BumpPushes(s, t, x, r, e, k);
    OneClimbs(s.meta[e], h, t.cache[k]);
  }

  lemma PublishPushes(sha: string -> string, s: Server, step: Step, r: string, e: string, k: string)
    requires Enabled(s, step) && Climbing(s, r, e, k) && Publishes(s, step, k)
    ensures |PushedBy(sha, s, step, k)| == 1
    ensures Climbs(LadderOf(s.store.meta[e]), Height(s.store, k), PushedBy(sha, s, step, k), Height(s.store, k) + 1)
  {
    FiredIsNext(s, step, r, e, k);
    FireBumps(sha, s, step, k);
    BumpClimbs(s.store, Apply(sha, s, step).store, NextRung(s.store, r, e, k), Height(s.store, k), r, e, k);
  }

  lemma PrependRungs(ladder: nat -> Option<Cached>, h: nat, one: seq<Cached>, g: nat, rest: seq<Cached>)
    requires Climbs(ladder, h, one, g) && Rungs(ladder, g, rest)
    ensures Rungs(ladder, h, one + rest)
  {
    var all := one + rest;
    if one == [] {
      assert all == rest;
    } else {
      forall i | 0 <= i < |all| ensures ladder(h + 1 + i) == Some(all[i]) {
        if i > 0 { assert all[i] == rest[i - 1] && h + 1 + i == g + 1 + (i - 1); }
      }
    }
  }

  /** One step of the climb pushes the next rung or nothing. */
  lemma StepPushes(sha: string -> string, s: Server, step: Step, r: string, e: string, k: string)
    requires Enabled(s, step) && Lawful(step) && Climbing(s, r, e, k) && Undisturbed(sha, s, step, r, e, k)
    requires Height(s.store, k) < MAX_INT
    ensures var t := Apply(sha, s, step).store;
      && Lookup(t, r) == Some(e) && t.meta[e] == s.store.meta[e]
      && Climbs(LadderOf(s.store.meta[e]), Height(s.store, k), PushedBy(sha, s, step, k), Height(t, k))
      && |PushedBy(sha, s, step, k)| == if Publishes(s, step, k) then 1 else 0
  {
    if Publishes(s, step, k) {
      PublishClimbs(sha, s, step, r, e, k);
      PublishPushes(sha, s, step, r, e, k);
    } else {
      QuietHeight(sha, s, step, r, e, k);
    }
  }

  /** Along every undisturbed run whose retries come one by one, what is pushed is the next rung, the
      one after it, and so on, each once. */
  lemma {:induction false} ClimbPushes(sha: string -> string, s: Server, steps: seq<Step>,
                                       r: string, e: string, k: string)
    requires Legal(sha, s, steps) && Climbing(s, r, e, k) && Smooth(sha, s, steps, r, e, k)
    requires OneByOne(sha, s, steps, k) && Height(s.store, k) + |steps| <= MAX_INT
    ensures |Pushed(sha, s, steps, k)| == Published(sha, s, steps, k)
    ensures Rungs(LadderOf(s.store.meta[e]), Height(s.store, k), Pushed(sha, s, steps, k))
    decreases |steps|
  {
    if steps != [] {
      var t := Apply(sha, s, steps[0]);
      ClimbStep(sha, s, steps[0], r, e, k);
      ClimbPushes(sha, t, steps[1..], r, e, k);
      StepPushes(sha, s, steps[0], r, e, k);
      PrependRungs(LadderOf(s.store.meta[e]), Height(s.store, k), PushedBy(sha, s, steps[0], k), Height(t.store, k),
                   Pushed(sha, t, steps[1..], k));
    }
  }

  /** The same configuration under a name and version of its own. */
  predicate Renamed(c: Cached, m: Snapshot) {
    && c.resource.name == m.resource.name && c.resource.config == m.resource.config
    && c.resource != m.resource && c.version != m.version
  }

  ghost predicate AllFresh(m: Snapshot, pushed: seq<Cached>) {
    && (forall i | 0 <= i < |pushed| :: Renamed(pushed[i], m))
    && (forall i, j | 0 <= i < j < |pushed| ::
         pushed[i].resource != pushed[j].resource && pushed[i].version != pushed[j].version)
  }

  lemma RungsAreFresh(m: Snapshot, h: nat, pushed: seq<Cached>)
    requires Rungs(LadderOf(m), h, pushed)
    ensures AllFresh(m, pushed)
  {
    forall i | 0 <= i < |pushed| ensures Rejected(m, h + 1 + i) == Some(pushed[i]) {
      assert LadderOf(m)(h + 1 + i) == Some(pushed[i]);
    }
    forall i | 0 <= i < |pushed| ensures Renamed(pushed[i], m) {
      assert Rejected(m, h + 1 + i) == Some(pushed[i]);
      RetryResource(m, h + 1 + i);
    }
    forall i, j | 0 <= i < j < |pushed|
      ensures pushed[i].resource != pushed[j].resource && pushed[i].version != pushed[j].version
    {
      assert Rejected(m, h + 1 + i) == Some(pushed[i]) && Rejected(m, h + 1 + j) == Some(pushed[j]);
      RetriesDiffer(m, h + 1 + i, h + 1 + j);
    }
  }

  /** So no two retries pushed to a proxy are the same resource or version, none is the shared one, and
      all have its configuration. */
  lemma PushesAreFresh(sha: string -> string, s: Server, steps: seq<Step>, r: string, e: string, k: string)
    requires Legal(sha, s, steps) && Climbing(s, r, e, k) && Smooth(sha, s, steps, r, e, k)
    requires OneByOne(sha, s, steps, k) && Height(s.store, k) + |steps| <= MAX_INT
    ensures |Pushed(sha, s, steps, k)| == Published(sha, s, steps, k)
    ensures AllFresh(s.store.meta[e], Pushed(sha, s, steps, k))
  {
    ClimbPushes(sha, s, steps, r, e, k);
    RungsAreFresh(s.store.meta[e], Height(s.store, k), Pushed(sha, s, steps, k));
  }
}
