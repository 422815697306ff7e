/** The retry ladder of one proxy: each published retry raises its attempt by one, and exactly when. */
module ServerClimb {
  import opened Strings
  import opened Names
  import opened RetryVersion
  import opened StoreModel
  import opened StoreInvariant
  import opened Server
  import opened ServerRetry
  import opened ServerStore

  /** The attempt of the snapshot the store keeps for a proxy; 0 when it keeps none. */
  function Height(s: Store, k: string): nat {
    if k in s.proxies && k in s.cache then RetryAttempt(s.cache[k].version) else 0
  }

  /** k is a proxy of Engine e, whose resource is r. */
  ghost predicate Ladder(s: Store, r: string, e: string, k: string) {
    && Inv(s) && IsProxyKey(k) && Lookup(s, r) == Some(e)
    && (k in s.proxies ==> s.proxies[k].engineKey == e)
  }

  /** What resubscribeRejected reads is the accepted version and the proxy's attempt. */
  lemma LadderVersion(s: Store, r: string, e: string, k: string)
    requires Ladder(s, r, e, k)
    ensures CurrentVersionFor(s, r, k).Some?
    ensures RetryBase(CurrentVersionFor(s, r, k).value) == s.meta[e].version
    ensures RetryAttempt(CurrentVersionFor(s, r, k).value) == Height(s, k)
  {
    assert e in s.cache && s.cache[e] == Compiled(s.meta[e]);
    PlainDecodes(s.meta[e].version);
    if k in s.proxies { TrackedBase(s, k); }
  }

  // ----- What leaves a proxy's snapshot alone -----

  /** The proxy's record is the same up to its counters, or gone. */
  ghost predicate KeptOrGone(s: Store, s': Store, k: string) {
    k in s'.proxies ==>
      && k in s.proxies && s'.proxies[k].engineKey == s.proxies[k].engineKey
      && k in s.cache && k in s'.cache && s'.cache[k] == s.cache[k]
  }

  lemma KeptOrGoneTrans(s: Store, t: Store, u: Store, k: string)
    requires KeptOrGone(s, t, k) && KeptOrGone(t, u, k)
    ensures KeptOrGone(s, u, k)
  {
  }

  lemma DropKeeps(s: Store, ks: set<string>, k: string)
    requires k in s.proxies ==> k in s.cache
    ensures KeptOrGone(s, Drop(s, ks), k)
  {
  }

  lemma ReleaseKeeps(s: Store, j: string, k: string)
    requires k in s.proxies ==> k in s.cache
    ensures KeptOrGone(s, Release(s, j), k)
  {
    if j in s.proxies {
      assert KeptOrGone(s, LetGo(s, j), k);
      DropKeeps(LetGo(s, j), {j}, k);
      KeptOrGoneTrans(s, LetGo(s, j), Released(s, j), k);
      assert k in Released(s, j).proxies ==> k in Released(s, j).cache;
      DropKeeps(Released(s, j), Surplus(Released(s, j).proxies, s.proxies[j].engineKey), k);
      KeptOrGoneTrans(s, Released(s, j), Release(s, j), k);
    }
  }

  lemma AckKeeps(s: Store, j: string, version: string, k: string)
    requires k in s.proxies ==> k in s.cache
    ensures KeptOrGone(s, Ack(s, j, version), k)
  {
  }

  lemma RetriedKeeps(s: Store, x: Retry, k: string)
    requires k in s.proxies ==> k in s.cache
    requires x.proxyKey != k
    ensures KeptOrGone(s, Retried(s, x), k)
  {
    var plan := BumpPlan(s, x.resource, x.proxyKey, x.base, x.attempt);
    if plan.Install? {
      var t := Put(s, x.proxyKey, plan.proxy, plan.cached, plan.next);
      assert KeptOrGone(s, t, k);
      DropKeeps(t, Surplus(t.proxies, plan.proxy.engineKey), k);
      KeptOrGoneTrans(s, t, Evict(t, plan.proxy.engineKey), k);
    }
  }

  /** A bind of the proxy itself keeps its snapshot when it has one to resume, or nothing to restore. */
  lemma BindKeeps(s: Store, resource: string, j: string, version: string, k: string)
    requires k in s.proxies ==> k in s.cache
    requires var plan := BindPlan(s, resource, j, version);
      j == k && plan.Install? ==> k in s.proxies && plan.cached == s.cache[k]
    ensures KeptOrGone(s, Bind(s, resource, j, version), k)
  {
  }

  lemma OtherEngineKeeps(s: Store, m: Snapshot, r: string, e: string, k: string)
    requires Ladder(s, r, e, k) && Publishable(m) && EngineKey(m) != e
    ensures KeptOrGone(s, Replace(s, m), k)
    ensures Lookup(Replace(s, m), r) == Some(e) && Replace(s, m).meta[e] == s.meta[e]
  {
    assert Publishable(s.meta[e]) && e == EngineKey(s.meta[e]) && s.meta[e].resourceName == r;
    if m.resourceName == r { SameNameSameEngine(m, s.meta[e]); }
    EngineKeyIsPlain(m);
    assert k in s.proxies ==> k in s.cache;
  }

  lemma OtherDeleteKeeps(s: Store, namespace: string, name: string, r: string, e: string, k: string)
    requires Ladder(s, r, e, k) && Key(namespace, name) != e && '\0' !in namespace && '\0' !in name
    ensures KeptOrGone(s, Delete(s, namespace, name), k)
    ensures Lookup(Delete(s, namespace, name), r) == Some(e) && Delete(s, namespace, name).meta[e] == s.meta[e]
  {
    assert Publishable(s.meta[e]) && s.meta[e].resourceName == r;
    assert !IsProxyKey(Key(namespace, name));
    assert k in s.proxies ==> k in s.cache;
  }

  /** A published retry sets the proxy's attempt to its own. */
  lemma PublishedHeight(s: Store, x: Retry, r: string, e: string, k: string)
    requires Ladder(s, r, e, k) && x.resource == r && x.proxyKey == k && 0 < x.attempt <= MAX_INT
    requires Bump(s, r, k, x.base, x.attempt).Some?
    ensures Ladder(Retried(s, x), r, e, k) && Retried(s, x).meta == s.meta
    ensures k in Retried(s, x).proxies && Height(Retried(s, x), k) == x.attempt
  {
    BumpInv(s, r, k, x.base, x.attempt);
    DerivedDecodes(s.meta[e].version, x.attempt);
    var plan := BumpPlan(s, r, k, x.base, x.attempt);
    assert Retried(s, x).proxies[k].engineKey == plan.proxy.engineKey == e;
  }

  // ----- Retries that streams still want -----

  predicate Wants(t: Stream, x: Retry) {
    || x in t.timers
    || ((t.pc.Claiming? || t.pc.Tracking? || t.pc.Recording? || t.pc.Arming?) && t.pc.retry == x)
  }

  /** Every retry an open stream still wants for the proxy of x is x. */
  ghost predicate OnlyWanted(s: Server, x: Retry) {
    forall id, y | id in s.open && id in s.streams && Wants(s.streams[id], y) && y.proxyKey == x.proxyKey :: y == x
  }

  /** The retry a NACK of the proxy would ask for. */
  function NextRung(s: Store, r: string, e: string, k: string): Retry
    requires e in s.meta
  {
    Retry(r, k, s.meta[e].version, Height(s, k) + 1)
  }

  /** Every retry an open stream still wants for the proxy is its next rung. */
  ghost predicate AllNext(s: Server, r: string, e: string, k: string)
    requires Lookup(s.store, r) == Some(e)
  {
    OnlyWanted(s, NextRung(s.store, r, e, k))
  }

  /** No open stream wants a retry for the proxy. */
  ghost predicate Unwanted(s: Server, k: string) {
    forall id, x | id in s.open && id in s.streams && Wants(s.streams[id], x) :: x.proxyKey != k
  }

  /** The step publishes a retry for the proxy. */
  predicate Publishes(s: Server, step: Step, k: string)
    requires Enabled(s, step)
  {
    && step.Fire? && step.id in s.open && !s.streams[step.id].closed && s.streams[step.id].retryPending
    && var x := s.streams[step.id].timers[step.timer];
      x.proxyKey == k && Bump(s.store, x.resource, k, x.base, x.attempt).Some?
  }

  /** Nothing outside the ladder moves the proxy's snapshot: its Engine is neither republished nor
      deleted, a bind only resumes the snapshot it has, its record is not evicted or forgotten, and
      its NACKs are about its Engine's resource. */
  ghost predicate Undisturbed(sha: string -> string, s: Server, step: Step, r: string, e: string, k: string)
    requires Enabled(s, step)
  {
    && (step.Publish? ==> EngineKey(step.snapshot) != e)
    && (step.Withdraw? ==> Key(step.namespace, step.engineName) != e)
    && (step.WatchBind? && s.streams[step.id].proxyKey == k ==>
      var plan := BindPlan(s.store, s.streams[step.id].pc.resource, k, s.streams[step.id].pc.version);
      plan.Install? ==> k in s.store.proxies && k in s.store.cache && plan.cached == s.store.cache[k])
    && (step.NackRead? && Located(sha, s.streams[step.id], step.engineKey).proxyKey == k ==> step.resource == r)
    && (k in s.store.proxies ==> k in Apply(sha, s, step).store.proxies)
  }

  /** No other stream wants a retry for the proxy, and no NACK of this one is between its version
      read and its claim. */
  ghost predicate Sole(s: Server, id: nat, k: string) {
    && (forall o, x | o in s.open && o in s.streams && o != id && Wants(s.streams[o], x) :: x.proxyKey != k)
    && (id in s.streams && s.streams[id].pc.Claiming? ==> s.streams[id].pc.retry.proxyKey != k)
  }

  ghost predicate Climbing(s: Server, r: string, e: string, k: string) {
    && Ladder(s.store, r, e, k) && AllKeyed(s.streams) && Retries(s) && AllNext(s, r, e, k)
  }

  lemma FireKeeps(sha: string -> string, s: Server, step: Step, k: string)
    requires Enabled(s, step) && step.Fire? && !Publishes(s, step, k)
    requires k in s.store.proxies ==> k in s.store.cache
    ensures KeptOrGone(s.store, Apply(sha, s, step).store, k)
  {
    var x := s.streams[step.id].timers[step.timer];
    if x.proxyKey != k { RetriedKeeps(s.store, x, k); }
    assert Apply(sha, s, step).store in {s.store, Retried(s.store, x)};
  }

  lemma StreamKeeps(sha: string -> string, s: Server, step: Step, k: string)
    requires Enabled(s, step) && OfStream(step) && !Publishes(s, step, k)
    requires k in s.store.proxies ==> k in s.store.cache
    requires step.WatchBind? && s.streams[step.id].proxyKey == k ==>
      var plan := BindPlan(s.store, s.streams[step.id].pc.resource, k, s.streams[step.id].pc.version);
      plan.Install? ==> k in s.store.proxies && k in s.store.cache && plan.cached == s.store.cache[k]
    ensures KeptOrGone(s.store, Apply(sha, s, step).store, k)
  {
    if step.WatchStart? { ReleaseKeeps(s.store, s.streams[step.id].proxyKey, k); }
    else if step.CloseRelease? && s.streams[step.id].pc.held.Some? {
      ReleaseKeeps(s.store, s.streams[step.id].pc.held.value, k);
    }
    else if step.WatchBind? {
      BindKeeps(s.store, s.streams[step.id].pc.resource, s.streams[step.id].proxyKey, s.streams[step.id].pc.version, k);
    }
    else if step.AckStore? { AckKeeps(s.store, s.streams[step.id].proxyKey, s.streams[step.id].pc.version, k); }
    else if step.Fire? { FireKeeps(sha, s, step, k); }
    else if !TouchesStore(step) { OthersKeepStore(sha, s, step); }
  }

  lemma KeptHeight(s: Store, s': Store, r: string, e: string, k: string)
    requires Ladder(s, r, e, k) && KeptOrGone(s, s', k) && Inv(s')
    requires Lookup(s', r) == Some(e) && s'.meta[e] == s.meta[e]
    requires k in s.proxies ==> k in s'.proxies
    ensures Ladder(s', r, e, k) && Height(s', k) == Height(s, k)
  {
  }

  /** Every other step keeps the proxy on its rung. */
  lemma QuietHeight(sha: string -> string, s: Server, step: Step, r: string, e: string, k: string)
    requires Enabled(s, step) && Lawful(step) && Ladder(s.store, r, e, k) && AllKeyed(s.streams)
    requires Undisturbed(sha, s, step, r, e, k) && !Publishes(s, step, k)
    ensures Ladder(Apply(sha, s, step).store, r, e, k) && Apply(sha, s, step).store.meta[e] == s.store.meta[e]
    ensures Height(Apply(sha, s, step).store, k) == Height(s.store, k)
  {
    StepInv(sha, s, step);
    if step.Publish? { OtherEngineKeeps(s.store, step.snapshot, r, e, k); }
    else if step.Withdraw? { OtherDeleteKeeps(s.store, step.namespace, step.engineName, r, e, k); }
    else {
      StreamStepInv(sha, s, step);
      StreamKeeps(sha, s, step, k);
    }
    KeptHeight(s.store, Apply(sha, s, step).store, r, e, k);
  }

  // ----- What is wanted after a step -----

  /** The retry a NACK asks for. */
  function Asked(sha: string -> string, s: Server, step: Step): Retry
    requires Enabled(s, step) && step.NackRead?
  {
    var k := Located(sha, s.streams[step.id], step.engineKey).proxyKey;
    var v := NackedVersion(s.store, step.resource, k, step.rejected);
    Retry(step.resource, k, RetryBase(v), RetryAttempt(v) + 1)
  }

  lemma ReadWants(sha: string -> string, s: Server, step: Step, x: Retry)
    requires Enabled(s, step) && step.NackRead? && Wants(Apply(sha, s, step).streams[step.id], x)
    ensures Wants(s.streams[step.id], x) || x == Asked(sha, s, step)
  {
  }

  lemma TimerWants(sha: string -> string, s: Server, step: Step, x: Retry)
    requires Enabled(s, step) && (step.Fire? || step.NackArm?) && Wants(Apply(sha, s, step).streams[step.id], x)
    ensures Wants(s.streams[step.id], x)
  {
  }

  lemma WantsMoved(sha: string -> string, s: Server, step: Step, x: Retry)
    requires Enabled(s, step) && OfStream(step) && Wants(Apply(sha, s, step).streams[step.id], x)
    ensures step.id in s.streams
    ensures Wants(s.streams[step.id], x) || (step.NackRead? && x == Asked(sha, s, step))
  {
    if step.NackRead? { ReadWants(sha, s, step, x); }
    else if step.Fire? || step.NackArm? { TimerWants(sha, s, step, x); }
  }

  lemma OpenMoved(sha: string -> string, s: Server, step: Step, id: nat)
    requires Enabled(s, step) && id in Apply(sha, s, step).open
    ensures id in s.open || (step.Open? && step.id == id)
  {
    if OfStream(step) { MovedOpen(sha, s, step); }
  }

  lemma NextAgain(sha: string -> string, s: Server, step: Step, r: string, e: string, k: string, id: nat, x: Retry)
    requires Enabled(s, step) && Climbing(s, r, e, k) && Undisturbed(sha, s, step, r, e, k)
    requires var s' := Apply(sha, s, step);
      id in s'.open && id in s'.streams && Wants(s'.streams[id], x) && x.proxyKey == k
    ensures x == NextRung(s.store, r, e, k)
  {
    Local(sha, s, step);
    OpenMoved(sha, s, step, id);
    if OfStream(step) && step.id == id { WantsMoved(sha, s, step, x); }
    if id in s.streams && Wants(s.streams[id], x) {
      assert x == NextRung(s.store, r, e, k);
    } else {
      LadderVersion(s.store, r, e, k);
    }
  }

  /** One step of the climb: a published retry raises the attempt by exactly one, any other step
      leaves it, and what is wanted next is again the next rung. */
  lemma ClimbStep(sha: string -> string, s: Server, step: Step, r: string, e: string, k: string)
    requires Enabled(s, step) && Lawful(step) && Climbing(s, r, e, k)
    requires Undisturbed(sha, s, step, r, e, k) && (Publishes(s, step, k) ==> Sole(s, step.id, k))
    requires Height(s.store, k) < MAX_INT
    ensures Climbing(Apply(sha, s, step), r, e, k)
    ensures Height(Apply(sha, s, step).store, k) == Height(s.store, k) + if Publishes(s, step, k) then 1 else 0
  {
    StepKeyed(sha, s, step);
    StepRetries(sha, s, step);
    if Publishes(s, step, k) {
      SoleIsUnwanted(sha, s, step, k);
      ClimbPublish(sha, s, step, r, e, k);
    } else {
      ClimbQuiet(sha, s, step, r, e, k);
    }
  }

  lemma ClimbQuiet(sha: string -> string, s: Server, step: Step, r: string, e: string, k: string)
    requires Enabled(s, step) && Lawful(step) && Climbing(s, r, e, k)
    requires Undisturbed(sha, s, step, r, e, k) && !Publishes(s, step, k)
    ensures Ladder(Apply(sha, s, step).store, r, e, k) && AllNext(Apply(sha, s, step), r, e, k)
    ensures Height(Apply(sha, s, step).store, k) == Height(s.store, k)
  {
    QuietHeight(sha, s, step, r, e, k);
    StillWanted(sha, s, step, r, e, k);
  }

  lemma StillWanted(sha: string -> string, s: Server, step: Step, r: string, e: string, k: string)
    requires Enabled(s, step) && Climbing(s, r, e, k) && Undisturbed(sha, s, step, r, e, k)
    ensures OnlyWanted(Apply(sha, s, step), NextRung(s.store, r, e, k))
  {
    var s' := Apply(sha, s, step);
    forall id, x | id in s'.open && id in s'.streams && Wants(s'.streams[id], x) && x.proxyKey == k
      ensures x == NextRung(s.store, r, e, k)
    {
      NextAgain(sha, s, step, r, e, k, id, x);
    }
  }

  /** A published retry leaves none wanted for the proxy exactly when it was the sole one. */
  lemma SoleIsUnwanted(sha: string -> string, s: Server, step: Step, k: string)
    requires Enabled(s, step) && Retries(s) && Publishes(s, step, k)
    ensures Sole(s, step.id, k) <==> Unwanted(Apply(sha, s, step), k)
  {
    var s', t := Apply(sha, s, step), s.streams[step.id];
    Local(sha, s, step);
    assert OneRetry(t) && |t.timers| == 1;
    assert s'.streams[step.id].timers == [] && s'.streams[step.id].pc == t.pc && s'.open == s.open;
    if Sole(s, step.id, k) {
      forall o, x | o in s'.open && o in s'.streams && Wants(s'.streams[o], x) ensures x.proxyKey != k {
      }
    }
    if Unwanted(s', k) {
      forall o, x | o in s.open && o in s.streams && o != step.id && Wants(s.streams[o], x) ensures x.proxyKey != k {
        assert s'.streams[o] == s.streams[o];
      }
      if t.pc.Claiming? { assert Wants(s'.streams[step.id], t.pc.retry); }
    }
  }

  lemma ClimbPublish(sha: string -> string, s: Server, step: Step, r: string, e: string, k: string)
    requires Enabled(s, step) && Climbing(s, r, e, k) && Publishes(s, step, k) && Height(s.store, k) < MAX_INT
    requires Unwanted(Apply(sha, s, step), k)
    ensures Ladder(Apply(sha, s, step).store, r, e, k) && AllNext(Apply(sha, s, step), r, e, k)
    ensures Height(Apply(sha, s, step).store, k) == Height(s.store, k) + 1
  {
    var x := s.streams[step.id].timers[step.timer];
    assert Wants(s.streams[step.id], x);
    PublishedHeight(s.store, x, r, e, k);
    assert Apply(sha, s, step).store == Retried(s.store, x);
  }

  // ----- Runs -----

  /** A lawful run in which nothing outside the ladder moves the proxy's snapshot. */
  ghost predicate Smooth(sha: string -> string, s: Server, steps: seq<Step>, r: string, e: string, k: string)
    requires Legal(sha, s, steps)
    decreases |steps|
  {
    steps == [] ||
    (Lawful(steps[0]) && Undisturbed(sha, s, steps[0], r, e, k)
     && Smooth(sha, Apply(sha, s, steps[0]), steps[1..], r, e, k))
  }

  /** Every retry published for the proxy is the sole one. */
  ghost predicate OneByOne(sha: string -> string, s: Server, steps: seq<Step>, k: string)
    requires Legal(sha, s, steps)
    decreases |steps|
  {
    steps == [] ||
    ((Publishes(s, steps[0], k) ==> Sole(s, steps[0].id, k)) && OneByOne(sha, Apply(sha, s, steps[0]), steps[1..], k))
  }

  ghost function Published(sha: string -> string, s: Server, steps: seq<Step>, k: string): nat
    requires Legal(sha, s, steps)
    decreases |steps|
  {
    if steps == [] then 0
    else (if Publishes(s, steps[0], k) then 1 else 0) + Published(sha, Apply(sha, s, steps[0]), steps[1..], k)
  }

  /** Along every undisturbed run whose retries come one by one the attempt rises by exactly one per
      published retry. */
  lemma {:induction false} Climb(sha: string -> string, s: Server, steps: seq<Step>, r: string, e: string, k: string)
    requires Legal(sha, s, steps) && Climbing(s, r, e, k) && Smooth(sha, s, steps, r, e, k)
    requires OneByOne(sha, s, steps, k)
    requires Height(s.store, k) + |steps| <= MAX_INT
    ensures Climbing(After(sha, s, steps), r, e, k)
    ensures Height(After(sha, s, steps).store, k) == Height(s.store, k) + Published(sha, s, steps, k)
    decreases |steps|
  {
    if steps != [] {
      ClimbStep(sha, s, steps[0], r, e, k);
      Climb(sha, Apply(sha, s, steps[0]), steps[1..], r, e, k);
    }
  }

  /** Every reachable state in which no stream wants a retry for the proxy starts a climb. */
  lemma ClimbStarts(sha: string -> string, steps: seq<Step>, r: string, e: string, k: string)
    requires Legal(sha, START, steps) && forall step | step in steps :: Lawful(step)
    requires var s := After(sha, START, steps);
      && Lookup(s.store, r) == Some(e) && IsProxyKey(k) && Unwanted(s, k)
      && (k in s.store.proxies ==> s.store.proxies[k].engineKey == e)
    ensures Climbing(After(sha, START, steps), r, e, k)
  {
    EmptyInv();
    RunInv(sha, START, steps);
    RunRetries(sha, START, steps);
  }
}
