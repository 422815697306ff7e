/** The store invariant over every run of the server, and what it means for a bound stream. */
module ServerStore {
  import opened Names
  import opened RetryVersion
  import opened StoreModel
  import opened StoreInvariant
  import opened Server
  import opened ServerRefs

  /** Every key a stream may hand to the store is a proxy key. */
  ghost predicate Keyed(t: Stream) {
    && (t.proxyKey == "" || IsProxyKey(t.proxyKey))
    && (t.pc.Binding? ==> IsProxyKey(t.proxyKey))
    && (t.pc.Claiming? || t.pc.Tracking? || t.pc.Recording? || t.pc.Arming? ==> IsProxyKey(t.pc.retry.proxyKey))
    && (forall i | 0 <= i < |t.timers| :: IsProxyKey(t.timers[i].proxyKey))
  }

  ghost predicate AllKeyed(streams: map<nat, Stream>) {
    forall id | id in streams :: Keyed(streams[id])
  }

  /** What the publication controller hands over: snapshots named by render.ResourceName with a
      digest as version, and Kubernetes names. */
  ghost predicate Lawful(step: Step) {
    && (step.Publish? ==> Publishable(step.snapshot))
    && (step.Withdraw? ==> '\0' !in step.namespace && '\0' !in step.engineName)
  }

  lemma LocatedKeyed(sha: string -> string, t: Stream, engineKey: string)
    requires Keyed(t)
    ensures Keyed(Located(sha, t, engineKey))
  {
    var e := if t.engineKey == "" then engineKey else t.engineKey;
    ProxyKeyIsProxyKey(sha, e, t.identityKey, t.uid, t.proxyId);
  }

  lemma NackKeyed(sha: string -> string, s: Server, step: Step)
    requires Enabled(s, step) && (step.NackRead? || step.WatchStart?) && Keyed(s.streams[step.id])
    ensures Keyed(Apply(sha, s, step).streams[step.id])
  {
    var t := s.streams[step.id];
    if step.NackRead? { LocatedKeyed(sha, t, step.engineKey); }
    else { ProxyKeyIsProxyKey(sha, step.engineKey, t.identityKey, t.uid, t.proxyId); }
  }

  lemma TimerKeyed(sha: string -> string, s: Server, step: Step)
    requires Enabled(s, step) && (step.Fire? || step.NackArm?) && Keyed(s.streams[step.id])
    ensures Keyed(Apply(sha, s, step).streams[step.id])
  {
    var t' := Apply(sha, s, step).streams[step.id];
    forall i | 0 <= i < |t'.timers| ensures IsProxyKey(t'.timers[i].proxyKey) {
    }
  }

  lemma MovedKeyed(sha: string -> string, s: Server, step: Step)
    requires Enabled(s, step) && OfStream(step) && (step.id in s.streams ==> Keyed(s.streams[step.id]))
    ensures Keyed(Apply(sha, s, step).streams[step.id])
  {
    if step.NackRead? || step.WatchStart? { NackKeyed(sha, s, step); }
    else if step.Fire? || step.NackArm? { TimerKeyed(sha, s, step); }
  }

  lemma StepKeyed(sha: string -> string, s: Server, step: Step)
    requires Enabled(s, step) && AllKeyed(s.streams)
    ensures AllKeyed(Apply(sha, s, step).streams)
  {
    Local(sha, s, step);
    if OfStream(step) { MovedKeyed(sha, s, step); }
  }

  lemma RetriedInv(store: Store, r: Retry)
    requires Inv(store) && IsProxyKey(r.proxyKey)
    ensures Inv(Retried(store, r)) && SharedUnchanged(store, Retried(store, r))
  {
    SharedRefl(store);
    if Bump(store, r.resource, r.proxyKey, r.base, r.attempt).Some? {
      BumpInv(store, r.resource, r.proxyKey, r.base, r.attempt);
    }
  }

  lemma ReleaseStepInv(sha: string -> string, s: Server, step: Step)
    requires Enabled(s, step) && (step.WatchStart? || step.CloseRelease?) && Inv(s.store)
    ensures Inv(Apply(sha, s, step).store) && SharedUnchanged(s.store, Apply(sha, s, step).store)
  {
    SharedRefl(s.store);
    if step.WatchStart? {
      ReleaseInv(s.store, s.streams[step.id].proxyKey);
    } else if s.streams[step.id].pc.held.Some? {
      ReleaseInv(s.store, s.streams[step.id].pc.held.value);
    }
  }

  lemma BindStepInv(sha: string -> string, s: Server, step: Step)
    requires Enabled(s, step) && step.WatchBind? && Inv(s.store) && Keyed(s.streams[step.id])
    ensures Inv(Apply(sha, s, step).store) && SharedUnchanged(s.store, Apply(sha, s, step).store)
  {
    var t := s.streams[step.id];
    BindInv(s.store, t.pc.resource, t.proxyKey, t.pc.version);
  }

  lemma AckStepInv(sha: string -> string, s: Server, step: Step)
    requires Enabled(s, step) && step.AckStore? && Inv(s.store)
    ensures Inv(Apply(sha, s, step).store) && SharedUnchanged(s.store, Apply(sha, s, step).store)
  {
    var t := s.streams[step.id];
    SharedRefl(s.store);
    AckInv(s.store, t.proxyKey, t.pc.version);
    assert Apply(sha, s, step).store in {s.store, Ack(s.store, t.proxyKey, t.pc.version)};
  }

  lemma FireStepInv(sha: string -> string, s: Server, step: Step)
    requires Enabled(s, step) && step.Fire? && Inv(s.store) && Keyed(s.streams[step.id])
    ensures Inv(Apply(sha, s, step).store) && SharedUnchanged(s.store, Apply(sha, s, step).store)
  {
    var r := s.streams[step.id].timers[step.timer];
    SharedRefl(s.store);
    RetriedInv(s.store, r);
    assert Apply(sha, s, step).store in {s.store, Retried(s.store, r)};
  }

  predicate TouchesStore(step: Step) {
    step.WatchStart? || step.CloseRelease? || step.WatchBind? || step.AckStore? || step.Fire? || !OfStream(step)
  }

  lemma OthersKeepStore(sha: string -> string, s: Server, step: Step)
    requires Enabled(s, step) && !TouchesStore(step)
    ensures Apply(sha, s, step).store == s.store
  {
  }

  /** A stream's step keeps the store invariant and never alters a shared Engine snapshot. */
  lemma StreamStepInv(sha: string -> string, s: Server, step: Step)
    requires Enabled(s, step) && OfStream(step) && Inv(s.store) && AllKeyed(s.streams)
    ensures Inv(Apply(sha, s, step).store) && SharedUnchanged(s.store, Apply(sha, s, step).store)
  {
    if step.WatchStart? || step.CloseRelease? { ReleaseStepInv(sha, s, step); }
    else if step.WatchBind? { BindStepInv(sha, s, step); }
    else if step.AckStore? { AckStepInv(sha, s, step); }
    else if step.Fire? { FireStepInv(sha, s, step); }
    else { OthersKeepStore(sha, s, step); SharedRefl(s.store); }
  }

  lemma StepInv(sha: string -> string, s: Server, step: Step)
    requires Enabled(s, step) && Lawful(step) && Inv(s.store) && AllKeyed(s.streams)
    ensures Inv(Apply(sha, s, step).store)
  {
    if step.Publish? { ReplaceInv(s.store, step.snapshot); }
    else if step.Withdraw? { DeleteInv(s.store, step.namespace, step.engineName); }
    else { StreamStepInv(sha, s, step); }
  }

  lemma {:induction false} RunInv(sha: string -> string, s: Server, steps: seq<Step>)
    requires Legal(sha, s, steps) && Inv(s.store) && AllKeyed(s.streams)
    requires forall step | step in steps :: Lawful(step)
    ensures Inv(After(sha, s, steps).store) && AllKeyed(After(sha, s, steps).streams)
    decreases |steps|
  {
    if steps != [] {
      StepInv(sha, s, steps[0]);
      StepKeyed(sha, s, steps[0]);
      RunInv(sha, Apply(sha, s, steps[0]), steps[1..]);
    }
  }

  lemma EmptyInv()
    ensures Inv(EMPTY)
  {
    forall e: string ensures Inactive(map[], e) == {} { }
  }

  /** The store invariant holds in every reachable state, with the bound on retained snapshots. */
  lemma ReachableInv(sha: string -> string, steps: seq<Step>)
    requires Legal(sha, START, steps)
    requires forall step | step in steps :: Lawful(step)
    ensures Inv(After(sha, START, steps).store)
  {
    EmptyInv();
    RunInv(sha, START, steps);
  }

  /** What a bound stream is served is there: while Engines are deleted only when nobody holds
      their snapshots, its proxy has a cached snapshot of its Engine's current version. */
  lemma BoundIsServed(sha: string -> string, steps: seq<Step>, id: nat)
    requires Legal(sha, START, steps) && QuietRun(sha, START, steps)
    requires forall step | step in steps :: Lawful(step)
    requires var s := After(sha, START, steps); id in s.streams && s.streams[id].bound
    ensures var s := After(sha, START, steps);
      var k := s.streams[id].proxyKey;
      && k in s.store.proxies && k in s.store.cache && s.store.proxies[k].engineKey in s.store.meta
      && RetryBase(s.store.cache[k].version) == s.store.meta[s.store.proxies[k].engineKey].version
  {
    BoundIsTracked(sha, steps, id);
    ReachableInv(sha, steps);
    TrackedBase(After(sha, START, steps).store, After(sha, START, steps).streams[id].proxyKey);
  }
}
