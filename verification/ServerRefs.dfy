/** Reference counting across the stream callbacks and the store: a proxy's active count against
    the streams that hold its snapshot. */
module ServerRefs {
  import opened Strings
  import opened Names
  import opened StoreModel
  import opened Server

  /** The proxy key whose snapshot a stream holds: bound, or closing and not yet released. */
  function Held(t: Stream): Option<string> {
    if t.bound then Some(t.proxyKey)
    else match t.pc
      case Clearing(held) => held
      case Releasing(held) => held
      case _ => None
  }

  function Holders(streams: map<nat, Stream>, k: string): set<nat> {
    set id | id in streams && Held(streams[id]) == Some(k)
  }

  function Active(p: map<string, Proxy>, k: string): nat {
    if k in p then p[k].active else 0
  }

  /** A stream that is bound, or about to bind, knows its Engine and is not closing. */
  ghost predicate WellHeld(t: Stream) {
    && (t.bound ==> !t.pc.Clearing? && !t.pc.Releasing? && !t.pc.Binding?)
    && (t.bound || t.pc.Binding? ==> !t.closed && t.engineKey != "" && IsProxyKey(t.proxyKey))
  }

  ghost predicate NeverOver(s: Server) {
    forall k :: Active(s.store.proxies, k) <= |Holders(s.streams, k)|
  }

  ghost predicate Exact(s: Server) {
    forall k :: Active(s.store.proxies, k) == |Holders(s.streams, k)|
  }

  ghost predicate AllWellHeld(streams: map<nat, Stream>) {
    forall id | id in streams :: WellHeld(streams[id])
  }

  // ----- Counting -----

  function One(b: bool): nat { if b then 1 else 0 }

  lemma HoldersUpdate(streams: map<nat, Stream>, id: nat, t: Stream, k: string)
    ensures |Holders(streams[id := t], k)| ==
      |Holders(streams, k)| - One(id in streams && Held(streams[id]) == Some(k)) + One(Held(t) == Some(k))
  {
    var h, h' := Holders(streams, k), Holders(streams[id := t], k);
    if Held(t) == Some(k) {
      assert h' == h + {id};
    } else {
      assert h' == h - {id};
    }
  }

  // ----- What the store operations do to the counts -----

  lemma ReplaceActive(s: Store, m: Snapshot, k: string)
    ensures Active(Replace(s, m).proxies, k) == Active(s.proxies, k)
  {
  }

  lemma EvictActive(s: Store, e: string, k: string)
    ensures Active(Evict(s, e).proxies, k) == Active(s.proxies, k)
  {
  }

  lemma RetriedActive(s: Store, r: Retry, k: string)
    ensures Active(Retried(s, r).proxies, k) == Active(s.proxies, k)
  {
    var plan := BumpPlan(s, r.resource, r.proxyKey, r.base, r.attempt);
    if plan.Install? {
      EvictActive(Put(s, r.proxyKey, plan.proxy, plan.cached, plan.next), plan.proxy.engineKey, k);
    }
  }

  lemma AckActive(s: Store, proxyKey: string, version: string, k: string)
    ensures Active(Ack(s, proxyKey, version).proxies, k) == Active(s.proxies, k)
  {
  }

  lemma BindActive(s: Store, resource: string, proxyKey: string, version: string, k: string)
    ensures Active(Bind(s, resource, proxyKey, version).proxies, k) ==
      Active(s.proxies, k) + One(k == proxyKey && BindPlan(s, resource, proxyKey, version).Install?)
  {
  }

  lemma ReleaseActive(s: Store, proxyKey: string, k: string)
    ensures Active(Release(s, proxyKey).proxies, k) ==
      if k == proxyKey && Active(s.proxies, k) > 0 then Active(s.proxies, k) - 1 else Active(s.proxies, k)
  {
    if proxyKey in s.proxies {
      EvictActive(Released(s, proxyKey), s.proxies[proxyKey].engineKey, k);
    }
  }

  lemma DeleteActive(s: Store, namespace: string, name: string, k: string)
    ensures Active(Delete(s, namespace, name).proxies, k) ==
      if k in ProxiesOf(s.proxies, Key(namespace, name)) then 0 else Active(s.proxies, k)
  {
  }

  // ----- Steps -----

  /** The stream a step belongs to changes what it holds from was to now. */
  ghost predicate HoldChanges(s: Server, s': Server, id: nat, was: Option<string>, now: Option<string>) {
    && id in s.streams && Held(s.streams[id]) == was
    && id in s'.streams && Held(s'.streams[id]) == now
    && s'.streams == s.streams[id := s'.streams[id]]
  }

  lemma Rebalance(s: Server, s': Server, id: nat, was: Option<string>, now: Option<string>, k: string)
    requires HoldChanges(s, s', id, was, now)
    ensures |Holders(s'.streams, k)| == |Holders(s.streams, k)| - One(was == Some(k)) + One(now == Some(k))
  {
    HoldersUpdate(s.streams, id, s'.streams[id], k);
  }

  ghost predicate Balanced(s: Server, s': Server, k: string) {
    && (Active(s.store.proxies, k) <= |Holders(s.streams, k)| ==>
         Active(s'.store.proxies, k) <= |Holders(s'.streams, k)|)
    && (Active(s.store.proxies, k) == |Holders(s.streams, k)| ==>
         Active(s'.store.proxies, k) == |Holders(s'.streams, k)|)
  }

  lemma HolderCounts(streams: map<nat, Stream>, id: nat, k: string)
    requires id in streams && Held(streams[id]) == Some(k)
    ensures |Holders(streams, k)| > 0
  {
    assert id in Holders(streams, k);
  }

  lemma WatchStartBalanced(sha: string -> string, s: Server, step: Step, k: string)
    requires Enabled(s, step) && step.WatchStart? && AllWellHeld(s.streams)
    ensures Balanced(s, Apply(sha, s, step), k)
  {
    var s', t := Apply(sha, s, step), s.streams[step.id];
    var t' := s'.streams[step.id];
    assert s'.streams == s.streams[step.id := t'];
    Rebalance(s, s', step.id, Held(t), Held(t'), k);
    ReleaseActive(s.store, t.proxyKey, k);
    if Held(t) == Some(k) { HolderCounts(s.streams, step.id, k); }
  }

  lemma WatchBindBalanced(sha: string -> string, s: Server, step: Step, k: string)
    requires Enabled(s, step) && step.WatchBind? && AllWellHeld(s.streams)
    ensures Balanced(s, Apply(sha, s, step), k)
  {
    var s', t := Apply(sha, s, step), s.streams[step.id];
    var t' := s'.streams[step.id];
    assert s'.streams == s.streams[step.id := t'];
    Rebalance(s, s', step.id, Held(t), Held(t'), k);
    BindActive(s.store, t.pc.resource, t.proxyKey, t.pc.version, k);
  }

  lemma ReleaseBalanced(sha: string -> string, s: Server, step: Step, k: string)
    requires Enabled(s, step) && step.CloseRelease? && AllWellHeld(s.streams)
    ensures Balanced(s, Apply(sha, s, step), k)
  {
    var s', t := Apply(sha, s, step), s.streams[step.id];
    var t' := s'.streams[step.id];
    assert s'.streams == s.streams[step.id := t'];
    Rebalance(s, s', step.id, Held(t), Held(t'), k);
    if t.pc.held.Some? { ReleaseActive(s.store, t.pc.held.value, k); }
    if Held(t) == Some(k) { HolderCounts(s.streams, step.id, k); }
  }

  /** Steps of one stream that neither take nor give up a snapshot. */
  predicate Neutral(step: Step) {
    step.AckClear? || step.AckStore? || step.NackRead? || step.NackClaim? || step.NackTrack? || step.NackRecord?
    || step.NackArm? || step.Fire? || step.CloseMark? || step.CloseClear?
  }

  lemma NeutralMoved(sha: string -> string, s: Server, step: Step)
    requires Enabled(s, step) && Neutral(step) && AllWellHeld(s.streams)
    ensures Held(Apply(sha, s, step).streams[step.id]) == Held(s.streams[step.id])
  {
    assert WellHeld(s.streams[step.id]);
  }

  lemma NeutralHolds(sha: string -> string, s: Server, step: Step)
    requires Enabled(s, step) && Neutral(step) && AllWellHeld(s.streams)
    ensures HoldChanges(s, Apply(sha, s, step), step.id, Held(s.streams[step.id]), Held(s.streams[step.id]))
  {
    Local(sha, s, step);
    NeutralMoved(sha, s, step);
  }

  lemma NeutralActive(sha: string -> string, s: Server, step: Step, k: string)
    requires Enabled(s, step) && Neutral(step)
    ensures Active(Apply(sha, s, step).store.proxies, k) == Active(s.store.proxies, k)
  {
    var t := s.streams[step.id];
    if step.AckStore? {
      AckActive(s.store, t.proxyKey, t.pc.version, k);
    } else if step.Fire? {
      RetriedActive(s.store, t.timers[step.timer], k);
    }
  }

  lemma NeutralBalanced(sha: string -> string, s: Server, step: Step, k: string)
    requires Enabled(s, step) && Neutral(step) && AllWellHeld(s.streams)
    ensures Balanced(s, Apply(sha, s, step), k)
  {
    NeutralHolds(sha, s, step);
    NeutralActive(sha, s, step, k);
    var h := Held(s.streams[step.id]);
    Rebalance(s, Apply(sha, s, step), step.id, h, h, k);
  }

  lemma OutsideBalanced(sha: string -> string, s: Server, step: Step, k: string)
    requires Enabled(s, step) && (step.Open? || step.Publish?)
    ensures Balanced(s, Apply(sha, s, step), k)
  {
    if step.Open? {
      HoldersUpdate(s.streams, step.id, Apply(sha, s, step).streams[step.id], k);
    } else {
      ReplaceActive(s.store, step.snapshot, k);
    }
  }

  /** Every step but a withdrawal moves the count and the holders together. */
  lemma StepBalanced(sha: string -> string, s: Server, step: Step, k: string)
    requires Enabled(s, step) && !step.Withdraw? && AllWellHeld(s.streams)
    ensures Balanced(s, Apply(sha, s, step), k)
  {
    if step.Open? || step.Publish? { OutsideBalanced(sha, s, step, k); }
    else if step.WatchStart? { WatchStartBalanced(sha, s, step, k); }
    else if step.WatchBind? { WatchBindBalanced(sha, s, step, k); }
    else if step.CloseRelease? { ReleaseBalanced(sha, s, step, k); }
    else { NeutralBalanced(sha, s, step, k); }
  }

  // ----- Withdrawal -----

  /** No stream holds a retry snapshot of the Engine. */
  ghost predicate Quiet(s: Server, namespace: string, name: string) {
    forall k | k in ProxiesOf(s.store.proxies, Key(namespace, name)) :: Holders(s.streams, k) == {}
  }

  /** Deleting an Engine drops the counts of streams that still hold its snapshots, so the counts
      stay exact if and only if nobody holds one. */
  lemma WithdrawExactIff(sha: string -> string, s: Server, namespace: string, name: string)
    requires Exact(s)
    ensures Exact(Apply(sha, s, Withdraw(namespace, name))) <==> Quiet(s, namespace, name)
  {
    var s' := Apply(sha, s, Withdraw(namespace, name));
    forall k ensures Active(s'.store.proxies, k) ==
      if k in ProxiesOf(s.store.proxies, Key(namespace, name)) then 0 else Active(s.store.proxies, k)
    {
      DeleteActive(s.store, namespace, name, k);
    }
    if Quiet(s, namespace, name) {
      forall k ensures Active(s'.store.proxies, k) == |Holders(s'.streams, k)| {
        assert Active(s.store.proxies, k) == |Holders(s.streams, k)|;
      }
    } else {
      var k :| k in ProxiesOf(s.store.proxies, Key(namespace, name)) && Holders(s.streams, k) != {};
      assert Active(s'.store.proxies, k) == 0;
    }
  }

  lemma StepNeverOver(sha: string -> string, s: Server, step: Step)
    requires Enabled(s, step) && AllWellHeld(s.streams) && NeverOver(s)
    ensures NeverOver(Apply(sha, s, step))
  {
    forall k ensures Active(Apply(sha, s, step).store.proxies, k) <= |Holders(Apply(sha, s, step).streams, k)| {
      assert Active(s.store.proxies, k) <= |Holders(s.streams, k)|;
      if step.Withdraw? { DeleteActive(s.store, step.namespace, step.engineName, k); }
      else { StepBalanced(sha, s, step, k); }
    }
  }

  lemma StepExact(sha: string -> string, s: Server, step: Step)
    requires Enabled(s, step) && AllWellHeld(s.streams) && Exact(s)
    requires step.Withdraw? ==> Quiet(s, step.namespace, step.engineName)
    ensures Exact(Apply(sha, s, step))
  {
    if step.Withdraw? {
      WithdrawExactIff(sha, s, step.namespace, step.engineName);
    } else {
      forall k ensures Active(Apply(sha, s, step).store.proxies, k) == |Holders(Apply(sha, s, step).streams, k)| {
        assert Active(s.store.proxies, k) == |Holders(s.streams, k)|;
        StepBalanced(sha, s, step, k);
      }
    }
  }

  lemma MovedWellHeld(sha: string -> string, s: Server, step: Step)
    requires Enabled(s, step) && OfStream(step) && AllWellHeld(s.streams)
    ensures WellHeld(Apply(sha, s, step).streams[step.id])
  {
    if step.WatchStart? {
      var t := s.streams[step.id];
      ProxyKeyIsProxyKey(sha, step.engineKey, t.identityKey, t.uid, t.proxyId);
    }
    assert step.id in s.streams ==> WellHeld(s.streams[step.id]);
  }

  lemma UpdateWellHeld(streams: map<nat, Stream>, id: nat, t: Stream)
    requires AllWellHeld(streams) && WellHeld(t)
    ensures AllWellHeld(streams[id := t])
  {
  }

  lemma StepWellHeld(sha: string -> string, s: Server, step: Step)
    requires Enabled(s, step) && AllWellHeld(s.streams)
    ensures AllWellHeld(Apply(sha, s, step).streams)
  {
    Local(sha, s, step);
    if OfStream(step) {
      MovedWellHeld(sha, s, step);
      UpdateWellHeld(s.streams, step.id, Apply(sha, s, step).streams[step.id]);
    }
  }

  // ----- Runs -----

  lemma {:induction false} RunNeverOver(sha: string -> string, s: Server, steps: seq<Step>)
    requires Legal(sha, s, steps) && AllWellHeld(s.streams) && NeverOver(s)
    ensures NeverOver(After(sha, s, steps))
    decreases |steps|
  {
    if steps != [] {
      StepNeverOver(sha, s, steps[0]);
      StepWellHeld(sha, s, steps[0]);
      RunNeverOver(sha, Apply(sha, s, steps[0]), steps[1..]);
    }
  }

  /** In every run a proxy's count never exceeds the streams that hold its snapshot. */
  lemma ActiveNeverOver(sha: string -> string, steps: seq<Step>)
    requires Legal(sha, START, steps)
    ensures NeverOver(After(sha, START, steps))
  {
    RunNeverOver(sha, START, steps);
  }

  /** Runs that delete an Engine only while no stream holds one of its retry snapshots. */
  ghost predicate QuietRun(sha: string -> string, s: Server, steps: seq<Step>)
    requires Legal(sha, s, steps)
    decreases |steps|
  {
    steps == [] ||
    ((steps[0].Withdraw? ==> Quiet(s, steps[0].namespace, steps[0].engineName))
     && QuietRun(sha, Apply(sha, s, steps[0]), steps[1..]))
  }

  lemma {:induction false} NoWithdrawalIsQuiet(sha: string -> string, s: Server, steps: seq<Step>)
    requires Legal(sha, s, steps)
    requires forall step | step in steps :: !step.Withdraw?
    ensures QuietRun(sha, s, steps)
    decreases |steps|
  {
    if steps != [] {
      NoWithdrawalIsQuiet(sha, Apply(sha, s, steps[0]), steps[1..]);
    }
  }

  lemma {:induction false} RunExact(sha: string -> string, s: Server, steps: seq<Step>)
    requires Legal(sha, s, steps) && QuietRun(sha, s, steps)
    requires AllWellHeld(s.streams) && Exact(s)
    ensures Exact(After(sha, s, steps)) && AllWellHeld(After(sha, s, steps).streams)
    decreases |steps|
  {
    if steps != [] {
      StepExact(sha, s, steps[0]);
      StepWellHeld(sha, s, steps[0]);
      RunExact(sha, Apply(sha, s, steps[0]), steps[1..]);
    }
  }

  /** In every quiet run, in particular in every run without Engine deletion, a proxy's count is
      the number of streams that hold its snapshot. */
  lemma ActiveIsHolders(sha: string -> string, steps: seq<Step>)
    requires Legal(sha, START, steps) && QuietRun(sha, START, steps)
    ensures Exact(After(sha, START, steps))
  {
    RunExact(sha, START, steps);
  }

  function Bound(streams: map<nat, Stream>, k: string): set<nat> {
    set id | id in streams && streams[id].bound && streams[id].proxyKey == k
  }

  lemma IdleHolders(streams: map<nat, Stream>, k: string)
    requires AtBoundary(streams)
    ensures Holders(streams, k) == Bound(streams, k)
  {
    forall id | id in streams ensures Held(streams[id]) == Some(k) <==> streams[id].bound && streams[id].proxyKey == k {
      assert streams[id].pc.Idle?;
    }
  }

  /** Whenever no callback is under way the holders are the bound streams. */
  lemma ActiveIsBound(sha: string -> string, steps: seq<Step>, k: string)
    requires Legal(sha, START, steps) && QuietRun(sha, START, steps)
    requires AtBoundary(After(sha, START, steps).streams)
    ensures var s := After(sha, START, steps);
      Active(s.store.proxies, k) == |Bound(s.streams, k)|
  {
    ActiveIsHolders(sha, steps);
    var s := After(sha, START, steps);
    assert Active(s.store.proxies, k) == |Holders(s.streams, k)|;
    IdleHolders(s.streams, k);
  }

  /** So the proxy of a bound stream is tracked: no eviction, Replace or release by another stream
      has cleared its snapshot. */
  lemma BoundIsTracked(sha: string -> string, steps: seq<Step>, id: nat)
    requires Legal(sha, START, steps) && QuietRun(sha, START, steps)
    requires var s := After(sha, START, steps); id in s.streams && s.streams[id].bound
    ensures var s := After(sha, START, steps);
      s.streams[id].proxyKey in s.store.proxies && s.store.proxies[s.streams[id].proxyKey].active > 0
  {
    var s := After(sha, START, steps);
    ActiveIsHolders(sha, steps);
    HolderCounts(s.streams, id, s.streams[id].proxyKey);
    assert Active(s.store.proxies, s.streams[id].proxyKey) == |Holders(s.streams, s.streams[id].proxyKey)|;
  }
}
