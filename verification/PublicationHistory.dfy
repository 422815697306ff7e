/** Leader and replica against the history of the cluster they read. The leader's reads are the two
    passes of a double collect; a replica reads each object at some instant, however stale. */
module PublicationHistory {
  import opened Strings
  import opened Names
  import opened Cluster
  import opened DoubleCollect
  import opened Assembly
  import opened StoreModel
  import opened Publication
  import opened PublicationRuns
  import Render

  // ----- Identities determine inputs -----

  ghost predicate SourceSeen(h: seq<World>, namespace: string, x: SourceInput) {
    exists t :: SourceSeenAt(h, t, namespace, x)
  }

  ghost predicate SourceSeenAt(h: seq<World>, t: int, namespace: string, x: SourceInput) {
    var k := SourceKey(namespace, x.name);
    0 <= t < |h| && k in h[t] && h[t][k].spec.RuleSourceSpec? && x == SourceOf(x.name, h[t][k])
  }

  ghost predicate DataSeen(h: seq<World>, namespace: string, x: DataInput) {
    exists t :: DataSeenAt(h, t, namespace, x)
  }

  ghost predicate DataSeenAt(h: seq<World>, t: int, namespace: string, x: DataInput) {
    var k := DataKey(namespace, x.name);
    0 <= t < |h| && k in h[t] && h[t][k].spec.RuleDataSpec? && x == DataOf(x.name, h[t][k])
  }

  /** Every input object was read at some instant of the history, each at its own. */
  ghost predicate FromHistory(h: seq<World>, inputs: Inputs) {
    && (forall i | 0 <= i < |inputs.sources| :: SourceSeen(h, inputs.namespace, inputs.sources[i]))
    && (forall i | 0 <= i < |inputs.data| :: DataSeen(h, inputs.namespace, inputs.data[i]))
  }

  lemma OneSpec(h: seq<World>, k: ObjectKey, a: nat, b: nat)
    requires Evolves(h) && a < |h| && b < |h| && k in h[a] && k in h[b] && SameVersion(h[a][k], h[b][k])
    ensures h[a][k].spec == h[b][k].spec
  {
    if a <= b { SameSpec(h, k, a, b, b); } else { SameSpec(h, k, b, a, a); }
  }

  lemma OneSource(h: seq<World>, namespace: string, x: SourceInput, y: SourceInput)
    requires Evolves(h) && SourceSeen(h, namespace, x) && SourceSeen(h, namespace, y)
    requires x.name == y.name && x.uid == y.uid && x.generation == y.generation
    ensures x == y
  {
    var a :| SourceSeenAt(h, a, namespace, x);
    var b :| SourceSeenAt(h, b, namespace, y);
    OneSpec(h, SourceKey(namespace, x.name), a, b);
  }

  lemma OneData(h: seq<World>, namespace: string, x: DataInput, y: DataInput)
    requires Evolves(h) && DataSeen(h, namespace, x) && DataSeen(h, namespace, y)
    requires x.name == y.name && x.uid == y.uid && x.generation == y.generation
    ensures x == y
  {
    var a :| DataSeenAt(h, a, namespace, x);
    var b :| DataSeenAt(h, b, namespace, y);
    OneSpec(h, DataKey(namespace, x.name), a, b);
  }

  /** The fingerprint hashes identities only, yet inputs of one cluster with equal identities are
      equal, rules and files included. */
  lemma FingerprintBindsInputs(h: seq<World>, x: Inputs, y: Inputs)
    requires Evolves(h) && FromHistory(h, x) && FromHistory(h, y) && FingerprintOf(x) == FingerprintOf(y)
    ensures x == y
  {
    var d, e := FingerprintOf(x), FingerprintOf(y);
    assert |x.sources| == |d.sources| == |y.sources| && |x.data| == |d.data| == |y.data|;
    forall i | 0 <= i < |x.sources| ensures x.sources[i] == y.sources[i] {
      assert d.sources[i] == e.sources[i];
      OneSource(h, x.namespace, x.sources[i], y.sources[i]);
    }
    forall i | 0 <= i < |x.data| ensures x.data[i] == y.data[i] {
      assert d.data[i] == e.data[i];
      OneData(h, x.namespace, x.data[i], y.data[i]);
    }
  }

  // ----- A version determines its record -----

  /** Two acceptances of one version recorded the same for the same Engine object. */
  lemma OneRecord(c: Config, x: Accept, y: Accept)
    requires Render.CollisionFree(c.build) && Genuine(c, x) && Genuine(c, y) && x.record.version == y.record.version
    ensures x.live.engine == y.live.engine && x.record == y.record
  {
    var a, b := x.artifact, y.artifact;
    var v := Render.VersionOf(c.build, x.input, a.driverType, a.emptyRulesPolicy, a.failurePolicy, a.vm);
    var w := Render.VersionOf(c.build, y.input, b.driverType, b.emptyRulesPolicy, b.failurePolicy, b.vm);
    assert c.build.digest(Render.OfVersion(v)) == c.build.digest(Render.OfVersion(w));
    assert Render.OfVersion(v) == Render.OfVersion(w);
  }

  // ----- What backs a stored snapshot -----

  ghost predicate FingerprintFree(c: Config) {
    forall d, e :: c.fingerprint(d) == c.fingerprint(e) ==> d == e
  }

  /** The snapshot was rebuilt from acceptance i and these inputs, whose fingerprint is remembered. */
  ghost predicate BackedBy(c: Config, h: seq<World>, accepts: seq<Accept>, m: Snapshot, r: Remembered, i: nat,
                           inputs: Inputs)
  {
    && i < |accepts| && FromHistory(h, inputs)
    && var a := accepts[i];
       var built := Rebuilt(c, a.live.engine, a.record, a.record.ruleSetUid, inputs);
       && r == Remembered(c.fingerprint(FingerprintOf(inputs)), a.record.version)
       && built.Some? && m == SnapshotOf(a.live.engine, a.record, built.value)
  }

  ghost predicate Backed(c: Config, h: seq<World>, accepts: seq<Accept>, m: Snapshot, r: Remembered) {
    exists i: nat, inputs :: BackedBy(c, h, accepts, m, r, i, inputs)
  }

  ghost predicate AllBacked(c: Config, h: seq<World>, accepts: seq<Accept>, replica: Replica) {
    forall k | k in replica.store.meta ::
      k in replica.states && Backed(c, h, accepts, replica.store.meta[k], replica.states[k])
  }

  ghost predicate ViewFrom(h: seq<World>, view: View) {
    view.Accepted? && view.ruleSet.Found? && view.ruleSet.loaded.Some? ==> FromHistory(h, view.ruleSet.loaded.value)
  }

  /** The replica's reads of a run. */
  ghost predicate ReadsFrom(h: seq<World>, steps: seq<Step>) {
    forall i | 0 <= i < |steps| && steps[i].Reconcile? :: ViewFrom(h, steps[i].view)
  }

  lemma StillBacked(c: Config, h: seq<World>, accepts: seq<Accept>, a: Accept, m: Snapshot, r: Remembered)
    requires Backed(c, h, accepts, m, r)
    ensures Backed(c, h, accepts + [a], m, r)
  {
    var i: nat, inputs :| BackedBy(c, h, accepts, m, r, i, inputs);
    assert (accepts + [a])[i] == accepts[i];
    assert BackedBy(c, h, accepts + [a], m, r, i, inputs);
  }

  lemma AcceptBacked(c: Config, h: seq<World>, accepts: seq<Accept>, a: Accept, replica: Replica)
    requires AllBacked(c, h, accepts, replica)
    ensures AllBacked(c, h, accepts + [a], replica)
  {
    forall k | k in replica.store.meta ensures Backed(c, h, accepts + [a], replica.store.meta[k], replica.states[k]) {
      StillBacked(c, h, accepts, a, replica.store.meta[k], replica.states[k]);
    }
  }

  /** A reconcile that neither publishes nor forgets keeps the store and every remembered state. */
  lemma OthersKeep(c: Config, s: Replica, namespace: string, name: string, view: View)
    requires Reconciled(c, s, namespace, name, view).1 != Published
    requires Reconciled(c, s, namespace, name, view).1 != Forgotten
    ensures var t := Reconciled(c, s, namespace, name, view).0;
      t.store == s.store && forall k | k in s.states :: k in t.states && t.states[k] == s.states[k]
  {
  }

  /** What a published reconcile stored and remembered. */
  lemma PublishedBacks(c: Config, h: seq<World>, s: State, namespace: string, name: string, view: View)
    returns (m: Snapshot, r: Remembered)
    requires Enabled(c, s, Reconcile(namespace, name, view)) && ViewFrom(h, view)
    requires Reconciled(c, s.replica, namespace, name, view).1 == Published
    ensures Backed(c, h, s.accepts, m, r) && EngineKey(m) == Key(namespace, name)
    ensures Reconciled(c, s.replica, namespace, name, view).0
         == Replica(Replace(s.replica.store, m), s.replica.states[Key(namespace, name) := r])
  {
    var inputs := view.ruleSet.loaded.value;
    var i :| 0 <= i < |s.accepts| && s.accepts[i].live.engine == view.engine && s.accepts[i].record == view.record;
    m := SnapshotOf(view.engine, view.record, Rebuilt(c, view.engine, view.record, view.ruleSet.uid, inputs).value);
    r := Remembered(c.fingerprint(FingerprintOf(inputs)), view.record.version);
    assert BackedBy(c, h, s.accepts, m, r, i, inputs);
  }

  lemma PublishBacked(c: Config, h: seq<World>, accepts: seq<Accept>, s: Replica, m: Snapshot, r: Remembered)
    requires AllBacked(c, h, accepts, s) && Backed(c, h, accepts, m, r)
    ensures AllBacked(c, h, accepts, Replica(Replace(s.store, m), s.states[EngineKey(m) := r]))
  {
  }

  lemma ForgetBacked(c: Config, h: seq<World>, accepts: seq<Accept>, s: Replica, namespace: string, name: string)
    requires AllBacked(c, h, accepts, s)
    ensures AllBacked(c, h, accepts, Replica(Delete(s.store, namespace, name), s.states - {Key(namespace, name)}))
  {
  }

  lemma StepBacked(c: Config, h: seq<World>, s: State, step: Step)
    requires Enabled(c, s, step) && (step.Reconcile? ==> ViewFrom(h, step.view))
    requires AllBacked(c, h, s.accepts, s.replica)
    ensures var t := Apply(c, s, step); AllBacked(c, h, t.accepts, t.replica)
  {
    match step
    case LeaderAccept(live) => AcceptBacked(c, h, s.accepts, Accepting(c, live).value, s.replica);
    case Reconcile(namespace, name, view) =>
      var result := Reconciled(c, s.replica, namespace, name, view).1;
      if result == Published {
        var m, r := PublishedBacks(c, h, s, namespace, name, view);
        PublishBacked(c, h, s.accepts, s.replica, m, r);
      } else if result == Forgotten {
        ForgetBacked(c, h, s.accepts, s.replica, namespace, name);
      } else {
        OthersKeep(c, s.replica, namespace, name, view);
      }
  }

  lemma {:induction false} RunBacked(c: Config, h: seq<World>, s: State, steps: seq<Step>)
    requires Legal(c, s, steps) && ReadsFrom(h, steps) && AllBacked(c, h, s.accepts, s.replica)
    ensures var t := After(c, s, steps); AllBacked(c, h, t.accepts, t.replica)
    decreases |steps|
  {
    if steps != [] {
      StepBacked(c, h, s, steps[0]);
      RunBacked(c, h, Apply(c, s, steps[0]), steps[1..]);
    }
  }

  // ----- Skipping is sound -----

  /** A backed snapshot of the accepted version, remembered with the fingerprint of the inputs now
      read, is the snapshot a reconstruction from those inputs would give. */
  lemma SkipIsRebuilt(c: Config, h: seq<World>, accepts: seq<Accept>, m: Snapshot, r: Remembered, j: nat,
                      inputs: Inputs)
    requires Render.CollisionFree(c.build) && FingerprintFree(c) && Evolves(h) && AllGenuine(c, accepts)
    requires Backed(c, h, accepts, m, r) && j < |accepts| && FromHistory(h, inputs)
    requires r == Remembered(c.fingerprint(FingerprintOf(inputs)), accepts[j].record.version)
    ensures var a := accepts[j];
      var built := Rebuilt(c, a.live.engine, a.record, a.record.ruleSetUid, inputs);
      built.Some? && m == SnapshotOf(a.live.engine, a.record, built.value)
  {
    var i: nat, before :| BackedBy(c, h, accepts, m, r, i, before);
    FingerprintBindsInputs(h, before, inputs);
    OneRecord(c, accepts[i], accepts[j]);
  }

  /** What a skipped reconcile has seen. */
  lemma CoalescedSkips(c: Config, s: Replica, namespace: string, name: string, view: View)
    requires Reconciled(c, s, namespace, name, view).1 == Coalesced
    ensures view.Accepted? && view.ruleSet.Found? && view.ruleSet.loaded.Some?
    ensures view.ruleSet.uid == view.record.ruleSetUid
    ensures Skips(s, Key(namespace, name), c.fingerprint(FingerprintOf(view.ruleSet.loaded.value)), view.record.version)
    ensures Reconciled(c, s, namespace, name, view).0 == s
  {
  }

  ghost predicate Holds(c: Config, s: Replica, key: string, engine: Render.Identity, record: Render.Record, uid: string,
                        inputs: Inputs)
  {
    var built := Rebuilt(c, engine, record, uid, inputs);
    built.Some? && key in s.store.meta && s.store.meta[key] == SnapshotOf(engine, record, built.value)
  }

  lemma CoalescedState(c: Config, h: seq<World>, s: State, namespace: string, name: string, view: View)
    requires Render.CollisionFree(c.build) && FingerprintFree(c) && Evolves(h)
    requires AllGenuine(c, s.accepts) && AllBacked(c, h, s.accepts, s.replica) && ViewFrom(h, view)
    requires Enabled(c, s, Reconcile(namespace, name, view))
    requires Reconciled(c, s.replica, namespace, name, view).1 == Coalesced
    ensures view.Accepted? && view.ruleSet.Found? && view.ruleSet.loaded.Some?
    ensures Holds(c, s.replica, Key(namespace, name),
                  view.engine, view.record, view.ruleSet.uid, view.ruleSet.loaded.value)
  {
    var key := Key(namespace, name);
    CoalescedSkips(c, s.replica, namespace, name, view);
    var j :| 0 <= j < |s.accepts| && s.accepts[j].live.engine == view.engine && s.accepts[j].record == view.record;
    SkipIsRebuilt(c, h, s.accepts, s.replica.store.meta[key], s.replica.states[key], j, view.ruleSet.loaded.value);
  }

  /** A skipped reconcile hides nothing: in every run, with collision-free hashes, the
      reconstruction it skipped would have succeeded and the store holds exactly its result. */
  lemma CoalescedHolds(c: Config, h: seq<World>, steps: seq<Step>, namespace: string, name: string, view: View)
    requires Render.Sane(c.build) && Render.CollisionFree(c.build) && FingerprintFree(c) && Evolves(h)
    requires Legal(c, START, steps) && ReadsFrom(h, steps) && ViewFrom(h, view)
    requires Enabled(c, After(c, START, steps), Reconcile(namespace, name, view))
    requires Reconciled(c, After(c, START, steps).replica, namespace, name, view).1 == Coalesced
    ensures view.Accepted? && view.ruleSet.Found? && view.ruleSet.loaded.Some?
    ensures var s := After(c, START, steps).replica;
      && Reconciled(c, s, namespace, name, view).0 == s
      && Holds(c, s, Key(namespace, name), view.engine, view.record, view.ruleSet.uid, view.ruleSet.loaded.value)
  {
    RunSafe(c, START, steps);
    RunBacked(c, h, START, steps);
    CoalescedSkips(c, After(c, START, steps).replica, namespace, name, view);
    CoalescedState(c, h, After(c, START, steps), namespace, name, view);
  }

  /** The view of a replica that reads an acceptance as the leader made it. */
  function AsAccepted(a: Accept): View {
    View.Accepted(a.live.engine, a.record, Found(a.live.ruleSetUid, Some(a.live.inputs), false))
  }

  lemma PublishedHolds(c: Config, s: Replica, namespace: string, name: string, view: View)
    requires Reconciled(c, s, namespace, name, view).1 == Published
    requires view.Accepted? && view.engine.namespace == namespace && view.engine.name == name
    ensures view.ruleSet.Found? && view.ruleSet.loaded.Some?
    ensures Holds(c, Reconciled(c, s, namespace, name, view).0, Key(namespace, name),
                  view.engine, view.record, view.ruleSet.uid, view.ruleSet.loaded.value)
  {
    PublishedStore(c, s, namespace, name, view);
  }

  lemma AsAcceptedEnabled(c: Config, s: State, i: nat)
    requires i < |s.accepts|
    ensures var e := s.accepts[i].live.engine; Enabled(c, s, Reconcile(e.namespace, e.name, AsAccepted(s.accepts[i])))
  {
  }

  /** A replica that reads an accepted record and the inputs accepted with it ends with the leader's
      own snapshot in its store, published now or held already. */
  lemma AcceptedIsStored(c: Config, h: seq<World>, steps: seq<Step>, i: nat)
    requires Render.Sane(c.build) && Render.CollisionFree(c.build) && FingerprintFree(c) && Evolves(h)
    requires Legal(c, START, steps) && ReadsFrom(h, steps)
    requires i < |After(c, START, steps).accepts| && FromHistory(h, After(c, START, steps).accepts[i].live.inputs)
    ensures var s := After(c, START, steps);
      var a := s.accepts[i];
      var e := a.live.engine;
      var r := Reconciled(c, s.replica, e.namespace, e.name, AsAccepted(a));
      && Enabled(c, s, Reconcile(e.namespace, e.name, AsAccepted(a)))
      && (r.1 == Published || r.1 == Coalesced)
      && Key(e.namespace, e.name) in r.0.store.meta
      && r.0.store.meta[Key(e.namespace, e.name)] == SnapshotOf(e, a.record, a.artifact)
  {
    var s := After(c, START, steps);
    var a := s.accepts[i];
    var e := a.live.engine;
    assert Genuine(c, a) by { RunSafe(c, START, steps); }
    RebuildsAccepted(c, a.live);
    AcceptedIsPublished(c, a.live, s.replica);
    AsAcceptedEnabled(c, s, i);
    if Reconciled(c, s.replica, e.namespace, e.name, AsAccepted(a)).1 == Coalesced {
      CoalescedHolds(c, h, steps, e.namespace, e.name, AsAccepted(a));
    } else {
      PublishedHolds(c, s.replica, e.namespace, e.name, AsAccepted(a));
    }
  }

  // ----- Every acceptance belongs to one instant -----

  function EngineObject(namespace: string, name: string): ObjectKey { ObjectKey(EngineKind, namespace, name) }

  datatype BinaryRef = BinaryRef(url: string, sha: string, crsVersion: string)

  /** resolveBinaryRef: an explicit URL and digest, or the module bundled with the operator. */
  function ResolveBinary(b: Render.Build, bundled: string, spec: Spec): Option<BinaryRef>
    requires spec.EngineSpec?
  {
    if spec.url != "" && spec.sha != "" then Some(BinaryRef(spec.url, spec.sha, ""))
    else if spec.url == "" && spec.sha == "" && b.manifest.Some?
    then Some(BinaryRef(bundled, b.manifest.value.sha, b.manifest.value.crsVersion))
    else None
  }

  /** What an Engine of this spec is provisioned with. */
  function LiveOf(namespace: string, name: string, engine: Object, binary: BinaryRef, inputs: Inputs): Live
    requires engine.spec.EngineSpec?
  {
    Live(Render.Identity(namespace, name, engine.uid), inputs.ruleSetUid, inputs, engine.spec.failurePolicy,
         engine.spec.observability, binary.url, binary.sha, binary.crsVersion)
  }

  /** What a leader that could read the whole cluster at once would work on. */
  function LiveAt(b: Render.Build, bundled: string, w: World, namespace: string, name: string): Option<Live>
    requires Typed(w)
  {
    var k := EngineObject(namespace, name);
    if k !in w then None
    else
      var binary, inputs := ResolveBinary(b, bundled, w[k].spec), Atomic(w, namespace, w[k].spec.ruleSet);
      if binary.None? || inputs.None? then None
      else Some(LiveOf(namespace, name, w[k], binary.value, inputs.value))
  }

  /** When the leader read the Engine and the RuleSet, when its first pass was over, when the second,
      and the reads of both passes. */
  datatype Collect = Collect(te: nat, t0: nat, t: nat, hi: nat, s1: Reads, d1: Reads, r2: Reads, s2: Reads, d2: Reads)

  /** The first pass read l. */
  ghost predicate FirstPass(c: Config, bundled: string, h: seq<World>, p: Collect, l: Live) {
    var k := EngineObject(l.engine.namespace, l.engine.name);
    && p.te <= p.t0 <= p.t < |h| && k in h[p.te] && h[p.te][k].spec.EngineSpec?
    && var e := h[p.te][k];
       var q := RuleSetKey(l.engine.namespace, e.spec.ruleSet);
       && ResolveBinary(c.build, bundled, e.spec).Some?
       && l == LiveOf(l.engine.namespace, l.engine.name, e, ResolveBinary(c.build, bundled, e.spec).value, l.inputs)
       && q in h[p.t0] && h[p.t0][q].spec.RuleSetSpec?
       && var o := h[p.t0][q];
          && l.inputs == Gathered(l.engine.namespace, e.spec.ruleSet, o, l.inputs.sources, l.inputs.data)
          && Timely(h, p.s1, p.t0, p.t, |o.spec.sources|) && Timely(h, p.d1, p.t0, p.t, |o.spec.data|)
          && SourcesRead(h, p.s1, l.engine.namespace, o.spec.sources, l.inputs.sources)
          && DataRead(h, p.d1, l.engine.namespace, o.spec.data, l.inputs.data)
  }

  /** The second pass found everything unchanged. */
  ghost predicate SecondPass(c: Config, bundled: string, h: seq<World>, p: Collect, l: Live)
    requires FirstPass(c, bundled, h, p, l)
  {
    var e := h[p.te][EngineObject(l.engine.namespace, l.engine.name)];
    var q := RuleSetKey(l.engine.namespace, e.spec.ruleSet);
    var o := h[p.t0][q];
    && Timely(h, p.r2, p.t, p.hi, 2)
    && Timely(h, p.s2, p.t, p.hi, |o.spec.sources|) && Timely(h, p.d2, p.t, p.hi, |o.spec.data|)
    && Confirmed(h, p.r2, [Expected(EngineObject(l.engine.namespace, l.engine.name), e.uid, e.generation),
                           Expected(q, o.uid, o.generation)])
    && Confirmed(h, p.s2, ExpectedSources(l.engine.namespace, l.inputs.sources))
    && Confirmed(h, p.d2, ExpectedData(l.engine.namespace, l.inputs.data))
  }

  ghost predicate CollectedBy(c: Config, bundled: string, h: seq<World>, p: Collect, l: Live) {
    FirstPass(c, bundled, h, p, l) && SecondPass(c, bundled, h, p, l)
  }

  ghost predicate Collected(c: Config, bundled: string, h: seq<World>, l: Live) {
    exists p :: CollectedBy(c, bundled, h, p, l)
  }

  /** The leader accepts in this run only what it has collected twice. */
  ghost predicate AcceptsFrom(c: Config, bundled: string, h: seq<World>, steps: seq<Step>) {
    forall i | 0 <= i < |steps| && steps[i].LeaderAccept? :: Collected(c, bundled, h, steps[i].live)
  }

  /** Some instant of the history held exactly l. */
  ghost predicate HeldOnce(c: Config, bundled: string, h: seq<World>, l: Live) {
    exists t :: HeldAtOnce(c, bundled, h, t, l)
  }

  ghost predicate HeldAtOnce(c: Config, bundled: string, h: seq<World>, t: int, l: Live) {
    0 <= t < |h| && Typed(h[t]) && LiveAt(c.build, bundled, h[t], l.engine.namespace, l.engine.name) == Some(l)
  }

  lemma CollectedIsHeld(c: Config, bundled: string, h: seq<World>, l: Live)
    requires Observed(h) && Collected(c, bundled, h, l)
    ensures HeldOnce(c, bundled, h, l)
  {
    var p :| CollectedBy(c, bundled, h, p, l);
    var k := EngineObject(l.engine.namespace, l.engine.name);
    EngineHeldToo(h, p.te, p.t0, p.t, p.hi, k, l.engine.namespace, h[p.te][k].spec.ruleSet,
                  p.s1, p.d1, p.r2, p.s2, p.d2, l.inputs);
    assert HeldAtOnce(c, bundled, h, p.t, l);
  }

  /** What the leader collected is among what a replica may read later. */
  lemma CollectedIsSeen(c: Config, bundled: string, h: seq<World>, l: Live)
    requires Collected(c, bundled, h, l)
    ensures FromHistory(h, l.inputs)
  {
    var p :| CollectedBy(c, bundled, h, p, l);
    forall i | 0 <= i < |l.inputs.sources| ensures SourceSeen(h, l.inputs.namespace, l.inputs.sources[i]) {
      assert SourceSeenAt(h, p.s1.at[i], l.inputs.namespace, l.inputs.sources[i]);
    }
    forall i | 0 <= i < |l.inputs.data| ensures DataSeen(h, l.inputs.namespace, l.inputs.data[i]) {
      assert DataSeenAt(h, p.d1.at[i], l.inputs.namespace, l.inputs.data[i]);
    }
  }

  ghost predicate AllHeld(c: Config, bundled: string, h: seq<World>, accepts: seq<Accept>) {
    forall i | 0 <= i < |accepts| :: HeldOnce(c, bundled, h, accepts[i].live)
  }

  lemma {:induction false} RunHeld(c: Config, bundled: string, h: seq<World>, s: State, steps: seq<Step>)
    requires Observed(h) && Legal(c, s, steps) && AcceptsFrom(c, bundled, h, steps) && AllHeld(c, bundled, h, s.accepts)
    ensures AllHeld(c, bundled, h, After(c, s, steps).accepts)
    decreases |steps|
  {
    if steps != [] {
      if steps[0].LeaderAccept? { CollectedIsHeld(c, bundled, h, steps[0].live); }
      RunHeld(c, bundled, h, Apply(c, s, steps[0]), steps[1..]);
    }
  }

  /** From the cluster to the wire: in every run whose leader collects twice, whatever writers do
      meanwhile and however stale the replica reads, every snapshot the replica stores is the
      rendering of an Engine, a RuleSet and its inputs as the cluster held them at one instant. */
  lemma StoredWasHeld(c: Config, bundled: string, h: seq<World>, steps: seq<Step>, k: string) returns (t: nat)
    requires Render.Sane(c.build) && Render.CollisionFree(c.build) && Observed(h)
    requires Legal(c, START, steps) && AcceptsFrom(c, bundled, h, steps)
    requires k in After(c, START, steps).replica.store.meta
    ensures var m := After(c, START, steps).replica.store.meta[k];
      && t < |h| && Typed(h[t])
      && var live := LiveAt(c.build, bundled, h[t], m.namespace, m.engineName);
         && live.Some? && Accepting(c, live.value).Some?
         && var a := Accepting(c, live.value).value;
            m == SnapshotOf(live.value.engine, a.record, a.artifact)
  {
    var s := After(c, START, steps);
    var m := s.replica.store.meta[k];
    RunSafe(c, START, steps);
    RunHeld(c, bundled, h, START, steps);
    assert AnyVouches(c, s.accepts, m);
    var i :| 0 <= i < |s.accepts| && Vouched(c, s.accepts[i], m);
    assert Genuine(c, s.accepts[i]);
    assert HeldOnce(c, bundled, h, s.accepts[i].live);
    var u :| HeldAtOnce(c, bundled, h, u, s.accepts[i].live);
    t := u;
  }

  /** The document has the Engine, the logging choice, and the rules and files assembled from the inputs. */
  ghost predicate Serves(c: Config, e: Render.Identity, observability: bool, inputs: Inputs,
                         doc: Render.RuntimeConfig)
  {
    var out := Assembled(c.build.checks, inputs);
    && Render.Identity(doc.namespace, doc.engine, doc.uid) == e && doc.filterStateLogs == observability
    && out.Built? && doc.ruleData == out.content.files
    && doc.directives == map[doc.defaultDirectives := [out.content.rules]]
  }

  lemma AcceptedServes(c: Config, l: Live) returns (plugin: Render.Plugin, doc: Render.RuntimeConfig)
    requires Accepting(c, l).Some?
    ensures Accepting(c, l).value.artifact.resource
         == Resource(ResourceName(l.engine.namespace, l.engine.name, l.engine.uid), Some("coraza-" + l.engine.uid),
                     c.build.pack(plugin))
    ensures plugin.payload == c.build.envelope(doc) && Serves(c, l.engine, l.observability, l.inputs, doc)
    ensures plugin.url == l.url && plugin.sha == l.sha && (plugin.failOpen <==> l.specFailurePolicy == "allow")
  {
    plugin, doc := Render.RenderedServes(c.build, Accepting(c, l).value.input);
  }

  /** The plugin runs the Engine's own module, or the bundled one if the Engine names none, and fails open
      exactly if the Engine says allow. */
  predicate Wanted(b: Render.Build, bundled: string, spec: Spec, plugin: Render.Plugin)
    requires spec.EngineSpec?
  {
    && (plugin.failOpen <==> spec.failurePolicy == "allow")
    && if spec.url != "" then plugin.url == spec.url && plugin.sha == spec.sha
       else plugin.url == bundled && b.manifest.Some? && plugin.sha == b.manifest.value.sha
  }

  /** So what a proxy is served comes from one instant: the Engine, its module and its policies, and the
      rules and files assembled from the inputs, were all in the cluster then. */
  lemma ServedWasHeld(c: Config, bundled: string, h: seq<World>, steps: seq<Step>, k: string)
    returns (t: nat, plugin: Render.Plugin, doc: Render.RuntimeConfig)
    requires Render.Sane(c.build) && Render.CollisionFree(c.build) && Observed(h)
    requires Legal(c, START, steps) && AcceptsFrom(c, bundled, h, steps)
    requires k in After(c, START, steps).replica.store.meta
    ensures var m := After(c, START, steps).replica.store.meta[k];
      && m.resource == Resource(ResourceName(m.namespace, m.engineName, m.uid), Some("coraza-" + m.uid),
                                c.build.pack(plugin))
      && plugin.payload == c.build.envelope(doc)
      && t < |h| && Typed(h[t]) && EngineObject(m.namespace, m.engineName) in h[t]
      && var o := h[t][EngineObject(m.namespace, m.engineName)];
         && o.uid == m.uid && Wanted(c.build, bundled, o.spec, plugin)
         && Atomic(h[t], m.namespace, o.spec.ruleSet).Some?
         && Serves(c, Render.Identity(m.namespace, m.engineName, m.uid), o.spec.observability,
                   Atomic(h[t], m.namespace, o.spec.ruleSet).value, doc)
  {
    t := StoredWasHeld(c, bundled, h, steps, k);
    var m := After(c, START, steps).replica.store.meta[k];
    var live := LiveAt(c.build, bundled, h[t], m.namespace, m.engineName).value;
    plugin, doc := AcceptedServes(c, live);
  }
}
