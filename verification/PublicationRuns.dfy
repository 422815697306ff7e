/** Leader and replica over whole runs. The leader accepts configurations; a replica reconciles with
    whatever it reads: any record the leader ever wrote for that Engine object, however stale, or
    none, and any RuleSet and inputs. Clears, edits and cache lag are all among those views. */
module PublicationRuns {
  import opened Strings
  import opened Names
  import opened ContentHash
  import opened DoubleCollect
  import opened Assembly
  import opened StoreModel
  import opened StoreInvariant
  import opened Publication
  import Render

  /** What provisionWasmDriver works on. */
  datatype Live = Live(engine: Render.Identity, ruleSetUid: string, inputs: Inputs, specFailurePolicy: string,
                       observability: bool, url: string, sha: string, crsVersion: string)

  /** One acceptance by the leader. */
  datatype Accept = Accept(live: Live, input: Render.EngineInput, artifact: Render.Artifact, record: Render.Record)

  datatype State = State(accepts: seq<Accept>, replica: Replica)

  datatype Step = LeaderAccept(live: Live) | Reconcile(namespace: string, name: string, view: View)

  const START := State([], FRESH)

  ghost function InputOf(c: Config, l: Live, content: Content): Render.EngineInput {
    Render.LeaderInput(c.build, l.engine, l.ruleSetUid, content, l.inputs.emptyRulesPolicy, l.specFailurePolicy,
                       l.observability, l.url, l.sha, l.crsVersion)
  }

  /** The acceptance, when the content assembles and fits and the configuration renders and fits. */
  ghost function Accepting(c: Config, l: Live): Option<Accept> {
    match Assembled(c.build.checks, l.inputs)
    case Built(content) =>
      if !c.contentFits(content) || !Render.FromResolver(c.build, l.sha, l.crsVersion) then None
      else (match Render.Render(c.build, InputOf(c, l, content))
        case Rendered(a) =>
          if !c.artifactFits(a) then None
          else
            var input := InputOf(c, l, content);
            Some(Accept(l, input, a,
              Render.RecordOf(c.build, a, l.ruleSetUid, input.contentHash, l.url, l.sha, input.failurePolicy)))
        case _ => None)
    case _ => None
  }

  /** What the leader accepts: content that assembles and fits, a module as resolved, and a rendering that
      fits. The record then has the content's hash and the resolved policies. */
  lemma AcceptsIff(c: Config, l: Live)
    ensures Accepting(c, l).Some? <==>
      && Assembled(c.build.checks, l.inputs).Built?
      && var content := Assembled(c.build.checks, l.inputs).content;
         && c.contentFits(content) && Render.FromResolver(c.build, l.sha, l.crsVersion)
         && var out := Render.Render(c.build, InputOf(c, l, content)); out.Rendered? && c.artifactFits(out.artifact)
    ensures Accepting(c, l).Some? ==>
      var a := Accepting(c, l).value;
      && a.live == l && a.record.ruleSetUid == l.ruleSetUid && a.record.url == l.url && a.record.sha == l.sha
      && a.record.contentHash == c.build.digest(Render.OfContent(DocOf(a.input.content)))
      && a.record.version == a.artifact.version && a.record.failurePolicy == a.artifact.failurePolicy
      && a.record.emptyRulesPolicy == (if l.inputs.emptyRulesPolicy == "Allow" then "Allow" else "Reject")
  {
  }

  ghost predicate Enabled(c: Config, s: State, step: Step) {
    match step
    case LeaderAccept(live) => Accepting(c, live).Some?
    case Reconcile(namespace, name, view) =>
      view.Accepted? ==>
        && view.engine.namespace == namespace && view.engine.name == name
        && exists i ::
          0 <= i < |s.accepts| && s.accepts[i].live.engine == view.engine && s.accepts[i].record == view.record
  }

  ghost function Apply(c: Config, s: State, step: Step): State
    requires Enabled(c, s, step)
  {
    match step
    case LeaderAccept(live) => s.(accepts := s.accepts + [Accepting(c, live).value])
    case Reconcile(namespace, name, view) => s.(replica := Reconciled(c, s.replica, namespace, name, view).0)
  }

  ghost predicate Legal(c: Config, s: State, steps: seq<Step>)
    decreases |steps|
  {
    steps == [] || (Enabled(c, s, steps[0]) && Legal(c, Apply(c, s, steps[0]), steps[1..]))
  }

  ghost function After(c: Config, s: State, steps: seq<Step>): State
    requires Legal(c, s, steps)
    decreases |steps|
  {
    if steps == [] then s else After(c, Apply(c, s, steps[0]), steps[1..])
  }

  // ----- One reconcile -----

  /** Whatever goes wrong in a reconstruction, the store keeps what it has. */
  lemma FailureKeepsStore(c: Config, s: Replica, namespace: string, name: string, view: View)
    ensures var r := Reconciled(c, s, namespace, name, view);
      r.1 != Published && r.1 != Forgotten ==> r.0.store == s.store
  {
  }

  /** A read failed for a reason that may pass. */
  predicate Passing(view: View)
    requires view.Accepted?
  {
    || view.ruleSet.Unreadable?
    || (view.ruleSet.Found? && view.ruleSet.uid == view.record.ruleSetUid
        && view.ruleSet.loaded.None? && view.ruleSet.transient)
  }

  /** The accepted RuleSet and its inputs were read. */
  predicate Readable(view: View)
    requires view.Accepted?
  {
    view.ruleSet.Found? && view.ruleSet.uid == view.record.ruleSetUid && view.ruleSet.loaded.Some?
  }

  /** When a reconcile ends how, and what it leaves alone. */
  lemma ReconcileOutcome(c: Config, s: Replica, namespace: string, name: string, view: View)
    ensures var (t, result) := Reconciled(c, s, namespace, name, view);
      var key := Key(namespace, name);
      && (result == Forgotten <==> !view.Accepted?)
      && (result == Retry <==> view.Accepted? && Passing(view))
      && (result in {Published, Coalesced} ==> view.Accepted? && Readable(view))
      && (view.Accepted? && !Passing(view) && !Readable(view) ==> result == Mismatched)
      && (result in {Retry, Coalesced} ==> t == s)
      && (result == Mismatched ==>
           && t.store == s.store && t.states.Keys == s.states.Keys + {key}
           && forall k | k in s.states :: t.states[k] == s.states[k])
      && (result == Forgotten ==> key !in t.store.meta && key !in t.states)
  {
  }

  /** What a replica rebuilds agrees with the record in every recorded respect: the content has the
      recorded hash, the RuleSet, module, policy and schema are the recorded ones. */
  lemma RebuiltAgrees(c: Config, engine: Render.Identity, record: Render.Record, uid: string, inputs: Inputs)
    requires Rebuilt(c, engine, record, uid, inputs).Some?
    ensures Assembled(c.build.checks, inputs).Built?
    ensures var a, content := Rebuilt(c, engine, record, uid, inputs).value, Assembled(c.build.checks, inputs).content;
      && c.contentFits(content) && c.artifactFits(a)
      && record.contentHash == c.build.digest(Render.OfContent(DocOf(content))) == a.contentHash
      && record.version == a.version && record.schema == 5 && record.ruleSetUid == uid
      && record.url == a.url && record.sha == a.sha && record.failurePolicy == a.failurePolicy
      && a.resourceName == ResourceName(engine.namespace, engine.name, engine.uid)
  {
  }

  lemma ReplacedIsCached(s: Store, m: Snapshot)
    requires Inv(s) && !IsProxyKey(EngineKey(m))
    ensures var t := Replace(s, m); EngineKey(m) in t.meta && t.meta[EngineKey(m)] == m && EngineKey(m) in t.cache
  {
  }

  /** What a published reconcile left is what the next one skips on. */
  lemma PublishedSkips(c: Config, s: Replica, namespace: string, name: string, view: View)
    requires Inv(s.store) && !IsProxyKey(Key(namespace, name))
    requires view.Accepted? && view.engine.namespace == namespace && view.engine.name == name
    requires Reconciled(c, s, namespace, name, view).1 == Published
    ensures Readable(view)
    ensures Skips(Reconciled(c, s, namespace, name, view).0, Key(namespace, name),
                  c.fingerprint(FingerprintOf(view.ruleSet.loaded.value)), view.record.version)
  {
    var inputs := view.ruleSet.loaded.value;
    var a := Rebuilt(c, view.engine, view.record, view.ruleSet.uid, inputs).value;
    RebuiltAgrees(c, view.engine, view.record, view.ruleSet.uid, inputs);
    ReplacedIsCached(s.store, SnapshotOf(view.engine, view.record, a));
  }

  lemma SkipsCoalesces(c: Config, s: Replica, namespace: string, name: string, view: View)
    requires view.Accepted? && Readable(view)
    requires Skips(s, Key(namespace, name),
                   c.fingerprint(FingerprintOf(view.ruleSet.loaded.value)), view.record.version)
    ensures Reconciled(c, s, namespace, name, view) == (s, Coalesced)
  {
  }

  /** Publishing is not repeated: the same reconcile right after it changes nothing. */
  lemma RepeatCoalesces(c: Config, s: Replica, namespace: string, name: string, view: View)
    requires Inv(s.store) && '\0' !in namespace && '\0' !in name
    requires view.Accepted? && view.engine.namespace == namespace && view.engine.name == name
    requires Reconciled(c, s, namespace, name, view).1 == Published
    ensures var t := Reconciled(c, s, namespace, name, view).0;
      Reconciled(c, t, namespace, name, view) == (t, Coalesced)
  {
    PublishedSkips(c, s, namespace, name, view);
    SkipsCoalesces(c, Reconciled(c, s, namespace, name, view).0, namespace, name, view);
  }

  /** What the store and the controller hold for one Engine: its snapshot, what its proxies are
      served, and what was remembered of its last publication. */
  ghost predicate SameFor(s: Store, t: Store, key: string) {
    && (key in t.meta <==> key in s.meta)
    && (key in s.meta ==>
         t.meta[key] == s.meta[key] && key in s.cache && key in t.cache && t.cache[key] == s.cache[key])
    && ProxiesOf(t.proxies, key) == ProxiesOf(s.proxies, key)
    && forall p | p in ProxiesOf(s.proxies, key) ::
         t.proxies[p] == s.proxies[p] && p in s.cache && p in t.cache && t.cache[p] == s.cache[p]
  }

  ghost predicate Untouched(s: Replica, t: Replica, key: string) {
    && SameFor(s.store, t.store, key)
    && (key in t.states <==> key in s.states) && (key in s.states ==> t.states[key] == s.states[key])
  }

  lemma ReplaceSameFor(s: Store, m: Snapshot, key: string)
    requires Inv(s) && !IsProxyKey(EngineKey(m)) && key != EngineKey(m)
    ensures SameFor(s, Replace(s, m), key)
  {
    KeysDisjoint(s.meta, s.proxies, s.cache);
    var t := Replace(s, m);
    forall p | p in ProxiesOf(s.proxies, key) ensures p in t.proxies && t.proxies[p] == s.proxies[p] && p in t.cache {
      assert IsProxyKey(p);
    }
    assert ProxiesOf(t.proxies, key) == ProxiesOf(s.proxies, key);
  }

  lemma DeleteSameFor(s: Store, namespace: string, name: string, key: string)
    requires Inv(s) && !IsProxyKey(Key(namespace, name)) && key != Key(namespace, name)
    ensures SameFor(s, Delete(s, namespace, name), key)
  {
    KeysDisjoint(s.meta, s.proxies, s.cache);
    var t := Delete(s, namespace, name);
    forall p | p in ProxiesOf(s.proxies, key) ensures p in t.proxies && t.proxies[p] == s.proxies[p] && p in t.cache {
      assert IsProxyKey(p);
    }
    assert ProxiesOf(t.proxies, key) == ProxiesOf(s.proxies, key);
  }

  lemma KeptSameFor(s: Store, key: string)
    requires Inv(s)
    ensures SameFor(s, s, key)
  {
  }

  lemma StatesSameFor(c: Config, s: Replica, namespace: string, name: string, view: View, key: string)
    requires key != Key(namespace, name)
    ensures var t := Reconciled(c, s, namespace, name, view).0;
      (key in t.states <==> key in s.states) && (key in s.states ==> t.states[key] == s.states[key])
  {
  }

  lemma StoreSameFor(c: Config, s: Replica, namespace: string, name: string, view: View, key: string)
    requires Inv(s.store) && !IsProxyKey(Key(namespace, name)) && key != Key(namespace, name)
    requires view.Accepted? ==> view.engine.namespace == namespace && view.engine.name == name
    ensures SameFor(s.store, Reconciled(c, s, namespace, name, view).0.store, key)
  {
    var result := Reconciled(c, s, namespace, name, view).1;
    if result == Published {
      PublishedStore(c, s, namespace, name, view);
      var a := Rebuilt(c, view.engine, view.record, view.ruleSet.uid, view.ruleSet.loaded.value).value;
      ReplaceSameFor(s.store, SnapshotOf(view.engine, view.record, a), key);
    } else if result == Forgotten {
      ForgottenStore(c, s, namespace, name, view);
      DeleteSameFor(s.store, namespace, name, key);
    } else {
      FailureKeepsStore(c, s, namespace, name, view);
      KeptSameFor(s.store, key);
    }
  }

  /** Whatever a reconcile of one Engine does, publish, forget or fail, every other Engine keeps its
      snapshot, its proxies, what they are served, and its remembered fingerprint. */
  lemma OthersUntouched(c: Config, s: Replica, namespace: string, name: string, view: View,
                        otherNamespace: string, otherName: string)
    requires Inv(s.store) && '/' !in namespace && '/' !in otherNamespace && '\0' !in namespace && '\0' !in name
    requires view.Accepted? ==> view.engine.namespace == namespace && view.engine.name == name
    requires (otherNamespace, otherName) != (namespace, name)
    ensures Untouched(s, Reconciled(c, s, namespace, name, view).0, Key(otherNamespace, otherName))
  {
    var key, other := Key(namespace, name), Key(otherNamespace, otherName);
    if key == other { KeyInjective(namespace, name, otherNamespace, otherName); }
    StatesSameFor(c, s, namespace, name, view, other);
    StoreSameFor(c, s, namespace, name, view, other);
  }

  /** A replica that reads the inputs the leader accepted rebuilds exactly the leader's artifact. */
  lemma RebuildsAccepted(c: Config, l: Live)
    requires Render.Sane(c.build) && Accepting(c, l).Some?
    ensures var a := Accepting(c, l).value; Rebuilt(c, l.engine, a.record, l.ruleSetUid, l.inputs) == Some(a.artifact)
  {
    var content := Assembled(c.build.checks, l.inputs).content;
    Render.RoundTrip(c.build, l.engine, l.ruleSetUid, content, l.inputs.emptyRulesPolicy, l.specFailurePolicy,
                     l.observability, l.url, l.sha, l.crsVersion);
  }

  /** Then, whatever it published before, the replica's store holds the accepted version. */
  lemma AcceptedIsPublished(c: Config, l: Live, s: Replica)
    requires Render.Sane(c.build) && Accepting(c, l).Some?
    ensures var a := Accepting(c, l).value;
      var key := Key(l.engine.namespace, l.engine.name);
      var view := View.Accepted(l.engine, a.record, Found(l.ruleSetUid, Some(l.inputs), false));
      var r := Reconciled(c, s, l.engine.namespace, l.engine.name, view);
      && (r.1 == Published || r.1 == Coalesced)
      && key in r.0.store.meta && r.0.store.meta[key].version == a.record.version
      && (r.1 == Published ==> r.0.store.meta[key].resource == a.artifact.resource)
  {
    RebuildsAccepted(c, l);
  }

  // ----- Runs -----

  ghost predicate Genuine(c: Config, a: Accept) { Accepting(c, a.live) == Some(a) }

  /** The resource is a plugin with the record's module and VM that is fail-open exactly for a record with
      policy allow. */
  ghost predicate Plugged(b: Render.Build, record: Render.Record, resource: Resource) {
    exists plugin :: PluggedBy(b, record, resource, plugin)
  }

  predicate PluggedBy(b: Render.Build, record: Render.Record, resource: Resource, plugin: Render.Plugin) {
    && resource.config == b.pack(plugin) && resource.vm == Some(record.vmId)
    && (plugin.failOpen <==> record.failurePolicy == "allow")
    && plugin.url == record.url && plugin.sha == record.sha && plugin.runtime == record.runtime
  }

  /** The stored snapshot carries a version the leader recorded for that Engine object and, with a
      collision-free digest, is the snapshot of exactly what the leader rendered. */
  ghost predicate Vouched(c: Config, a: Accept, m: Snapshot) {
    && a.live.engine == Render.Identity(m.namespace, m.engineName, m.uid)
    && m.version == a.record.version && m.ruleSetHash == a.record.contentHash
    && m.resourceName == ResourceName(m.namespace, m.engineName, m.uid)
    && Plugged(c.build, a.record, m.resource)
    && (Render.CollisionFree(c.build) ==> m == SnapshotOf(a.live.engine, a.record, a.artifact))
  }

  ghost predicate AnyVouches(c: Config, accepts: seq<Accept>, m: Snapshot) {
    exists i :: 0 <= i < |accepts| && Vouched(c, accepts[i], m)
  }

  ghost predicate AllGenuine(c: Config, accepts: seq<Accept>) {
    forall i | 0 <= i < |accepts| :: Genuine(c, accepts[i])
  }

  ghost predicate AllVouched(c: Config, accepts: seq<Accept>, meta: map<string, Snapshot>) {
    forall k | k in meta :: k == EngineKey(meta[k]) && AnyVouches(c, accepts, meta[k])
  }

  ghost predicate Safe(c: Config, s: State) {
    AllGenuine(c, s.accepts) && AllVouched(c, s.accepts, s.replica.store.meta)
  }

  lemma AcceptGenuine(c: Config, l: Live)
    requires Accepting(c, l).Some?
    ensures Genuine(c, Accepting(c, l).value)
  {
  }

  /** A rebuilt artifact is vouched for by the acceptance whose record it was rebuilt from. */
  lemma RebuiltVouched(c: Config, a: Accept, uid: string, inputs: Inputs)
    requires Render.Sane(c.build) && Genuine(c, a)
    requires Rebuilt(c, a.live.engine, a.record, uid, inputs).Some?
    ensures Vouched(c, a, SnapshotOf(a.live.engine, a.record, Rebuilt(c, a.live.engine, a.record, uid, inputs).value))
  {
    var content := Assembled(c.build.checks, inputs).content;
    var input := Render.ReplicaInput(c.build, a.live.engine, uid, content, a.record).value;
    var plugin, doc := Render.RenderedServes(c.build, input);
    var built := Rebuilt(c, a.live.engine, a.record, uid, inputs).value;
    assert PluggedBy(c.build, a.record, built.resource, plugin);
    if Render.CollisionFree(c.build) {
      Render.VersionBindsResource(c.build, input, a.input);
    }
  }

  lemma StillVouched(c: Config, accepts: seq<Accept>, a: Accept, m: Snapshot)
    requires AnyVouches(c, accepts, m)
    ensures AnyVouches(c, accepts + [a], m)
  {
    var i :| 0 <= i < |accepts| && Vouched(c, accepts[i], m);
    assert (accepts + [a])[i] == accepts[i];
  }

  lemma AppendSafe(c: Config, accepts: seq<Accept>, a: Accept, meta: map<string, Snapshot>)
    requires Genuine(c, a) && AllGenuine(c, accepts) && AllVouched(c, accepts, meta)
    ensures AllGenuine(c, accepts + [a]) && AllVouched(c, accepts + [a], meta)
  {
    forall k | k in meta ensures k == EngineKey(meta[k]) && AnyVouches(c, accepts + [a], meta[k]) {
      StillVouched(c, accepts, a, meta[k]);
    }
  }

  lemma AcceptSafe(c: Config, s: State, live: Live)
    requires Accepting(c, live).Some? && Safe(c, s)
    ensures Safe(c, Apply(c, s, LeaderAccept(live)))
  {
    AcceptGenuine(c, live);
    AppendSafe(c, s.accepts, Accepting(c, live).value, s.replica.store.meta);
  }

  lemma PublishSafe(c: Config, accepts: seq<Accept>, i: nat, store: Store, m: Snapshot)
    requires AllVouched(c, accepts, store.meta) && i < |accepts| && Vouched(c, accepts[i], m)
    ensures AllVouched(c, accepts, Replace(store, m).meta)
  {
    assert AnyVouches(c, accepts, m);
  }

  /** A published reconcile replaced the Engine's snapshot by the rebuilt one. */
  lemma PublishedStore(c: Config, s: Replica, namespace: string, name: string, view: View)
    requires Reconciled(c, s, namespace, name, view).1 == Published
    ensures view.Accepted? && view.ruleSet.Found? && view.ruleSet.loaded.Some?
    ensures var a := Rebuilt(c, view.engine, view.record, view.ruleSet.uid, view.ruleSet.loaded.value);
      && a.Some?
      && Reconciled(c, s, namespace, name, view).0.store
         == Replace(s.store, SnapshotOf(view.engine, view.record, a.value))
  {
  }

  lemma ForgottenStore(c: Config, s: Replica, namespace: string, name: string, view: View)
    requires Reconciled(c, s, namespace, name, view).1 == Forgotten
    ensures Reconciled(c, s, namespace, name, view).0.store == Delete(s.store, namespace, name)
  {
  }

  lemma ForgetSafe(c: Config, accepts: seq<Accept>, store: Store, namespace: string, name: string)
    requires AllVouched(c, accepts, store.meta)
    ensures AllVouched(c, accepts, Delete(store, namespace, name).meta)
  {
  }

  lemma ReconcileVouched(c: Config, s: State, namespace: string, name: string, view: View)
    requires Render.Sane(c.build) && Enabled(c, s, Reconcile(namespace, name, view)) && Safe(c, s)
    ensures AllVouched(c, s.accepts, Reconciled(c, s.replica, namespace, name, view).0.store.meta)
  {
    var result := Reconciled(c, s.replica, namespace, name, view).1;
    FailureKeepsStore(c, s.replica, namespace, name, view);
    if result == Published {
      PublishedStore(c, s.replica, namespace, name, view);
      var i :| 0 <= i < |s.accepts| && s.accepts[i].live.engine == view.engine && s.accepts[i].record == view.record;
      RebuiltVouched(c, s.accepts[i], view.ruleSet.uid, view.ruleSet.loaded.value);
      var a := Rebuilt(c, view.engine, view.record, view.ruleSet.uid, view.ruleSet.loaded.value).value;
      PublishSafe(c, s.accepts, i, s.replica.store, SnapshotOf(view.engine, view.record, a));
    } else if result == Forgotten {
      ForgottenStore(c, s.replica, namespace, name, view);
      ForgetSafe(c, s.accepts, s.replica.store, namespace, name);
    }
  }

  lemma ReconcileSafe(c: Config, s: State, step: Step)
    requires Render.Sane(c.build) && Enabled(c, s, step) && step.Reconcile? && Safe(c, s)
    ensures Safe(c, Apply(c, s, step))
  {
    ReconcileVouched(c, s, step.namespace, step.name, step.view);
  }

  lemma {:induction false} RunSafe(c: Config, s: State, steps: seq<Step>)
    requires Render.Sane(c.build) && Legal(c, s, steps) && Safe(c, s)
    ensures Safe(c, After(c, s, steps))
    decreases |steps|
  {
    if steps != [] {
      if steps[0].LeaderAccept? { AcceptSafe(c, s, steps[0].live); } else { ReconcileSafe(c, s, steps[0]); }
      RunSafe(c, Apply(c, s, steps[0]), steps[1..]);
    }
  }

  /** Publication safety: in every run, every snapshot the replica stores carries a version the
      leader once recorded for that Engine object and, if the digest has no collisions, is the
      snapshot of what the leader rendered then. */
  lemma StoredWasAccepted(c: Config, steps: seq<Step>, k: string)
    requires Render.Sane(c.build) && Legal(c, START, steps) && k in After(c, START, steps).replica.store.meta
    ensures var s := After(c, START, steps);
      AnyVouches(c, s.accepts, s.replica.store.meta[k])
  {
    RunSafe(c, START, steps);
  }

  /** What the controller publishes meets the store's expectations. */
  lemma StoredIsPublishable(c: Config, steps: seq<Step>, k: string)
    requires Render.Sane(c.build) && Legal(c, START, steps) && k in After(c, START, steps).replica.store.meta
    requires var m := After(c, START, steps).replica.store.meta[k]; Wellformed(m.namespace, m.engineName, m.uid)
    ensures Publishable(After(c, START, steps).replica.store.meta[k])
  {
    RunSafe(c, START, steps);
    var s := After(c, START, steps);
    var i :| 0 <= i < |s.accepts| && Vouched(c, s.accepts[i], s.replica.store.meta[k]);
    assert Genuine(c, s.accepts[i]);
  }

  lemma RecordedPolicy(c: Config, a: Accept)
    requires Genuine(c, a)
    ensures a.record.failurePolicy == if a.live.specFailurePolicy == "" then "fail" else a.live.specFailurePolicy
  {
  }

  lemma VouchedPlugin(c: Config, a: Accept, m: Snapshot) returns (plugin: Render.Plugin)
    requires Genuine(c, a) && Vouched(c, a, m)
    ensures m.resource.config == c.build.pack(plugin)
    ensures plugin.failOpen <==> a.record.failurePolicy == "allow"
    ensures plugin.failOpen <==> a.live.specFailurePolicy == "allow"
  {
    plugin :| PluggedBy(c.build, a.record, m.resource, plugin);
    RecordedPolicy(c, a);
  }

  /** What fails open was accepted to: in every run the plugin of a stored snapshot is fail-open if and
      only if the record it was rebuilt from says allow, which is so if and only if the Engine did. */
  lemma StoredFailsAsAccepted(c: Config, steps: seq<Step>, k: string) returns (a: Accept, plugin: Render.Plugin)
    requires Render.Sane(c.build) && Legal(c, START, steps) && k in After(c, START, steps).replica.store.meta
    ensures a in After(c, START, steps).accepts
    ensures var m := After(c, START, steps).replica.store.meta[k];
      Vouched(c, a, m) && m.resource.config == c.build.pack(plugin)
    ensures plugin.failOpen <==> a.record.failurePolicy == "allow"
    ensures plugin.failOpen <==> a.live.specFailurePolicy == "allow"
  {
    RunSafe(c, START, steps);
    var s := After(c, START, steps);
    assert AnyVouches(c, s.accepts, s.replica.store.meta[k]);
    var i :| 0 <= i < |s.accepts| && Vouched(c, s.accepts[i], s.replica.store.meta[k]);
    a := s.accepts[i];
    assert Genuine(c, a);
    plugin := VouchedPlugin(c, a, s.replica.store.meta[k]);
  }
}
