/** Whose snapshot a stream uses: the one of its own proxy on the Engine it is about. */
module ServerKeys {
  import opened Strings
  import opened Names
  import opened RetryVersion
  import opened StoreModel
  import opened StoreInvariant
  import opened StoreLaws
  import opened Server

  /** A stream's proxy key is that of its Engine and its own identity, UID and proxy id. */
  ghost predicate OwnKey(sha: string -> string, t: Stream) {
    t.proxyKey != "" ==>
      t.engineKey != "" && t.proxyKey == ProxyKey(sha, t.engineKey, t.identityKey, t.uid, t.proxyId)
  }

  ghost predicate AllOwn(sha: string -> string, streams: map<nat, Stream>) {
    forall id | id in streams :: OwnKey(sha, streams[id])
  }

  lemma MovedOwn(sha: string -> string, s: Server, step: Step)
    requires Enabled(s, step) && OfStream(step) && (step.id in s.streams ==> OwnKey(sha, s.streams[step.id]))
    ensures OwnKey(sha, Apply(sha, s, step).streams[step.id])
  {
  }

  /** No step but Open says who a stream belongs to. */
  lemma MovedOwner(sha: string -> string, s: Server, step: Step)
    requires Enabled(s, step) && OfStream(step)
    ensures var t' := Apply(sha, s, step).streams[step.id];
      && (step.Open? ==> (t'.identityKey, t'.uid, t'.proxyId) == (step.identityKey, step.uid, step.proxyId))
      && (!step.Open? ==> var t := s.streams[step.id];
           (t'.identityKey, t'.uid, t'.proxyId) == (t.identityKey, t.uid, t.proxyId))
  {
  }

  lemma StepOwn(sha: string -> string, s: Server, step: Step)
    requires Enabled(s, step) && AllOwn(sha, s.streams)
    ensures AllOwn(sha, Apply(sha, s, step).streams)
  {
    Local(sha, s, step);
    if OfStream(step) { MovedOwn(sha, s, step); }
  }

  lemma {:induction false} RunOwn(sha: string -> string, s: Server, steps: seq<Step>)
    requires Legal(sha, s, steps) && AllOwn(sha, s.streams)
    ensures AllOwn(sha, After(sha, s, steps).streams)
    decreases |steps|
  {
    if steps != [] {
      StepOwn(sha, s, steps[0]);
      RunOwn(sha, Apply(sha, s, steps[0]), steps[1..]);
    }
  }

  ghost predicate NulFree(t: Stream) { '\0' !in t.engineKey + t.identityKey + t.uid }

  /** In every run two streams use one snapshot if and only if they are about one Engine, have one identity
      with one UID, and one proxy name. */
  lemma SharesIff(sha: string -> string, steps: seq<Step>, a: nat, b: nat)
    requires NoCollisions(sha) && Legal(sha, START, steps)
    requires var streams := After(sha, START, steps).streams;
      && a in streams && b in streams && streams[a].proxyKey != "" && streams[b].proxyKey != ""
      && NulFree(streams[a]) && NulFree(streams[b])
    ensures var t, u := After(sha, START, steps).streams[a], After(sha, START, steps).streams[b];
      t.proxyKey == u.proxyKey <==>
        && t.engineKey == u.engineKey && t.identityKey == u.identityKey && t.uid == u.uid
        && ProxyName(t.identityKey, t.uid, t.proxyId) == ProxyName(u.identityKey, u.uid, u.proxyId)
  {
    RunOwn(sha, START, steps);
    var t, u := After(sha, START, steps).streams[a], After(sha, START, steps).streams[b];
    ProxyKeyIff(sha, t.engineKey, t.identityKey, t.uid, t.proxyId, u.engineKey, u.identityKey, u.uid, u.proxyId);
  }

  /** A NACK is about the stream's own proxy: on the Engine it has subscribed to, whatever the index says,
      and else on the one the index names. */
  lemma NackIsOwn(sha: string -> string, s: Server, step: Step)
    requires Enabled(s, step) && step.NackRead? && OwnKey(sha, s.streams[step.id])
    ensures var t, t' := s.streams[step.id], Apply(sha, s, step).streams[step.id];
      && (t.engineKey != "" ==> t'.engineKey == t.engineKey && (t.proxyKey != "" ==> t'.proxyKey == t.proxyKey))
      && (t.engineKey == "" ==> t'.engineKey == step.engineKey)
      && (t'.pc.Claiming? <==> t'.engineKey != "" && step.resource != "")
      && (t'.pc.Claiming? ==> t'.pc.retry.proxyKey == t'.proxyKey && t'.pc.retry.resource == step.resource)
      && (t'.engineKey != "" ==> t'.proxyKey == ProxyKey(sha, t'.engineKey, t.identityKey, t.uid, t.proxyId))
  {
    var e := if s.streams[step.id].engineKey != "" then s.streams[step.id].engineKey else step.engineKey;
    var t := s.streams[step.id];
    ProxyKeyIsProxyKey(sha, e, t.identityKey, t.uid, t.proxyId);
  }

  // ----- The rejections of a session -----

  /** Rejections of one version in a row are counted up; another version starts again at one; other keys
      are left. */
  lemma RecordedCounts(nacks: map<string, Nack>, key: string, version: string)
    ensures var after := Recorded(nacks, key, version);
      && key in after && after[key].version == version
      && after[key].attempts == 1 + (if key in nacks && nacks[key].version == version then nacks[key].attempts else 0)
      && after.Keys == nacks.Keys + {key} && forall k | k in nacks && k != key :: after[k] == nacks[k]
  {
  }

  // ----- What the callbacks do to the store -----

  /** Subscribing binds the stream's own proxy with the version the proxy names. */
  lemma WatchBinds(sha: string -> string, s: Server, id: nat, r: string, e: string, version: string)
    requires AtRest(s, id) && !s.streams[id].bound && e != ""
    ensures var t := s.streams[id];
      var k := ProxyKey(sha, e, t.identityKey, t.uid, t.proxyId);
      var s1 := Apply(sha, s, WatchStart(id, r, e, version));
      && Enabled(s1, WatchBind(id))
      && var s2 := Apply(sha, s1, WatchBind(id));
         && s2.store == Bind(s.store, r, k, version) && s2.streams[id].proxyKey == k
         && (s2.streams[id].bound <==> BindPlan(s.store, r, k, version).Install?) && AtRest(s2, id)
  {
  }

  /** A proxy that reconnects after a restart, naming the retry it has, goes on with exactly that retry. */
  lemma ReconnectRestores(sha: string -> string, s: Server, id: nat, r: string, e: string, n: nat)
    requires AtRest(s, id) && !s.streams[id].bound && Inv(s.store) && Lookup(s.store, r) == Some(e) && e != ""
    requires 0 < n <= MAX_INT && s.store.meta[e].resource.vm.Some?
    requires ProxyKey(sha, e, s.streams[id].identityKey, s.streams[id].uid, s.streams[id].proxyId) !in s.store.proxies
    ensures var version := Derived(s.store.meta[e].version, n);
      var s1 := Apply(sha, s, WatchStart(id, r, e, version));
      && Enabled(s1, WatchBind(id))
      && var s2 := Apply(sha, s1, WatchBind(id));
         && s2.streams[id].bound && CurrentVersionFor(s2.store, r, s2.streams[id].proxyKey) == Some(version)
         && Served(s2.store, r, s2.streams[id].proxyKey) == Rejected(s.store.meta[e], n)
  {
    var k := ProxyKey(sha, e, s.streams[id].identityKey, s.streams[id].uid, s.streams[id].proxyId);
    WatchBinds(sha, s, id, r, e, Derived(s.store.meta[e].version, n));
    RestoreRoundTrip(s.store, r, e, k, n);
  }

  /** An ACK of a bound stream reaches the store with the version acknowledged; one of a stream that is not
      bound does not. */
  lemma AckReaches(sha: string -> string, s: Server, id: nat, version: string)
    requires AtRest(s, id)
    ensures var s1 := Apply(sha, s, AckClear(id, version));
      && Enabled(s1, AckStore(id))
      && Apply(sha, s1, AckStore(id)).store
         == if s.streams[id].bound then Ack(s.store, s.streams[id].proxyKey, version) else s.store
  {
  }

  /** Closing a bound stream lets go of its proxy, once. */
  lemma CloseReleases(sha: string -> string, s: Server, id: nat, stopped: bool)
    requires AtRest(s, id)
    ensures var s1 := Apply(sha, s, CloseMark(id, stopped));
      && Enabled(s1, CloseClear(id))
      && var s2 := Apply(sha, s1, CloseClear(id));
         && Enabled(s2, CloseRelease(id))
         && var s3 := Apply(sha, s2, CloseRelease(id));
            && s3.store == (if s.streams[id].bound then Release(s.store, s.streams[id].proxyKey) else s.store)
            && id !in s3.open && s3.streams[id].closed && !s3.streams[id].bound && !s3.streams[id].retryPending
  {
  }
}
