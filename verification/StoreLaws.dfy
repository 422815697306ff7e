/** What the store's operations mean for a proxy: which resource and version it is served, and when
    its snapshot is kept or forgotten. */
module StoreLaws {
  import opened Strings
  import opened Names
  import opened RetryVersion
  import opened StoreModel
  import opened StoreInvariant

  // ----- What a retry is -----

  /** A retry has the Engine's resource under another VM id, so that a proxy that skips a
      configuration it has seen loads it again. */
  lemma RetryResource(m: Snapshot, n: nat)
    requires m.resource.vm.Some?
    ensures Rejected(m, n).Some?
    ensures var c := Rejected(m, n).value;
      && c.version == m.version + SUFFIX + Itoa(n)
      && c.resource.name == m.resource.name && c.resource.config == m.resource.config
      && c.resource.vm == Some(m.resource.vm.value + SUFFIX + Itoa(n))
      && c.resource != m.resource && c.version != m.version
  {
    assert |m.resource.vm.value + SUFFIX + Itoa(n)| > |m.resource.vm.value|;
    assert |m.version + SUFFIX + Itoa(n)| > |m.version|;
  }

  lemma SuffixInjective(a: string, m: nat, n: nat)
    requires a + SUFFIX + Itoa(m) == a + SUFFIX + Itoa(n)
    ensures m == n
  {
    var p := a + SUFFIX;
    assert Itoa(m) == (p + Itoa(m))[|p|..] == (p + Itoa(n))[|p|..] == Itoa(n);
    ItoaInjective(m, n);
  }

  /** Different attempts have different resources and versions. */
  lemma RetriesDiffer(m: Snapshot, i: nat, j: nat)
    requires m.resource.vm.Some? && i != j
    ensures Rejected(m, i).value.resource != Rejected(m, j).value.resource
    ensures Rejected(m, i).value.version != Rejected(m, j).value.version
  {
    RetryResource(m, i);
    RetryResource(m, j);
    var v := m.resource.vm.value;
    if v + SUFFIX + Itoa(i) == v + SUFFIX + Itoa(j) { SuffixInjective(v, i, j); }
    if m.version + SUFFIX + Itoa(i) == m.version + SUFFIX + Itoa(j) { SuffixInjective(m.version, i, j); }
  }

  // ----- Publishing -----

  /** What the cache has for the proxy on the resource: its own snapshot, which a bound stream is served,
      or else the Engine's. */
  function Served(s: Store, resourceName: string, k: string): Option<Cached> {
    match Lookup(s, resourceName)
    case None => None
    case Some(e) =>
      if k in s.proxies && s.proxies[k].engineKey == e && k in s.cache then Some(s.cache[k])
      else if e in s.cache then Some(s.cache[e]) else None
  }

  /** A subscriber that is nobody's proxy of another Engine. */
  ghost predicate Subscribes(s: Store, e: string, k: string) {
    IsProxyKey(k) && (k in s.proxies ==> s.proxies[k].engineKey == e)
  }

  /** After a publication everybody who subscribes is served the new snapshot, retries are over, and
      proxies without a stream are forgotten. */
  lemma PublishServes(s: Store, m: Snapshot, k: string)
    requires Inv(s) && Publishable(m) && Subscribes(s, EngineKey(m), k)
    ensures var t := Replace(s, m);
      && Served(t, m.resourceName, k) == Some(Compiled(m))
      && CurrentVersionFor(t, m.resourceName, k) == Some(m.version)
      && (k in t.proxies <==> k in s.proxies && s.proxies[k].active > 0)
      && (k in t.proxies ==> t.proxies[k] == s.proxies[k].(unacked := false))
  {
    ReplaceInv(s, m);
    EngineKeyIsPlain(m);
    PlainDecodes(m.version);
  }

  /** After a deletion nobody is served the resource and no proxy of the Engine is left. */
  lemma DeleteServesNone(s: Store, namespace: string, name: string, r: string, k: string)
    requires Inv(s) && Lookup(s, r) == Some(Key(namespace, name)) && '\0' !in namespace && '\0' !in name
    ensures var t := Delete(s, namespace, name);
      && Served(t, r, k) == None && CurrentVersionFor(t, r, k) == None
      && Key(namespace, name) !in t.meta && Key(namespace, name) !in t.cache
      && ProxiesOf(t.proxies, Key(namespace, name)) == {}
      && (k in ProxiesOf(s.proxies, Key(namespace, name)) ==> k !in t.cache)
  {
    assert s.meta[Key(namespace, name)].resourceName == r;
  }

  // ----- Bumping -----

  /** When a retry is refused: the Engine is gone or has been republished, the proxy is another
      Engine's, or the resource has no VM id to derive from. */
  lemma BumpRefusedIff(s: Store, r: string, k: string, accepted: string, n: nat)
    requires Inv(s) && IsProxyKey(k)
    ensures Bump(s, r, k, accepted, n).None? <==>
      || Lookup(s, r).None?
      || (accepted != "" && accepted != s.meta[Lookup(s, r).value].version)
      || !Subscribes(s, Lookup(s, r).value, k)
      || s.meta[Lookup(s, r).value].resource.vm.None?
  {
    if Lookup(s, r).Some? { EngineKeyIsPlain(s.meta[Lookup(s, r).value]); }
  }

  /** A bumped proxy is served the retry asked for: the same configuration under a new version and a
      new VM id. It waits for an ACK and keeps its streams. */
  lemma BumpServes(s: Store, r: string, k: string, accepted: string, n: nat)
    requires Inv(s) && IsProxyKey(k) && Bump(s, r, k, accepted, n).Some?
    ensures var t, e := Bump(s, r, k, accepted, n).value, Lookup(s, r).value;
      && Subscribes(t, e, k) && k in t.proxies && t.proxies[k].unacked
      && t.proxies[k].active == (if k in s.proxies then s.proxies[k].active else 0)
      && Lookup(t, r) == Some(e) && t.meta == s.meta
      && s.meta[e].resource.vm.Some?
      && Served(t, r, k) == Some(Cached(s.meta[e].version + SUFFIX + Itoa(n),
           s.meta[e].resource.(vm := Some(s.meta[e].resource.vm.value + SUFFIX + Itoa(n)))))
  {
    BumpInv(s, r, k, accepted, n);
    RetryResource(s.meta[Lookup(s, r).value], n);
  }

  // ----- Binding -----

  /** The proxy's own snapshot is served once it is put there. */
  lemma PutServes(s: Store, r: string, k: string, p: Proxy, c: Cached, next: nat)
    requires Lookup(s, r) == Some(p.engineKey)
    ensures var t := Put(s, k, p, c, next); Lookup(t, r) == Lookup(s, r) && Served(t, r, k) == Some(c)
  {
  }

  lemma HeldRetry(s: Store, k: string)
    requires Inv(s) && k in s.proxies && RetryAttempt(s.cache[k].version) > 0
    ensures s.proxies[k].engineKey in s.meta && HoldsRetry(s, k, s.meta[s.proxies[k].engineKey].version)
  {
    TrackedBase(s, k);
  }

  lemma ResumePlan(s: Store, r: string, e: string, k: string, version: string)
    requires Lookup(s, r) == Some(e) && k in s.proxies && s.proxies[k].engineKey == e
    requires HoldsRetry(s, k, s.meta[e].version)
    ensures BindPlan(s, r, k, version)
         == Install(s.proxies[k].(active := s.proxies[k].active + 1), s.cache[k], s.nextSeq)
  {
  }

  /** A proxy that holds a retry of the current version resumes it, whatever version it names. */
  lemma BindResumes(s: Store, r: string, e: string, k: string, version: string)
    requires Inv(s) && Lookup(s, r) == Some(e) && k in s.proxies && s.proxies[k].engineKey == e
    requires RetryAttempt(s.cache[k].version) > 0
    ensures BindPlan(s, r, k, version).Install?
    ensures var t := Bind(s, r, k, version);
      && Served(t, r, k) == Served(s, r, k) == Some(s.cache[k])
      && t.proxies == s.proxies[k := s.proxies[k].(active := s.proxies[k].active + 1)]
  {
    HeldRetry(s, k);
    var p := s.proxies[k].(active := s.proxies[k].active + 1);
    ResumePlan(s, r, e, k, version);
    PutServes(s, r, k, p, s.cache[k], s.nextSeq);
  }

  lemma RetryOfItself(m: Snapshot, n: nat)
    requires Plain(m.version) && 0 < n <= MAX_INT
    ensures IsRetryOf(Derived(m.version, n), m.version) && RetryAttempt(Derived(m.version, n)) == n
  {
    DerivedDecodes(m.version, n);
  }

  /** How many streams a proxy has and whether it owes an ACK, both nothing for an unknown one. */
  function Streams(s: Store, k: string): nat { if k in s.proxies then s.proxies[k].active else 0 }

  predicate Unacked(s: Store, k: string) { k in s.proxies && s.proxies[k].unacked }

  lemma RestorePlan(s: Store, r: string, e: string, k: string, version: string)
    requires Lookup(s, r) == Some(e) && (k in s.proxies ==> s.proxies[k].engineKey == e)
    requires !HoldsRetry(s, k, s.meta[e].version) || k !in s.proxies
    requires IsRetryOf(version, s.meta[e].version) && s.meta[e].resource.vm.Some?
    ensures var c, plan := Rejected(s.meta[e], RetryAttempt(version)), BindPlan(s, r, k, version);
      && c.Some? && plan.Install? && plan.cached == c.value
      && plan.proxy.engineKey == e && plan.proxy.active == Streams(s, k) + 1 && plan.proxy.unacked == Unacked(s, k)
  {
  }

  lemma CurrentIsServed(s: Store, r: string, e: string, k: string)
    requires Lookup(s, r) == Some(e) && k in s.proxies && s.proxies[k].engineKey == e && k in s.cache
    requires IsRetryOf(s.cache[k].version, s.meta[e].version)
    ensures CurrentVersionFor(s, r, k) == Some(s.cache[k].version)
  {
  }

  /** A proxy that holds no retry and names one of the current version is bound to the attempt it
      names. */
  lemma BindRestores(s: Store, r: string, e: string, k: string, version: string)
    requires Lookup(s, r) == Some(e) && (k in s.proxies ==> s.proxies[k].engineKey == e)
    requires !HoldsRetry(s, k, s.meta[e].version) || k !in s.proxies
    requires IsRetryOf(version, s.meta[e].version) && s.meta[e].resource.vm.Some?
    ensures BindPlan(s, r, k, version).Install?
    ensures var t := Bind(s, r, k, version);
      && Lookup(t, r) == Some(e) && t.meta == s.meta && k in t.proxies && k in t.cache
      && Served(t, r, k) == Rejected(s.meta[e], RetryAttempt(version)) == Some(t.cache[k])
      && t.proxies[k].engineKey == e && Streams(t, k) == Streams(s, k) + 1 && Unacked(t, k) == Unacked(s, k)
  {
    RestorePlan(s, r, e, k, version);
    var plan := BindPlan(s, r, k, version);
    PutServes(s, r, k, plan.proxy, plan.cached, plan.next);
  }

  /** Restart: a proxy the store does not know names the retry it has and is bound to exactly it. */
  lemma RestoreRoundTrip(s: Store, r: string, e: string, k: string, n: nat)
    requires Inv(s) && Lookup(s, r) == Some(e) && k !in s.proxies && 0 < n <= MAX_INT
    requires s.meta[e].resource.vm.Some?
    ensures var version := Derived(s.meta[e].version, n);
      var t := Bind(s, r, k, version);
      && BindPlan(s, r, k, version).Install?
      && CurrentVersionFor(t, r, k) == Some(version)
      && Served(t, r, k) == Rejected(s.meta[e], n)
      && k in t.proxies && t.proxies[k].active == 1 && !t.proxies[k].unacked
  {
    assert Publishable(s.meta[e]);
    var version := Derived(s.meta[e].version, n);
    RetryOfItself(s.meta[e], n);
    BindRestores(s, r, e, k, version);
    CurrentIsServed(Bind(s, r, k, version), r, e, k);
  }

  /** Everybody else is served the shared snapshot: a proxy without a retry that names none of the
      current version is not bound, and nothing changes. */
  lemma BindNothing(s: Store, r: string, e: string, k: string, version: string)
    requires Inv(s) && Lookup(s, r) == Some(e) && Subscribes(s, e, k)
    requires k in s.proxies ==> s.cache[k] == Compiled(s.meta[e])
    requires RetryAttempt(version) == 0 || RetryBase(version) != s.meta[e].version
    ensures BindPlan(s, r, k, version).Nothing? && Bind(s, r, k, version) == s
    ensures Served(s, r, k) == Some(Compiled(s.meta[e]))
  {
    assert Publishable(s.meta[e]) && e in s.cache;
    PlainDecodes(s.meta[e].version);
  }

  // ----- Acknowledging -----

  /** The proxy is served a retry. */
  ghost predicate OnRetry(s: Store, r: string, e: string, k: string) {
    && Lookup(s, r) == Some(e) && k in s.proxies && s.proxies[k].engineKey == e && k in s.cache
    && IsRetryOf(s.cache[k].version, s.meta[e].version)
  }

  lemma AckServed(s: Store, k: string)
    requires k in s.proxies && k in s.cache && RetryAttempt(s.cache[k].version) > 0
    ensures Ack(s, k, s.cache[k].version).proxies == s.proxies[k := s.proxies[k].(unacked := false)]
    ensures Ack(s, k, s.cache[k].version) == s.(proxies := Ack(s, k, s.cache[k].version).proxies)
  {
  }

  lemma AckOther(s: Store, k: string, version: string)
    requires k in s.cache && version != s.cache[k].version
    ensures Ack(s, k, version) == s
  {
  }

  /** An ACK of the version the proxy is served clears its mark and nothing else; an ACK of any other
      version changes nothing. */
  lemma AckIff(s: Store, r: string, e: string, k: string, version: string)
    requires OnRetry(s, r, e, k)
    ensures CurrentVersionFor(s, r, k).Some?
    ensures Ack(s, k, version) ==
      if CurrentVersionFor(s, r, k) == Some(version) then s.(proxies := s.proxies[k := s.proxies[k].(unacked := false)])
      else s
  {
    CurrentIsServed(s, r, e, k);
    if version == s.cache[k].version { AckServed(s, k); } else { AckOther(s, k, version); }
  }

  // ----- Letting go -----

  /** When the last stream lets go of a proxy its snapshot is kept exactly if its retry was not
      acknowledged; while another stream holds it, it stays in any case. */
  lemma ReleaseKeepsIff(s: Store, k: string)
    requires Inv(s) && k in s.proxies
    ensures k in Release(s, k).proxies <==> s.proxies[k].active > 1 || s.proxies[k].unacked
    ensures k in Release(s, k).cache <==> k in Release(s, k).proxies
    ensures k in Release(s, k).proxies ==>
      && Release(s, k).cache[k] == s.cache[k] && Release(s, k).proxies[k].unacked == s.proxies[k].unacked
      && Release(s, k).proxies[k].active == if s.proxies[k].active > 0 then s.proxies[k].active - 1 else 0
  {
    if s.proxies[k].active > 1 {
      HeldStays(s, k);
    } else if s.proxies[k].unacked {
      ReleaseInv(s, k);
      IdleStays(s, k);
    } else {
      assert k !in Released(s, k).proxies && k !in Released(s, k).cache;
    }
  }

  lemma HeldStays(s: Store, k: string)
    requires Inv(s) && k in s.proxies && s.proxies[k].active > 1
    ensures k in Release(s, k).proxies && k in Release(s, k).cache && Release(s, k).cache[k] == s.cache[k]
    ensures Release(s, k).proxies[k] == s.proxies[k].(active := s.proxies[k].active - 1)
  {
    var t := Released(s, k);
    assert k !in Surplus(t.proxies, s.proxies[k].engineKey);
  }

  lemma IdleStays(s: Store, k: string)
    requires Inv(s) && k in s.proxies && s.proxies[k].active <= 1 && s.proxies[k].unacked
    ensures k in Release(s, k).proxies
    ensures Release(s, k).proxies[k] == s.proxies[k].(active := 0, seqNo := s.nextSeq)
  {
    var p := AfterRelease(s.proxies[k], s.nextSeq);
    assert Released(s, k) == LetGo(s, k);
    NewestByNumber(s, k, p, s.nextSeq + 1);
    EvictKeepsNewest(LetGo(s, k), s.proxies[k].engineKey, k);
  }

  // ----- The life of a retry -----

  /** A retry published for a proxy without a stream, and the stream that then takes it. */
  function Taken(s: Store, r: string, k: string, n: nat, version: string): Option<Store> {
    match Bump(s, r, k, "", n)
    case None => None
    case Some(t) => Some(Bind(t, r, k, version))
  }

  lemma TakenHolds(s: Store, r: string, e: string, k: string, n: nat, version: string)
    requires Inv(s) && IsProxyKey(k) && Lookup(s, r) == Some(e) && 0 < n <= MAX_INT
    requires k in s.proxies ==> s.proxies[k].active == 0
    requires Taken(s, r, k, n, version).Some?
    ensures var t := Taken(s, r, k, n, version).value;
      && Inv(t) && OnRetry(t, r, e, k) && t.proxies[k].active == 1 && t.proxies[k].unacked
      && t.cache[k].version == Derived(s.meta[e].version, n)
  {
    var t := Bump(s, r, k, "", n).value;
    BumpInv(s, r, k, "", n);
    BumpServes(s, r, k, "", n);
    RetryOfItself(s.meta[e], n);
    BindResumes(t, r, e, k, version);
    BindInv(t, r, k, version);
  }

  /** A retry that its proxy took and acknowledged is forgotten when the proxy leaves; one that it did
      not acknowledge, or acknowledged under another version, waits for its return. */
  lemma AckedIsForgotten(s: Store, r: string, e: string, k: string, n: nat, version: string, acked: string)
    requires Inv(s) && IsProxyKey(k) && Lookup(s, r) == Some(e) && 0 < n <= MAX_INT
    requires k in s.proxies ==> s.proxies[k].active == 0
    requires Taken(s, r, k, n, version).Some?
    ensures var t := Taken(s, r, k, n, version).value;
      var u := Release(Ack(t, k, acked), k);
      && CurrentVersionFor(t, r, k) == Some(Derived(s.meta[e].version, n))
      && (k in u.proxies <==> acked != Derived(s.meta[e].version, n))
      && (k in u.cache <==> k in u.proxies)
      && (k in u.proxies ==> u.proxies[k].unacked && k in t.cache && k in u.cache && u.cache[k] == t.cache[k])
  {
    var t := Taken(s, r, k, n, version).value;
    TakenHolds(s, r, e, k, n, version);
    CurrentIsServed(t, r, e, k);
    AckIff(t, r, e, k, acked);
    AckInv(t, k, acked);
    ReleaseKeepsIff(Ack(t, k, acked), k);
  }
}
