/** SnapshotStore as the object it is: maps and a cache updated in place, with proxy records shared
    by two indexes. Every method is tied to its value in StoreModel. */
module SnapshotStore {
  import opened Sets
  import opened Strings
  import opened Names
  import opened RetryVersion
  import opened Sorting
  import Model = StoreModel
  import opened StoreInvariant

  class ProxySnapshot {
    const engineKey: string
    var active: nat
    var retryUnacked: bool
    var seqNo: nat

    constructor (engineKey: string, seqNo: nat)
      ensures this.engineKey == engineKey && Value() == Model.Proxy(engineKey, 0, false, seqNo)
    {
      this.engineKey := engineKey;
      this.active := 0;
      this.retryUnacked := false;
      this.seqNo := seqNo;
    }

    function Value(): Model.Proxy
      reads this
    {
      Model.Proxy(engineKey, active, retryUnacked, seqNo)
    }
  }

  /** No record is shared by two keys. */
  ghost predicate Injective(proxies: map<string, ProxySnapshot>) {
    forall j, k | j in proxies && k in proxies && j != k :: proxies[j] != proxies[k]
  }

  /** The records of one Engine. */
  function OfEngine(proxies: map<string, ProxySnapshot>, e: string): map<string, ProxySnapshot> {
    map k | k in proxies && proxies[k].engineKey == e :: proxies[k]
  }

  /** The records by Engine. */
  function Grouped(proxies: map<string, ProxySnapshot>): EngineIndex {
    map e | e in set k | k in proxies :: proxies[k].engineKey :: OfEngine(proxies, e)
  }

  /** byEngine describes the same records as proxies and has no empty inner map. */
  lemma IndexesAgree(proxies: map<string, ProxySnapshot>)
    ensures var byEngine := Grouped(proxies);
      && (forall e | e in byEngine :: byEngine[e].Keys != {})
      && (forall e, k | e in byEngine && k in byEngine[e] ::
           k in proxies && proxies[k] == byEngine[e][k] && proxies[k].engineKey == e)
      && (forall k | k in proxies :: proxies[k].engineKey in byEngine && k in byEngine[proxies[k].engineKey])
  {
    var byEngine := Grouped(proxies);
    forall e | e in byEngine ensures byEngine[e].Keys != {} {
      var k :| k in proxies && proxies[k].engineKey == e;
      assert k in byEngine[e];
    }
  }

  /** The records are objects of repr, with these contents. */
  ghost predicate Holds(proxies: map<string, ProxySnapshot>, repr: set<ProxySnapshot>,
                        records: map<string, Model.Proxy>)
    reads repr
  {
    proxies.Keys == records.Keys && forall k | k in proxies :: proxies[k] in repr && proxies[k].Value() == records[k]
  }

  lemma HoldsWithout(proxies: map<string, ProxySnapshot>, repr: set<ProxySnapshot>, records: map<string, Model.Proxy>,
                     k: string)
    requires Holds(proxies, repr, records)
    ensures Holds(proxies - {k}, repr, records - {k})
  {
  }

  lemma HoldsWith(proxies: map<string, ProxySnapshot>, repr: set<ProxySnapshot>, records: map<string, Model.Proxy>,
                  k: string, proxy: ProxySnapshot)
    requires Holds(proxies, repr, records)
    ensures Holds(proxies[k := proxy], repr + {proxy}, records[k := proxy.Value()])
  {
  }

  type EngineIndex = map<string, map<string, ProxySnapshot>>

  function WithProxy(byEngine: EngineIndex, k: string, proxy: ProxySnapshot): EngineIndex {
    var engine: map<string, ProxySnapshot> := if proxy.engineKey in byEngine then byEngine[proxy.engineKey] else map[];
    byEngine[proxy.engineKey := engine[k := proxy]]
  }

  function WithoutProxy(byEngine: EngineIndex, engineKey: string, k: string): EngineIndex
    requires engineKey in byEngine
  {
    var engine := byEngine[engineKey] - {k};
    if engine.Keys == {} then byEngine - {engineKey} else byEngine[engineKey := engine]
  }

  lemma OfEngineWith(proxies: map<string, ProxySnapshot>, k: string, proxy: ProxySnapshot, e: string)
    requires k !in proxies
    ensures OfEngine(proxies[k := proxy], e) ==
      if proxy.engineKey == e then OfEngine(proxies, e)[k := proxy] else OfEngine(proxies, e)
  {
  }

  /** An Engine is listed when it has records. */
  lemma Listed(proxies: map<string, ProxySnapshot>, e: string)
    ensures e in Grouped(proxies) <==> OfEngine(proxies, e).Keys != {}
    ensures e !in Grouped(proxies) ==> OfEngine(proxies, e) == map[]
  {
    assert forall k | k in OfEngine(proxies, e) :: k in proxies && proxies[k].engineKey == e;
    if e in Grouped(proxies) {
      var k :| k in proxies && proxies[k].engineKey == e;
      assert k in OfEngine(proxies, e);
    }
  }

  lemma GroupedWith(proxies: map<string, ProxySnapshot>, k: string, proxy: ProxySnapshot)
    requires k !in proxies
    ensures Grouped(proxies[k := proxy]) == WithProxy(Grouped(proxies), k, proxy)
  {
    var before, after := Grouped(proxies), Grouped(proxies[k := proxy]);
    Listed(proxies, proxy.engineKey);
    forall f ensures f in after <==> f in WithProxy(before, k, proxy) {
      Listed(proxies[k := proxy], f);
      Listed(proxies, f);
      OfEngineWith(proxies, k, proxy, f);
      assert f == proxy.engineKey ==> k in OfEngine(proxies[k := proxy], f).Keys;
    }
    forall f | f in after ensures after[f] == WithProxy(before, k, proxy)[f] {
      OfEngineWith(proxies, k, proxy, f);
    }
  }

  lemma OfEngineWithout(proxies: map<string, ProxySnapshot>, k: string, e: string)
    requires k in proxies
    ensures OfEngine(proxies - {k}, e) == OfEngine(proxies, e) - {k}
    ensures proxies[k].engineKey != e ==> OfEngine(proxies - {k}, e) == OfEngine(proxies, e)
  {
  }

  lemma GroupedWithout(proxies: map<string, ProxySnapshot>, k: string)
    requires k in proxies
    ensures proxies[k].engineKey in Grouped(proxies)
    ensures Grouped(proxies - {k}) == WithoutProxy(Grouped(proxies), proxies[k].engineKey, k)
  {
    var before, after, e := Grouped(proxies), Grouped(proxies - {k}), proxies[k].engineKey;
    forall f ensures f in after <==> f in WithoutProxy(before, e, k) {
      Listed(proxies - {k}, f);
      Listed(proxies, f);
      OfEngineWithout(proxies, k, f);
    }
    forall f | f in after ensures after[f] == WithoutProxy(before, e, k)[f] {
      OfEngineWithout(proxies, k, f);
    }
  }

  lemma InjectiveWith(proxies: map<string, ProxySnapshot>, k: string, proxy: ProxySnapshot)
    requires Injective(proxies) && forall j | j in proxies :: proxies[j] != proxy
    ensures Injective(proxies[k := proxy])
  {
  }

  lemma InjectiveWithout(proxies: map<string, ProxySnapshot>, k: string)
    requires Injective(proxies)
    ensures Injective(proxies - {k})
  {
  }

  lemma MinusAbsent<V>(m: map<string, V>, k: string)
    requires k !in m
    ensures m - {k} == m
  {
  }

  lemma MinusMinus<V>(m: map<string, V>, ks: set<string>, k: string)
    ensures m - ks - {k} == m - (ks + {k})
  {
  }

  lemma SetStep(todo: set<string>, done: set<string>, k: string)
    requires k in todo && todo !! done
    ensures (todo - {k}) !! (done + {k}) && done + {k} + (todo - {k}) == done + todo
    ensures todo - {k} < todo
  {
  }

  lemma DropOrdered(p: map<string, Model.Proxy>, ks: set<string>, next: nat)
    requires Ordered(p, next)
    ensures Ordered(p - ks, next)
  {
  }

  lemma RefreshedNone(p: map<string, Model.Proxy>, c: map<string, Model.Cached>, compiled: Model.Cached)
    ensures Model.Refreshed(p, {}) == p && Model.RefreshedCache(c, p, {}, compiled) == c
  {
  }

  lemma RefreshedSingle(p: map<string, Model.Proxy>, k: string)
    requires k in p
    ensures var marked := p[k := p[k].(unacked := false)];
      Model.Refreshed(p, {k}) == if p[k].active == 0 then marked - {k} else marked
  {
  }

  lemma RefreshedStep(p: map<string, Model.Proxy>, c: map<string, Model.Cached>, done: set<string>, k: string,
                      compiled: Model.Cached)
    requires done <= p.Keys && k in p && k !in done
    ensures k in Model.Refreshed(p, done) && Model.Refreshed(p, done)[k] == p[k]
    ensures Model.Refreshed(p, done + {k}) == Model.Refreshed(Model.Refreshed(p, done), {k})
    ensures Model.RefreshedCache(c, p, done + {k}, compiled) ==
      var c' := Model.RefreshedCache(c, p, done, compiled);
      if p[k].active == 0 then c' - {k} else c'[k := compiled]
  {
  }

  lemma RefreshedOrdered(p: map<string, Model.Proxy>, ks: set<string>, next: nat)
    requires Ordered(p, next)
    ensures Ordered(Model.Refreshed(p, ks), next)
  {
  }

  function Recorded(records: map<string, Model.Proxy>, k: string): Option<Model.Proxy> {
    if k in records then Some(records[k]) else None
  }

  class SnapshotStore {
    var cache: map<string, Model.Cached>
    var meta: map<string, Model.Snapshot>
    var proxies: map<string, ProxySnapshot>
    var byEngine: EngineIndex
    var resources: map<string, string>
    var nextSeq: nat
    /** The contents of the proxy records, and the objects that hold them. */
    ghost var records: map<string, Model.Proxy>
    ghost var repr: set<ProxySnapshot>

    ghost predicate Linked()
      reads this`proxies, this`byEngine, this`records, this`repr, repr
    {
      Injective(proxies) && byEngine == Grouped(proxies) && Holds(proxies, repr, records)
    }

    ghost predicate Valid()
      reads this, repr
    {
      Linked() && Ordered(records, nextSeq)
    }

    ghost function View(): Model.Store
      reads this
    {
      Model.Store(meta, records, resources, nextSeq, cache)
    }

    constructor ()
      ensures Valid() && View() == Model.EMPTY && repr == {}
    {
      cache, meta, proxies, byEngine, resources, nextSeq := map[], map[], map[], map[], map[], 0;
      records, repr := map[], {};
    }

    // ----- Records -----

    method TrackProxy(proxyKey: string, proxy: ProxySnapshot)
      requires Linked() && proxyKey !in proxies && proxy !in repr
      modifies this`proxies, this`byEngine, this`records, this`repr
      ensures Linked() && repr == old(repr) + {proxy} && records == old(records)[proxyKey := proxy.Value()]
    {
      ghost var p, o, r := proxies, repr, records;
      InjectiveWith(proxies, proxyKey, proxy);
      GroupedWith(proxies, proxyKey, proxy);
      byEngine, proxies := WithProxy(byEngine, proxyKey, proxy), proxies[proxyKey := proxy];
      records, repr := records[proxyKey := proxy.Value()], repr + {proxy};
      HoldsWith(p, o, r, proxyKey, proxy);
    }

    method UntrackProxy(proxyKey: string)
      requires Linked()
      modifies this`proxies, this`byEngine, this`records
      ensures Linked() && records == old(records) - {proxyKey}
    {
      if proxyKey in proxies {
        Unindex(proxyKey);
      } else {
        MinusAbsent(records, proxyKey);
      }
    }

    method Unindex(proxyKey: string)
      requires Linked() && proxyKey in proxies
      modifies this`proxies, this`byEngine, this`records
      ensures Linked() && records == old(records) - {proxyKey}
    {
      ghost var p, r := proxies, records;
      InjectiveWithout(proxies, proxyKey);
      GroupedWithout(proxies, proxyKey);
      byEngine, proxies := WithoutProxy(byEngine, proxies[proxyKey].engineKey, proxyKey), proxies - {proxyKey};
      records := records - {proxyKey};
      HoldsWithout(p, repr, r, proxyKey);
    }

    method ClearProxy(proxyKey: string)
      requires Linked()
      modifies this`cache, this`proxies, this`byEngine, this`records
      ensures Linked()
      ensures records == old(records) - {proxyKey} && cache == old(cache) - {proxyKey}
    {
      cache := cache - {proxyKey};
      UntrackProxy(proxyKey);
    }

    /** Overwrites one proxy record in place; both indexes see the change. */
    method Write(proxyKey: string, active: nat, unacked: bool, seqNo: nat)
      requires Linked() && proxyKey in proxies
      modifies proxies[proxyKey], this`records
      ensures Linked()
      ensures records == old(records)[proxyKey := Model.Proxy(proxies[proxyKey].engineKey, active, unacked, seqNo)]
    {
      var proxy := proxies[proxyKey];
      proxy.active, proxy.retryUnacked, proxy.seqNo := active, unacked, seqNo;
      records := records[proxyKey := proxy.Value()];
    }

    // ----- Eviction -----

    /** evictInactiveRetriesLocked: drops the oldest disconnected, unacknowledged retry snapshots of
        one Engine beyond the bound. */
    method EvictInactiveRetries(engineKey: string)
      requires Valid()
      modifies this`cache, this`proxies, this`byEngine, this`records
      ensures Valid() && View() == Model.Evict(old(View()), engineKey)
    {
      var victims := Victims(engineKey);
      DropOrdered(records, Elements(victims), nextSeq);
      DropAll(victims);
    }

    method Victims(engineKey: string) returns (victims: seq<string>)
      requires Valid()
      ensures Elements(victims) == Model.Surplus(records, engineKey)
    {
      if engineKey !in byEngine {
        assert Model.Inactive(records, engineKey) == {};
        NoSurplus(View(), engineKey);
        return [];
      }
      var candidates := Candidates(engineKey);
      DistinctCardinal(candidates);
      if |candidates| <= Model.MAX_INACTIVE {
        NoSurplus(View(), engineKey);
        return [];
      }
      var oldest := SortedCandidates(engineKey, candidates);
      SurplusIsPrefix(records, engineKey, oldest);
      return oldest[..|candidates| - Model.MAX_INACTIVE];
    }

    method Candidates(engineKey: string) returns (candidates: seq<string>)
      requires Valid() && engineKey in byEngine
      ensures Distinct(candidates) && Elements(candidates) == Model.Inactive(records, engineKey)
    {
      var engine := byEngine[engineKey];
      candidates := [];
      var todo := engine.Keys;
      while todo != {}
        invariant todo <= engine.Keys && Distinct(candidates)
        invariant forall k :: k in candidates <==>
          k in engine.Keys - todo && engine[k].active == 0 && engine[k].retryUnacked
      {
        var k :| k in todo;
        todo := todo - {k};
        if engine[k].active > 0 || !engine[k].retryUnacked {
          continue;
        }
        candidates := candidates + [k];
      }
    }

    method SortedCandidates(engineKey: string, candidates: seq<string>) returns (oldest: seq<string>)
      requires Valid() && engineKey in byEngine
      requires Distinct(candidates) && Elements(candidates) == Model.Inactive(records, engineKey)
      ensures OldestFirst(records, Model.Inactive(records, engineKey), oldest) && |oldest| == |candidates|
    {
      var engine := byEngine[engineKey];
      var order := map k | k in engine :: engine[k].Value();
      oldest := Sort(KeyOrder(order), candidates);
      SortOldestFirst(order, Model.Inactive(records, engineKey), candidates);
    }

    method DropAll(ks: seq<string>)
      requires Linked()
      modifies this`cache, this`proxies, this`byEngine, this`records
      ensures Linked()
      ensures records == old(records) - Elements(ks) && cache == old(cache) - Elements(ks)
    {
      for i := 0 to |ks|
        invariant Linked()
        invariant records == old(records) - Elements(ks[..i])
        invariant cache == old(cache) - Elements(ks[..i])
      {
        assert Elements(ks[..i + 1]) == Elements(ks[..i]) + {ks[i]};
        MinusMinus(old(cache), Elements(ks[..i]), ks[i]);
        MinusMinus(old(records), Elements(ks[..i]), ks[i]);
        ClearProxy(ks[i]);
      }
      assert ks[..|ks|] == ks;
    }

    // ----- Replace -----

    /** Replace; an absent snapshot stands for a nil snapshot or a nil resource. */
    method Replace(snapshot: Option<Model.Snapshot>) returns (ok: bool)
      requires Valid()
      modifies this, repr
      ensures fresh(repr - old(repr))
      ensures Valid() && ok == snapshot.Some?
      ensures View() == if ok then Model.Replace(old(View()), snapshot.value) else old(View())
    {
      if snapshot.None? {
        return false;
      }
      var key := Model.EngineKey(snapshot.value);
      Publish(key, snapshot.value);
      RefreshedOrdered(records, Model.ProxiesOf(records, key), nextSeq);
      RefreshProxies(key, Model.Compiled(snapshot.value));
      return true;
    }

    method Publish(key: string, m: Model.Snapshot)
      requires key == Model.EngineKey(m)
      modifies this`cache, this`meta, this`resources
      ensures cache == old(cache)[key := Model.Compiled(m)] && meta == old(meta)[key := m]
      ensures resources == Model.ReplacedNames(old(View()), m)
    {
      cache := cache[key := Model.Compiled(m)];
      if key in meta && meta[key].resourceName != m.resourceName {
        resources := resources - {meta[key].resourceName};
      }
      meta := meta[key := m];
      resources := resources[m.resourceName := key];
    }

    method RefreshProxies(key: string, compiled: Model.Cached)
      requires Linked()
      modifies this`cache, this`proxies, this`byEngine, this`records, repr
      ensures Linked()
      ensures records == Model.Refreshed(old(records), Model.ProxiesOf(old(records), key))
      ensures cache == Model.RefreshedCache(old(cache), old(records), Model.ProxiesOf(old(records), key), compiled)
    {
      var todo: set<string> := if key in byEngine then byEngine[key].Keys else {};
      ghost var ks, done: set<string> := todo, {};
      RefreshedNone(records, cache, compiled);
      assert ks == Model.ProxiesOf(records, key);
      while todo != {}
        invariant done <= old(records).Keys && todo <= old(records).Keys && todo !! done && done + todo == ks
        invariant Linked()
        invariant records == Model.Refreshed(old(records), done)
        invariant cache == Model.RefreshedCache(old(cache), old(records), done, compiled)
      {
        var k :| k in todo;
        RefreshedStep(old(records), old(cache), done, k, compiled);
        SetStep(todo, done, k);
        RefreshOne(k, compiled);
        todo, done := todo - {k}, done + {k};
      }
      assert done == ks;
    }

    method RefreshOne(k: string, compiled: Model.Cached)
      requires Linked() && k in proxies
      modifies this`cache, this`proxies, this`byEngine, this`records, repr
      ensures Linked()
      ensures records == Model.Refreshed(old(records), {k})
      ensures cache == if old(records)[k].active == 0 then old(cache) - {k} else old(cache)[k := compiled]
    {
      RefreshedSingle(records, k);
      Unmark(k);
      if proxies[k].active == 0 {
        ClearProxy(k);
      } else {
        cache := cache[k := compiled];
      }
    }

    method Unmark(k: string)
      requires Linked() && k in proxies
      modifies proxies[k], this`records
      ensures Linked() && records == old(records)[k := old(records)[k].(unacked := false)]
    {
      Write(k, proxies[k].active, false, proxies[k].seqNo);
    }

    // ----- Retry operations -----

    /** Writes a proxy record, creating it on first use. */
    method PutRecord(proxyKey: string, p: Model.Proxy)
      requires Linked() && (proxyKey in proxies ==> proxies[proxyKey].engineKey == p.engineKey)
      modifies this`proxies, this`byEngine, this`records, this`repr, repr
      ensures Linked() && records == old(records)[proxyKey := p] && fresh(repr - old(repr))
    {
      if proxyKey in proxies {
        Write(proxyKey, p.active, p.unacked, p.seqNo);
      } else {
        var proxy := new ProxySnapshot(p.engineKey, p.seqNo);
        proxy.active, proxy.retryUnacked := p.active, p.unacked;
        TrackProxy(proxyKey, proxy);
      }
    }

    method Install(proxyKey: string, plan: Model.Plan)
      requires Valid() && plan.Install? && Model.Sound(View(), proxyKey, plan)
      modifies this`cache, this`proxies, this`byEngine, this`records, this`repr, this`nextSeq, repr
      ensures Valid() && fresh(repr - old(repr))
      ensures View() == Model.Put(old(View()), proxyKey, plan.proxy, plan.cached, plan.next)
    {
      cache := cache[proxyKey := plan.cached];
      Number(proxyKey, plan.proxy, plan.next);
    }

    method Number(proxyKey: string, p: Model.Proxy, next: nat)
      requires Valid() && (proxyKey in proxies ==> proxies[proxyKey].engineKey == p.engineKey)
      requires Model.NumberedNext(View(), proxyKey, p, next)
      modifies this`proxies, this`byEngine, this`records, this`repr, this`nextSeq, repr
      ensures Valid() && records == old(records)[proxyKey := p] && nextSeq == next && fresh(repr - old(repr))
    {
      PutOrdered(View(), proxyKey, p, next);
      nextSeq := next;
      PutRecord(proxyKey, p);
    }

    /** The contents of a proxy's record, if it has one. */
    method Read(proxyKey: string) returns (found: Option<Model.Proxy>)
      requires Linked()
      ensures found == Recorded(records, proxyKey)
    {
      if proxyKey !in proxies {
        return None;
      }
      return Some(proxies[proxyKey].Value());
    }

    method PlanBump(found: Option<Model.Proxy>, resourceName: string, proxyKey: string, acceptedVersion: string,
                    attempt: int) returns (plan: Model.Plan)
      requires found == Recorded(records, proxyKey)
      ensures plan == Model.BumpPlan(View(), resourceName, proxyKey, acceptedVersion, attempt)
    {
      if resourceName !in resources || resources[resourceName] !in meta {
        return Model.Failed;
      }
      var key := resources[resourceName];
      if proxyKey == "" || proxyKey == key || (acceptedVersion != "" && meta[key].version != acceptedVersion) {
        return Model.Failed;
      }
      if found.Some? && found.value.engineKey != key {
        return Model.Failed;
      }
      var compiled := Model.Rejected(meta[key], attempt);
      if compiled.None? {
        return Model.Failed;
      }
      var active := if found.Some? then found.value.active else 0;
      return Model.Install(Model.Proxy(key, active, true, nextSeq), compiled.value, nextSeq + 1);
    }

    /** The proxy's new retry, and room made for it. */
    method InstallNewest(proxyKey: string, plan: Model.Plan)
      requires Valid() && plan.Install? && Model.Sound(View(), proxyKey, plan)
      modifies this`cache, this`proxies, this`byEngine, this`records, this`repr, this`nextSeq, repr
      ensures Valid() && fresh(repr - old(repr))
      ensures View() == Model.Evict(Model.Put(old(View()), proxyKey, plan.proxy, plan.cached, plan.next),
                                    plan.proxy.engineKey)
    {
      Install(proxyKey, plan);
      EvictInactiveRetries(plan.proxy.engineKey);
    }

    method BumpRejected(resourceName: string, proxyKey: string, acceptedVersion: string, attempt: int)
      returns (ok: bool)
      requires Valid()
      modifies this, repr
      ensures fresh(repr - old(repr))
      ensures Valid()
      ensures var r := Model.Bump(old(View()), resourceName, proxyKey, acceptedVersion, attempt);
        ok == r.Some? && View() == if ok then r.value else old(View())
    {
      var found := Read(proxyKey);
      var plan := PlanBump(found, resourceName, proxyKey, acceptedVersion, attempt);
      if !plan.Install? {
        return false;
      }
      InstallNewest(proxyKey, plan);
      return true;
    }

    method PlanBind(found: Option<Model.Proxy>, resourceName: string, proxyKey: string, version: string)
      returns (plan: Model.Plan)
      requires found == Recorded(records, proxyKey)
      ensures plan == Model.BindPlan(View(), resourceName, proxyKey, version)
    {
      if resourceName !in resources || resources[resourceName] !in meta {
        return Model.Nothing;
      }
      var key := resources[resourceName];
      if found.Some? && found.value.engineKey != key {
        return Model.Failed;
      }
      if found.Some? && proxyKey in cache && Model.IsRetryOf(cache[proxyKey].version, meta[key].version) {
        return Model.Install(found.value.(active := found.value.active + 1), cache[proxyKey], nextSeq);
      }
      plan := PlanRestore(found, key, proxyKey, version);
    }

    method PlanRestore(found: Option<Model.Proxy>, key: string, proxyKey: string, version: string)
      returns (plan: Model.Plan)
      requires found == Recorded(records, proxyKey) && key in meta
      ensures plan == Model.Restored(View(), key, proxyKey, version)
    {
      if !Model.IsRetryOf(version, meta[key].version) {
        return Model.Nothing;
      }
      var compiled := Model.Rejected(meta[key], RetryAttempt(version));
      if compiled.None? {
        return Model.Failed;
      }
      if found.Some? {
        return Model.Install(found.value.(active := found.value.active + 1), compiled.value, nextSeq);
      }
      return Model.Install(Model.Proxy(key, 1, false, nextSeq), compiled.value, nextSeq + 1);
    }

    method BindRejectedRetry(resourceName: string, proxyKey: string, version: string)
      returns (bound: bool, failed: bool)
      requires Valid()
      modifies this, repr
      ensures fresh(repr - old(repr))
      ensures Valid() && View() == Model.Bind(old(View()), resourceName, proxyKey, version)
      ensures var plan := Model.BindPlan(old(View()), resourceName, proxyKey, version);
        bound == plan.Install? && failed == plan.Failed?
    {
      var found := Read(proxyKey);
      var plan := PlanBind(found, resourceName, proxyKey, version);
      if plan.Install? {
        Install(proxyKey, plan);
      }
      return plan.Install?, plan.Failed?;
    }

    method CurrentVersionFor(resourceName: string, proxyKey: string) returns (version: Option<string>)
      requires Valid()
      ensures version == Model.CurrentVersionFor(View(), resourceName, proxyKey)
    {
      if resourceName !in resources || resources[resourceName] !in meta {
        return None;
      }
      var key := resources[resourceName];
      if proxyKey in proxies && proxies[proxyKey].engineKey == key && proxyKey in cache {
        var cached := cache[proxyKey].version;
        if Model.IsRetryOf(cached, meta[key].version) {
          return Some(cached);
        }
      }
      if key !in cache {
        return None;
      }
      return Some(cache[key].version);
    }

    method AckRejected(proxyKey: string, version: string)
      requires Valid()
      modifies this`records, repr
      ensures Valid() && View() == Model.Ack(old(View()), proxyKey, version)
    {
      if proxyKey !in proxies || RetryAttempt(version) == 0 {
        return;
      }
      if proxyKey in cache && cache[proxyKey].version == version {
        PutOrdered(View(), proxyKey, records[proxyKey].(unacked := false), nextSeq);
        Unmark(proxyKey);
      }
    }

    method ReleaseRejectedRetry(proxyKey: string)
      requires Valid()
      modifies this, repr
      ensures fresh(repr - old(repr))
      ensures Valid() && View() == Model.Release(old(View()), proxyKey)
    {
      if proxyKey !in proxies {
        return;
      }
      var engineKey := proxies[proxyKey].engineKey;
      Detach(proxyKey);
      EvictInactiveRetries(engineKey);
    }

    method Detach(proxyKey: string)
      requires Valid() && proxyKey in proxies
      modifies this`cache, this`proxies, this`byEngine, this`records, this`repr, this`nextSeq, repr
      ensures Valid() && View() == Model.Released(old(View()), proxyKey) && fresh(repr - old(repr))
    {
      var forget := proxies[proxyKey].active <= 1 && !proxies[proxyKey].retryUnacked;
      LetGo(proxyKey);
      if forget {
        Forget(proxyKey);
      }
    }

    method Forget(proxyKey: string)
      requires Valid()
      modifies this`cache, this`proxies, this`byEngine, this`records
      ensures Valid() && View() == Model.Drop(old(View()), {proxyKey})
    {
      DropOrdered(records, {proxyKey}, nextSeq);
      ClearProxy(proxyKey);
    }

    method LetGo(proxyKey: string)
      requires Valid() && proxyKey in proxies
      modifies this`proxies, this`byEngine, this`records, this`repr, this`nextSeq, repr
      ensures Valid() && View() == Model.LetGo(old(View()), proxyKey) && fresh(repr - old(repr))
    {
      var p := proxies[proxyKey].Value();
      Number(proxyKey, Model.AfterRelease(p, nextSeq), if p.active <= 1 then nextSeq + 1 else nextSeq);
    }

    // ----- Deletion and lookup -----

    method DeleteEngine(namespace: string, engineName: string)
      requires Valid()
      modifies this`cache, this`meta, this`resources, this`proxies, this`byEngine, this`records
      ensures Valid() && View() == Model.Delete(old(View()), namespace, engineName)
    {
      var key := Key(namespace, engineName);
      Withdraw(key);
      DropOrdered(records, Model.ProxiesOf(records, key), nextSeq);
      ClearEngine(key);
    }

    method Withdraw(key: string)
      modifies this`cache, this`meta, this`resources
      ensures cache == old(cache) - {key} && meta == old(meta) - {key}
      ensures resources == old(resources) - {if key in old(meta) then old(meta)[key].resourceName else ""}
    {
      cache := cache - {key};
      resources := resources - {if key in meta then meta[key].resourceName else ""};
      meta := meta - {key};
    }

    method ClearEngine(key: string)
      requires Linked()
      modifies this`cache, this`proxies, this`byEngine, this`records
      ensures Linked()
      ensures var ks := Model.ProxiesOf(old(records), key); records == old(records) - ks && cache == old(cache) - ks
    {
      var todo: set<string> := if key in byEngine then byEngine[key].Keys else {};
      ghost var done: set<string> := {};
      assert todo == Model.ProxiesOf(records, key);
      while todo != {}
        invariant Linked()
        invariant todo !! done && done + todo == Model.ProxiesOf(old(records), key)
        invariant records == old(records) - done && cache == old(cache) - done
      {
        var k :| k in todo;
        MinusMinus(old(records), done, k);
        MinusMinus(old(cache), done, k);
        SetStep(todo, done, k);
        ClearProxy(k);
        todo, done := todo - {k}, done + {k};
      }
      assert done == Model.ProxiesOf(old(records), key);
    }

    /** In a store that keeps its invariant, a snapshot is found exactly for a published Engine, and it is
        the Engine's own, compiled in the cache as it will be served. */
    method Get(engineKey: string) returns (snapshot: Option<Model.Snapshot>)
      ensures snapshot.Some? <==> engineKey in meta && engineKey in cache
      ensures snapshot.Some? ==> snapshot.value == meta[engineKey]
      ensures Inv(View()) ==> (snapshot.Some? <==> engineKey in meta)
      ensures Inv(View()) && snapshot.Some? ==>
        Model.EngineKey(snapshot.value) == engineKey && cache[engineKey] == Model.Compiled(snapshot.value)
    {
      if engineKey !in meta || engineKey !in cache {
        return None;
      }
      return Some(meta[engineKey]);
    }
  }
}
