/** What every operation of the snapshot store keeps. */
module StoreInvariant {
  import opened Sets
  import opened Strings
  import opened Names
  import opened RetryVersion
  import opened Sorting
  import opened StoreModel

  // ----- The invariant -----

  /** What the publication controller hands to Replace. */
  predicate Publishable(m: Snapshot) {
    && Wellformed(m.namespace, m.engineName, m.uid)
    && m.resourceName == ResourceName(m.namespace, m.engineName, m.uid)
    && Plain(m.version)
  }

  ghost predicate Named(meta: map<string, Snapshot>) {
    forall k | k in meta :: k == EngineKey(meta[k]) && Publishable(meta[k])
  }

  /** resources and meta are mutually inverse. */
  ghost predicate Indexed(meta: map<string, Snapshot>, resources: map<string, string>) {
    && (forall n | n in resources :: resources[n] in meta && meta[resources[n]].resourceName == n)
    && (forall k | k in meta :: meta[k].resourceName in resources && resources[meta[k].resourceName] == k)
  }

  /** A cached snapshot is the Engine's own or a retry of it. */
  ghost predicate Serves(c: Cached, m: Snapshot) {
    c == Compiled(m) || exists n :: Rejected(m, n) == Some(c)
  }

  /** Proxy keys are not Engine keys, and every tracked proxy holds a snapshot of its Engine. */
  ghost predicate Tracked(meta: map<string, Snapshot>, p: map<string, Proxy>, cache: map<string, Cached>) {
    forall k | k in p ::
      && IsProxyKey(k)
      && p[k].engineKey in meta
      && k in cache
      && Serves(cache[k], meta[p[k].engineKey])
  }

  /** Shared snapshots are exactly the published ones; nothing else is cached. */
  ghost predicate Shared(meta: map<string, Snapshot>, p: map<string, Proxy>, cache: map<string, Cached>) {
    && cache.Keys == meta.Keys + p.Keys
    && forall k | k in meta :: cache[k] == Compiled(meta[k])
  }

  ghost predicate Ordered(p: map<string, Proxy>, next: nat) {
    && (forall k | k in p :: p[k].seqNo < next)
    && (forall j, k | j in p && k in p && j != k :: p[j].seqNo != p[k].seqNo)
  }

  ghost predicate Bounded(p: map<string, Proxy>) {
    forall e :: |Inactive(p, e)| <= MAX_INACTIVE
  }

  /** The invariant without the bound, which eviction restores. */
  ghost predicate Core(s: Store) {
    && Named(s.meta) && Indexed(s.meta, s.resources)
    && Tracked(s.meta, s.proxies, s.cache) && Shared(s.meta, s.proxies, s.cache)
    && Ordered(s.proxies, s.nextSeq)
  }

  ghost predicate Inv(s: Store) {
    Core(s) && Bounded(s.proxies)
  }

  // ----- Consequences -----

  /** The base version of every tracked proxy is its Engine's current version. */
  lemma TrackedBase(s: Store, k: string)
    requires Inv(s) && k in s.proxies
    ensures k in s.cache && s.proxies[k].engineKey in s.meta
    ensures RetryBase(s.cache[k].version) == s.meta[s.proxies[k].engineKey].version
  {
    var m := s.meta[s.proxies[k].engineKey];
    if s.cache[k] == Compiled(m) {
      PlainDecodes(m.version);
    } else {
      var n :| Rejected(m, n) == Some(s.cache[k]);
      DerivedBase(m.version, n);
    }
  }

  /** Engine keys and proxy keys never collide. */
  lemma KeysDisjoint(meta: map<string, Snapshot>, p: map<string, Proxy>, cache: map<string, Cached>)
    requires Named(meta) && Tracked(meta, p, cache)
    ensures meta.Keys !! p.Keys
  {
    forall k | k in meta ensures !IsProxyKey(k) { EngineKeyIsPlain(meta[k]); }
  }

  lemma EngineKeyIsPlain(m: Snapshot)
    requires Wellformed(m.namespace, m.engineName, m.uid)
    ensures !IsProxyKey(EngineKey(m))
  {
  }

  /** Resource names identify Engine keys. */
  lemma SameNameSameEngine(a: Snapshot, b: Snapshot)
    requires Publishable(a) && Publishable(b) && a.resourceName == b.resourceName
    ensures EngineKey(a) == EngineKey(b)
  {
    ResourceNameInjective(a.namespace, a.engineName, a.uid, b.namespace, b.engineName, b.uid);
  }

  lemma InactiveSubset(p: map<string, Proxy>, q: map<string, Proxy>, e: string)
    requires Inactive(q, e) <= Inactive(p, e)
    ensures |Inactive(q, e)| <= |Inactive(p, e)|
  {
    Cardinal(Inactive(q, e), Inactive(p, e));
  }

  // ----- Replace -----

  lemma ReplaceIndexed(s: Store, m: Snapshot)
    requires Named(s.meta) && Indexed(s.meta, s.resources) && Publishable(m)
    ensures Indexed(Replace(s, m).meta, Replace(s, m).resources)
  {
    var s', key := Replace(s, m), EngineKey(m);
    forall k | k in s.meta && s.meta[k].resourceName == m.resourceName ensures k == key {
      SameNameSameEngine(s.meta[k], m);
    }
    forall k | k in s'.meta
      ensures s'.meta[k].resourceName in s'.resources && s'.resources[s'.meta[k].resourceName] == k
    {
      if k != key { assert k in s.meta && s.meta[k].resourceName != m.resourceName; }
    }
  }

  lemma ReplaceShared(s: Store, m: Snapshot)
    requires s.meta.Keys !! s.proxies.Keys && EngineKey(m) !in s.proxies
    requires Shared(s.meta, s.proxies, s.cache)
    ensures Shared(Replace(s, m).meta, Replace(s, m).proxies, Replace(s, m).cache)
  {
    var s', key := Replace(s, m), EngineKey(m);
    var ks := ProxiesOf(s.proxies, key);
    assert forall k :: k in s'.cache <==> k in s.cache.Keys + {key} + ks && !(k in ks && s.proxies[k].active == 0);
    assert s'.cache.Keys == s'.meta.Keys + s'.proxies.Keys;
  }

  lemma ReplaceTracked(s: Store, m: Snapshot)
    requires EngineKey(m) !in s.proxies
    requires Tracked(s.meta, s.proxies, s.cache)
    ensures Tracked(Replace(s, m).meta, Replace(s, m).proxies, Replace(s, m).cache)
  {
    var s', key := Replace(s, m), EngineKey(m);
    forall k | k in s'.proxies
      ensures k in s'.cache && s'.proxies[k].engineKey in s'.meta
      ensures Serves(s'.cache[k], s'.meta[s'.proxies[k].engineKey])
    {
      assert s'.proxies[k].engineKey == s.proxies[k].engineKey;
      if k in ProxiesOf(s.proxies, key) {
        assert s'.cache[k] == Compiled(m);
      } else {
        assert s'.cache[k] == s.cache[k];
      }
    }
  }

  lemma ReplaceBounded(s: Store, m: Snapshot)
    requires Ordered(s.proxies, s.nextSeq) && Bounded(s.proxies)
    ensures Ordered(Replace(s, m).proxies, Replace(s, m).nextSeq) && Bounded(Replace(s, m).proxies)
  {
    var s' := Replace(s, m);
    forall e ensures |Inactive(s'.proxies, e)| <= MAX_INACTIVE {
      InactiveSubset(s.proxies, s'.proxies, e);
    }
  }

  lemma ReplaceInv(s: Store, m: Snapshot)
    requires Inv(s) && Publishable(m)
    ensures Inv(Replace(s, m))
  {
    KeysDisjoint(s.meta, s.proxies, s.cache);
    EngineKeyIsPlain(m);
    ReplaceIndexed(s, m);
    ReplaceShared(s, m);
    ReplaceTracked(s, m);
    ReplaceBounded(s, m);
  }

  // ----- Eviction -----

  function KeyOrder(p: map<string, Proxy>): (string, string) -> bool {
    (a: string, b: string) => SeqOf(p, a) <= SeqOf(p, b)
  }

  function SeqOf(p: map<string, Proxy>, k: string): nat {
    if k in p then p[k].seqNo else 0
  }

  /** xs lists the candidates c, oldest first. */
  ghost predicate OldestFirst(p: map<string, Proxy>, c: set<string>, xs: seq<string>) {
    && c <= p.Keys
    && Elements(xs) == c
    && forall i, j | 0 <= i < j < |xs| :: xs[i] in p && xs[j] in p && p[xs[i]].seqNo < p[xs[j]].seqNo
  }

  lemma NewerIsTail(p: map<string, Proxy>, c: set<string>, xs: seq<string>, i: nat)
    requires OldestFirst(p, c, xs) && i < |xs|
    ensures xs[i] in c && |Newer(p, c, xs[i])| == |xs| - 1 - i
  {
    assert xs[i] in Elements(xs);
    assert Newer(p, c, xs[i]) == Elements(xs[i + 1..]) by {
      forall k | k in Newer(p, c, xs[i]) ensures k in Elements(xs[i + 1..]) {
        var j :| 0 <= j < |xs| && xs[j] == k;
        assert j > i;
        assert xs[i + 1..][j - i - 1] == k;
      }
    }
    DistinctCardinal(xs[i + 1..]);
  }

  /** Cutting the sorted candidates leaves exactly the newest 32. */
  lemma SurplusIsPrefix(p: map<string, Proxy>, e: string, xs: seq<string>)
    requires OldestFirst(p, Inactive(p, e), xs)
    ensures Surplus(p, e) == if |xs| <= 32 then {} else Elements(xs[..|xs| - 32])
  {
    var c := Inactive(p, e);
    forall i | 0 <= i < |xs| ensures xs[i] in Surplus(p, e) <==> i < |xs| - MAX_INACTIVE {
      NewerIsTail(p, c, xs, i);
    }
    forall k | k in Surplus(p, e) ensures k in Elements(xs) {
    }
  }

  ghost function Listing(c: set<string>): (xs: seq<string>)
    ensures Elements(xs) == c && Distinct(xs)
  {
    if c == {} then [] else
      var k :| k in c;
      var xs := Listing(c - {k});
      assert Elements([k] + xs) == {k} + Elements(xs) == c;
      [k] + xs
  }

  lemma DistinctMultiset<T>(xs: seq<T>)
    requires Distinct(xs)
    ensures forall x | x in xs :: multiset(xs)[x] == 1
  {
    if xs != [] {
      assert xs == [xs[0]] + xs[1..];
      DistinctMultiset(xs[1..]);
    }
  }

  lemma MultisetDistinct<T>(xs: seq<T>)
    requires forall x | x in xs :: multiset(xs)[x] == 1
    ensures Distinct(xs)
  {
    forall i, j | 0 <= i < j < |xs| ensures xs[i] != xs[j] {
      assert xs == xs[..j] + xs[j..];
      assert xs[..j][i] in multiset(xs[..j]);
      assert xs[j..][0] in multiset(xs[j..]);
      assert multiset(xs)[xs[i]] == multiset(xs[..j])[xs[i]] + multiset(xs[j..])[xs[i]];
    }
  }

  lemma KeyOrderIsOrder(p: map<string, Proxy>)
    ensures Total(KeyOrder(p)) && Transitive(KeyOrder(p))
  {
  }

  lemma SortKeepsDistinct<T>(le: (T, T) -> bool, xs: seq<T>)
    requires Distinct(xs)
    ensures Distinct(Sort(le, xs)) && Elements(Sort(le, xs)) == Elements(xs)
  {
    SortMembers(le, xs);
    DistinctMultiset(xs);
    MultisetDistinct(Sort(le, xs));
  }

  /** sort.Slice on any listing of the candidates puts the oldest first. */
  lemma SortOldestFirst(p: map<string, Proxy>, c: set<string>, xs: seq<string>)
    requires c <= p.Keys && Elements(xs) == c && Distinct(xs)
    requires forall j, k | j in c && k in c && j != k :: p[j].seqNo != p[k].seqNo
    ensures OldestFirst(p, c, Sort(KeyOrder(p), xs))
  {
    var ys := Sort(KeyOrder(p), xs);
    assert Sorted(KeyOrder(p), ys) by {
      KeyOrderIsOrder(p);
      SortSorted(KeyOrder(p), xs);
    }
    SortKeepsDistinct(KeyOrder(p), xs);
    forall i, j | 0 <= i < j < |ys| ensures ys[i] in p && ys[j] in p && p[ys[i]].seqNo < p[ys[j]].seqNo {
      assert ys[i] in Elements(ys) && ys[j] in Elements(ys);
      assert KeyOrder(p)(ys[i], ys[j]);
    }
  }

  lemma OldestFirstExists(s: Store, e: string) returns (xs: seq<string>)
    requires Ordered(s.proxies, s.nextSeq)
    ensures OldestFirst(s.proxies, Inactive(s.proxies, e), xs) && Distinct(xs)
    ensures |xs| == |Inactive(s.proxies, e)|
  {
    var c := Inactive(s.proxies, e);
    xs := Sort(KeyOrder(s.proxies), Listing(c));
    SortKeepsDistinct(KeyOrder(s.proxies), Listing(c));
    SortOldestFirst(s.proxies, c, Listing(c));
    DistinctCardinal(xs);
  }

  lemma NoSurplus(s: Store, e: string)
    requires |Inactive(s.proxies, e)| <= MAX_INACTIVE
    ensures Surplus(s.proxies, e) == {} && Evict(s, e) == s && s.proxies - {} == s.proxies
  {
    var c := Inactive(s.proxies, e);
    forall k | k in c ensures |Newer(s.proxies, c, k)| < MAX_INACTIVE {
      Cardinal(Newer(s.proxies, c, k), c - {k});
    }
    assert s.proxies - {} == s.proxies && s.cache - {} == s.cache;
  }

  lemma InactiveMinus(p: map<string, Proxy>, ks: set<string>, e: string)
    ensures Inactive(p - ks, e) == Inactive(p, e) - ks
  {
  }

  lemma ElementsSplit<T>(xs: seq<T>, n: nat)
    requires n <= |xs|
    ensures Elements(xs) - Elements(xs[..n]) <= Elements(xs[n..])
  {
    assert xs == xs[..n] + xs[n..];
  }

  lemma DistinctTail<T>(xs: seq<T>, n: nat)
    requires Distinct(xs) && n <= |xs|
    ensures Distinct(xs[n..])
  {
  }

  /** Without its first n elements a listing has the others. */
  lemma CutLeaves<T>(xs: seq<T>, n: nat)
    requires Distinct(xs) && n <= |xs|
    ensures |Elements(xs) - Elements(xs[..n])| <= |xs| - n
  {
    ElementsSplit(xs, n);
    DistinctTail(xs, n);
    DistinctCardinal(xs[n..]);
    Cardinal(Elements(xs) - Elements(xs[..n]), Elements(xs[n..]));
  }

  lemma CutBound(c: set<string>, cut: set<string>, xs: seq<string>, n: nat)
    requires Distinct(xs) && n <= |xs| && c == Elements(xs) && cut == Elements(xs[..n])
    ensures |c - cut| <= |xs| - n
  {
    CutLeaves(xs, n);
  }

  /** All but MAX_INACTIVE of the candidates are surplus. */
  lemma SurplusLeaves(s: Store, e: string)
    requires Ordered(s.proxies, s.nextSeq) && |Inactive(s.proxies, e)| > MAX_INACTIVE
    ensures |Inactive(s.proxies, e) - Surplus(s.proxies, e)| <= MAX_INACTIVE
  {
    var xs := OldestFirstExists(s, e);
    SurplusIsPrefix(s.proxies, e, xs);
    CutBound(Inactive(s.proxies, e), Surplus(s.proxies, e), xs, |xs| - MAX_INACTIVE);
  }

  lemma EvictedInactive(s: Store, e: string)
    ensures |Inactive(Evict(s, e).proxies, e)| == |Inactive(s.proxies, e) - Surplus(s.proxies, e)|
  {
    InactiveMinus(s.proxies, Surplus(s.proxies, e), e);
  }

  /** Eviction brings one Engine within the bound. */
  lemma EvictBounds(s: Store, e: string)
    requires Ordered(s.proxies, s.nextSeq)
    ensures |Inactive(Evict(s, e).proxies, e)| <= 32
  {
    if |Inactive(s.proxies, e)| > MAX_INACTIVE {
      EvictedInactive(s, e);
      SurplusLeaves(s, e);
    } else {
      NoSurplus(s, e);
    }
  }

  /** The snapshot that is newest in its Engine survives. */
  lemma EvictKeepsNewest(s: Store, e: string, k: string)
    requires k in s.proxies && forall j | j in s.proxies && j != k :: s.proxies[j].seqNo < s.proxies[k].seqNo
    ensures k in Evict(s, e).proxies && Evict(s, e).proxies[k] == s.proxies[k]
    ensures k in s.cache ==> k in Evict(s, e).cache && Evict(s, e).cache[k] == s.cache[k]
  {
    assert Newer(s.proxies, Inactive(s.proxies, e), k) == {};
  }

  /** Only disconnected, unacknowledged snapshots of that Engine are evicted, and every survivor
      among them is newer than every victim. */
  lemma EvictOldest(s: Store, e: string, victim: string, kept: string)
    requires victim in s.proxies && victim !in Evict(s, e).proxies
    requires kept in Inactive(Evict(s, e).proxies, e)
    ensures victim in Inactive(s.proxies, e)
    ensures s.proxies[victim].seqNo <= s.proxies[kept].seqNo
  {
    var p := s.proxies;
    var c := Inactive(p, e);
    if p[victim].seqNo > p[kept].seqNo {
      Cardinal(Newer(p, c, victim), Newer(p, c, kept));
    }
  }

  // ----- Retry operations -----

  ghost predicate BoundedExcept(p: map<string, Proxy>, e: string) {
    forall f | f != e :: |Inactive(p, f)| <= MAX_INACTIVE
  }

  /** Retry operations never alter a shared Engine snapshot. */
  ghost predicate SharedUnchanged(s: Store, s': Store) {
    && s'.meta == s.meta && s'.resources == s.resources
    && forall k | k in s.meta :: k in s.cache && k in s'.cache && s'.cache[k] == s.cache[k]
  }

  lemma PutTracked(s: Store, k: string, p: Proxy, c: Cached)
    requires Tracked(s.meta, s.proxies, s.cache) && IsProxyKey(k)
    requires p.engineKey in s.meta && Serves(c, s.meta[p.engineKey])
    ensures Tracked(s.meta, s.proxies[k := p], s.cache[k := c])
  {
  }

  lemma PutShared(s: Store, k: string, p: Proxy, c: Cached)
    requires Shared(s.meta, s.proxies, s.cache) && k !in s.meta
    ensures Shared(s.meta, s.proxies[k := p], s.cache[k := c])
  {
    assert s.cache[k := c].Keys == s.meta.Keys + s.proxies[k := p].Keys;
  }

  lemma PutCore(s: Store, k: string, p: Proxy, c: Cached, next: nat)
    requires Core(s) && IsProxyKey(k)
    requires p.engineKey in s.meta && Serves(c, s.meta[p.engineKey]) && NumberedNext(s, k, p, next)
    ensures Core(Put(s, k, p, c, next)) && SharedUnchanged(s, Put(s, k, p, c, next))
  {
    assert k !in s.meta by { if k in s.meta { EngineKeyIsPlain(s.meta[k]); } }
    PutTracked(s, k, p, c);
    PutShared(s, k, p, c);
    PutOrdered(s, k, p, next);
  }

  lemma PutOrdered(s: Store, k: string, p: Proxy, next: nat)
    requires Ordered(s.proxies, s.nextSeq) && NumberedNext(s, k, p, next)
    ensures Ordered(s.proxies[k := p], next)
  {
  }

  lemma DropCore(s: Store, ks: set<string>)
    requires Core(s) && ks <= s.proxies.Keys
    ensures Core(Drop(s, ks)) && SharedUnchanged(s, Drop(s, ks))
    ensures forall e :: Inactive(Drop(s, ks).proxies, e) <= Inactive(s.proxies, e)
  {
    KeysDisjoint(s.meta, s.proxies, s.cache);
    DropShared(s, ks);
    DropTracked(s, ks);
  }

  lemma DropShared(s: Store, ks: set<string>)
    requires Shared(s.meta, s.proxies, s.cache) && s.meta.Keys !! s.proxies.Keys && ks <= s.proxies.Keys
    ensures Shared(s.meta, Drop(s, ks).proxies, Drop(s, ks).cache)
  {
    assert Drop(s, ks).cache.Keys == s.meta.Keys + Drop(s, ks).proxies.Keys;
  }

  lemma DropTracked(s: Store, ks: set<string>)
    requires Tracked(s.meta, s.proxies, s.cache)
    ensures Tracked(s.meta, Drop(s, ks).proxies, Drop(s, ks).cache)
  {
    var s' := Drop(s, ks);
    forall j | j in s'.proxies ensures j in s'.cache && Serves(s'.cache[j], s.meta[s'.proxies[j].engineKey]) {
      assert s'.cache[j] == s.cache[j];
    }
  }

  lemma EvictInv(s: Store, e: string)
    requires Core(s) && BoundedExcept(s.proxies, e)
    ensures Inv(Evict(s, e)) && SharedUnchanged(s, Evict(s, e))
  {
    DropCore(s, Surplus(s.proxies, e));
    EvictBounds(s, e);
    var s' := Evict(s, e);
    forall f ensures |Inactive(s'.proxies, f)| <= MAX_INACTIVE {
      if f != e { InactiveSubset(s.proxies, s'.proxies, f); }
    }
  }

  lemma PutBounded(s: Store, k: string, p: Proxy)
    requires Bounded(s.proxies)
    requires k in s.proxies ==> s.proxies[k].engineKey == p.engineKey
    ensures BoundedExcept(s.proxies[k := p], p.engineKey)
    ensures p.active > 0 || !p.unacked ==> Bounded(s.proxies[k := p])
  {
    var q := s.proxies[k := p];
    forall f | f != p.engineKey || p.active > 0 || !p.unacked ensures |Inactive(q, f)| <= MAX_INACTIVE {
      InactiveSubset(s.proxies, q, f);
    }
  }

  lemma PlanServes(s: Store, k: string, resourceName: string, accepted: string, attempt: int, version: string)
    requires Tracked(s.meta, s.proxies, s.cache)
    ensures var plan := BumpPlan(s, resourceName, k, accepted, attempt);
      plan.Install? ==> plan.proxy.engineKey in s.meta && Serves(plan.cached, s.meta[plan.proxy.engineKey])
    ensures var plan := BindPlan(s, resourceName, k, version);
      plan.Install? ==> plan.proxy.engineKey in s.meta && Serves(plan.cached, s.meta[plan.proxy.engineKey])
  {
    var bump, bind := BumpPlan(s, resourceName, k, accepted, attempt), BindPlan(s, resourceName, k, version);
    if bump.Install? {
      assert Rejected(s.meta[bump.proxy.engineKey], attempt) == Some(bump.cached);
    }
    if bind.Install? && !(k in s.proxies && bind.cached == s.cache[k]) {
      assert Rejected(s.meta[bind.proxy.engineKey], RetryAttempt(version)) == Some(bind.cached);
    }
  }

  lemma InstallCore(s: Store, k: string, plan: Plan)
    requires Inv(s) && IsProxyKey(k) && plan.Install? && Sound(s, k, plan)
    requires Serves(plan.cached, s.meta[plan.proxy.engineKey])
    ensures var t := Put(s, k, plan.proxy, plan.cached, plan.next);
      && Core(t) && SharedUnchanged(s, t) && BoundedExcept(t.proxies, plan.proxy.engineKey)
      && (plan.proxy.active > 0 ==> Bounded(t.proxies))
  {
    PutCore(s, k, plan.proxy, plan.cached, plan.next);
    PutBounded(s, k, plan.proxy);
  }

  /** A bump keeps the invariant, installs exactly the retry it was asked for and never evicts the
      proxy it was made for. */
  lemma BumpInv(s: Store, resourceName: string, k: string, accepted: string, attempt: int)
    requires Inv(s) && IsProxyKey(k)
    requires Bump(s, resourceName, k, accepted, attempt).Some?
    ensures var s' := Bump(s, resourceName, k, accepted, attempt).value;
      && Inv(s') && SharedUnchanged(s, s')
      && k in s'.proxies && s'.proxies[k].unacked && k in s'.cache
      && Rejected(s.meta[s.resources[resourceName]], attempt) == Some(s'.cache[k])
  {
    var plan := BumpPlan(s, resourceName, k, accepted, attempt);
    var t, e := Put(s, k, plan.proxy, plan.cached, plan.next), plan.proxy.engineKey;
    PlanServes(s, k, resourceName, accepted, attempt, "");
    InstallCore(s, k, plan);
    EvictInv(t, e);
    SharedTrans(s, t, Evict(t, e));
    NewestByNumber(s, k, plan.proxy, plan.next);
    EvictKeepsNewest(t, e, k);
  }

  lemma NewestByNumber(s: Store, k: string, p: Proxy, next: nat)
    requires Ordered(s.proxies, s.nextSeq) && p.seqNo == s.nextSeq
    ensures var q := s.proxies[k := p]; forall j | j in q && j != k :: q[j].seqNo < q[k].seqNo
  {
  }

  lemma BindInv(s: Store, resourceName: string, k: string, version: string)
    requires Inv(s) && IsProxyKey(k)
    ensures Inv(Bind(s, resourceName, k, version)) && SharedUnchanged(s, Bind(s, resourceName, k, version))
  {
    var plan := BindPlan(s, resourceName, k, version);
    SharedRefl(s);
    if plan.Install? {
      PlanServes(s, k, resourceName, "", 0, version);
      InstallCore(s, k, plan);
    }
  }

  lemma AckIsPut(s: Store, k: string, version: string)
    requires Ack(s, k, version) != s
    ensures k in s.proxies && k in s.cache
    ensures Ack(s, k, version) == Put(s, k, s.proxies[k].(unacked := false), s.cache[k], s.nextSeq)
  {
    assert k in s.cache ==> s.cache[k := s.cache[k]] == s.cache;
  }

  lemma AckInv(s: Store, proxyKey: string, version: string)
    requires Inv(s)
    ensures Inv(Ack(s, proxyKey, version)) && SharedUnchanged(s, Ack(s, proxyKey, version))
  {
    SharedRefl(s);
    if Ack(s, proxyKey, version) != s {
      var p := s.proxies[proxyKey].(unacked := false);
      AckIsPut(s, proxyKey, version);
      PutCore(s, proxyKey, p, s.cache[proxyKey], s.nextSeq);
      PutBounded(s, proxyKey, p);
    }
  }

  lemma SharedRefl(s: Store)
    requires Shared(s.meta, s.proxies, s.cache)
    ensures SharedUnchanged(s, s)
  {
  }

  lemma SharedTrans(s: Store, t: Store, u: Store)
    requires SharedUnchanged(s, t) && SharedUnchanged(t, u)
    ensures SharedUnchanged(s, u)
  {
  }

  lemma LetGoIsPut(s: Store, k: string)
    requires k in s.proxies && k in s.cache
    ensures LetGo(s, k) == Put(s, k, LetGo(s, k).proxies[k], s.cache[k], LetGo(s, k).nextSeq)
  {
    assert s.cache[k := s.cache[k]] == s.cache;
  }

  /** Everything ReleaseRejectedRetry does before it evicts. */
  lemma ReleasedCore(s: Store, k: string)
    requires Inv(s) && k in s.proxies
    ensures Core(Released(s, k)) && SharedUnchanged(s, Released(s, k))
    ensures BoundedExcept(Released(s, k).proxies, s.proxies[k].engineKey)
  {
    var t := LetGo(s, k);
    LetGoIsPut(s, k);
    PutCore(s, k, t.proxies[k], s.cache[k], t.nextSeq);
    PutBounded(s, k, t.proxies[k]);
    if Released(s, k) != t {
      DropCore(t, {k});
      DropBounded(t, {k}, s.proxies[k].engineKey);
      SharedTrans(s, t, Drop(t, {k}));
    }
  }

  lemma DropBounded(s: Store, ks: set<string>, e: string)
    requires BoundedExcept(s.proxies, e)
    ensures BoundedExcept(Drop(s, ks).proxies, e)
  {
    forall f | f != e ensures |Inactive(Drop(s, ks).proxies, f)| <= MAX_INACTIVE {
      InactiveSubset(s.proxies, Drop(s, ks).proxies, f);
    }
  }

  /** Releasing keeps the invariant; the snapshot of a proxy that just disconnected without
      acknowledging its retry survives. */
  lemma ReleaseInv(s: Store, k: string)
    requires Inv(s)
    ensures Inv(Release(s, k)) && SharedUnchanged(s, Release(s, k))
    ensures k in s.proxies && s.proxies[k].active <= 1 && s.proxies[k].unacked ==>
      k in Release(s, k).proxies && k in Release(s, k).cache && Release(s, k).cache[k] == s.cache[k]
  {
    if k in s.proxies {
      var e, t := s.proxies[k].engineKey, Released(s, k);
      ReleasedCore(s, k);
      EvictInv(t, e);
      SharedTrans(s, t, Evict(t, e));
      if s.proxies[k].active <= 1 && s.proxies[k].unacked {
        ReleaseRetains(s, k);
      }
    }
  }

  lemma ReleaseRetains(s: Store, k: string)
    requires Ordered(s.proxies, s.nextSeq) && k in s.proxies && k in s.cache && s.proxies[k].active <= 1
    requires s.proxies[k].unacked
    ensures k in Release(s, k).proxies && k in Release(s, k).cache && Release(s, k).cache[k] == s.cache[k]
  {
    var p := AfterRelease(s.proxies[k], s.nextSeq);
    assert Released(s, k) == LetGo(s, k);
    NewestByNumber(s, k, p, s.nextSeq + 1);
    EvictKeepsNewest(LetGo(s, k), s.proxies[k].engineKey, k);
  }

  // ----- Delete -----

  lemma DeleteIndexed(s: Store, namespace: string, engineName: string)
    requires Indexed(s.meta, s.resources) && "" !in s.resources
    ensures Indexed(Delete(s, namespace, engineName).meta, Delete(s, namespace, engineName).resources)
  {
    var s' := Delete(s, namespace, engineName);
    forall k | k in s'.meta ensures s'.meta[k].resourceName in s'.resources {
      assert s.resources[s.meta[k].resourceName] == k;
    }
    forall n | n in s'.resources ensures s'.resources[n] in s'.meta {
      assert s.meta[s.resources[n]].resourceName == n;
    }
  }

  lemma DeleteTracked(s: Store, namespace: string, engineName: string)
    requires Tracked(s.meta, s.proxies, s.cache) && Key(namespace, engineName) !in s.proxies
    ensures var s' := Delete(s, namespace, engineName); Tracked(s'.meta, s'.proxies, s'.cache)
  {
    var s' := Delete(s, namespace, engineName);
    forall j | j in s'.proxies
      ensures j in s'.cache && s'.proxies[j].engineKey in s'.meta
      ensures Serves(s'.cache[j], s'.meta[s'.proxies[j].engineKey])
    {
      assert s'.cache[j] == s.cache[j];
    }
  }

  lemma DeleteShared(s: Store, namespace: string, engineName: string)
    requires Shared(s.meta, s.proxies, s.cache) && Key(namespace, engineName) !in s.proxies
    requires s.meta.Keys !! s.proxies.Keys
    ensures var s' := Delete(s, namespace, engineName); Shared(s'.meta, s'.proxies, s'.cache)
  {
    var s' := Delete(s, namespace, engineName);
    assert s'.cache.Keys == s'.meta.Keys + s'.proxies.Keys;
  }

  lemma DeleteInv(s: Store, namespace: string, engineName: string)
    requires Inv(s) && '\0' !in namespace && '\0' !in engineName
    ensures Inv(Delete(s, namespace, engineName))
  {
    var s' := Delete(s, namespace, engineName);
    KeysDisjoint(s.meta, s.proxies, s.cache);
    assert !IsProxyKey(Key(namespace, engineName));
    assert "" !in s.resources;
    DeleteIndexed(s, namespace, engineName);
    DeleteTracked(s, namespace, engineName);
    DeleteShared(s, namespace, engineName);
    forall e ensures |Inactive(s'.proxies, e)| <= MAX_INACTIVE {
      InactiveSubset(s.proxies, s'.proxies, e);
    }
  }
}
