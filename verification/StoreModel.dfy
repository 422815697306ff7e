/** The snapshot store as a value: one shared snapshot per Engine, isolated retry snapshots per
    proxy, and the operations on them. SetSnapshot and ClearSnapshot are total map updates. */
module StoreModel {
  import opened Strings
  import opened Names
  import opened RetryVersion

  /** A TypedExtensionConfig: its name, the VM id of its WASM configuration (None when the
      configuration cannot be decoded or has no VM), and everything else. */
  datatype Resource = Resource(name: string, vm: Option<string>, config: string)

  datatype Snapshot = Snapshot(resourceName: string, namespace: string, engineName: string, uid: string,
                               ruleSetHash: string, version: string, resource: Resource)

  datatype Cached = Cached(version: string, resource: Resource)

  datatype Proxy = Proxy(engineKey: string, active: nat, unacked: bool, seqNo: nat)

  datatype Store = Store(meta: map<string, Snapshot>, proxies: map<string, Proxy>,
                         resources: map<string, string>, nextSeq: nat, cache: map<string, Cached>)

  const MAX_INACTIVE := 32

  const EMPTY := Store(map[], map[], map[], 0, map[])

  function EngineKey(snapshot: Snapshot): string { Key(snapshot.namespace, snapshot.engineName) }

  function Compiled(snapshot: Snapshot): Cached { Cached(snapshot.version, snapshot.resource) }

  /** rejectedSnapshot: the same configuration under a derived version and VM id. */
  function Rejected(meta: Snapshot, attempt: int): Option<Cached> {
    match meta.resource.vm
    case None => None
    case Some(id) => Some(Cached(Derived(meta.version, attempt), meta.resource.(vm := Some(Derived(id, attempt)))))
  }

  /** snapshotForResourceLocked */
  function Lookup(s: Store, resourceName: string): Option<string> {
    if resourceName in s.resources && s.resources[resourceName] in s.meta then Some(s.resources[resourceName]) else None
  }

  // ----- Replace -----

  /** The proxies in ks after a republish: idle ones are dropped, the others lose their retry mark. */
  function Refreshed(p: map<string, Proxy>, ks: set<string>): map<string, Proxy> {
    map k | k in p && !(k in ks && p[k].active == 0) :: if k in ks then p[k].(unacked := false) else p[k]
  }

  function RefreshedCache(c: map<string, Cached>, p: map<string, Proxy>, ks: set<string>,
                          compiled: Cached): map<string, Cached>
    requires ks <= p.Keys
  {
    map k | k in c.Keys + ks && !(k in ks && p[k].active == 0) :: if k in ks then compiled else c[k]
  }

  function ProxiesOf(p: map<string, Proxy>, engineKey: string): set<string> {
    set k | k in p && p[k].engineKey == engineKey
  }

  function ReplacedNames(s: Store, snapshot: Snapshot): map<string, string> {
    var key := EngineKey(snapshot);
    var kept := if key in s.meta && s.meta[key].resourceName != snapshot.resourceName
                then s.resources - {s.meta[key].resourceName} else s.resources;
    kept[snapshot.resourceName := key]
  }

  function Replace(s: Store, snapshot: Snapshot): Store {
    var key := EngineKey(snapshot);
    var ks := ProxiesOf(s.proxies, key);
    Store(s.meta[key := snapshot], Refreshed(s.proxies, ks), ReplacedNames(s, snapshot), s.nextSeq,
          RefreshedCache(s.cache[key := Compiled(snapshot)], s.proxies, ks, Compiled(snapshot)))
  }

  // ----- Eviction -----

  /** Disconnected, unacknowledged retry snapshots of one Engine. */
  function Inactive(p: map<string, Proxy>, engineKey: string): set<string> {
    set k | k in p && p[k].engineKey == engineKey && p[k].active == 0 && p[k].unacked
  }

  function Newer(p: map<string, Proxy>, c: set<string>, k: string): set<string>
    requires c <= p.Keys && k in p
  {
    set j | j in c && p[j].seqNo > p[k].seqNo
  }

  /** Everything but the newest MAX_INACTIVE. */
  function Surplus(p: map<string, Proxy>, engineKey: string): set<string> {
    var c := Inactive(p, engineKey);
    set k | k in c && |Newer(p, c, k)| >= MAX_INACTIVE
  }

  function Drop(s: Store, ks: set<string>): Store {
    s.(proxies := s.proxies - ks, cache := s.cache - ks)
  }

  function Evict(s: Store, engineKey: string): Store {
    Drop(s, Surplus(s.proxies, engineKey))
  }

  // ----- Retry operations -----

  function Put(s: Store, k: string, p: Proxy, c: Cached, next: nat): Store {
    s.(proxies := s.proxies[k := p], cache := s.cache[k := c], nextSeq := next)
  }

  /** The proxy is given the next sequence number, or keeps its own. */
  predicate NumberedNext(s: Store, k: string, p: Proxy, next: nat) {
    || (p.seqNo == s.nextSeq && next == s.nextSeq + 1)
    || (k in s.proxies && p.seqNo == s.proxies[k].seqNo && next == s.nextSeq)
  }

  /** What a retry operation decides under the lock: nothing to do, an error, or the record and
      snapshot to install for the proxy. */
  datatype Plan = Nothing | Failed | Install(proxy: Proxy, cached: Cached, next: nat)

  predicate Sound(s: Store, k: string, plan: Plan) {
    plan.Install? ==>
      && NumberedNext(s, k, plan.proxy, plan.next)
      && plan.proxy.engineKey in s.meta
      && (k in s.proxies ==> s.proxies[k].engineKey == plan.proxy.engineKey)
  }

  /** BumpRejected up to its first write. */
  function BumpPlan(s: Store, resourceName: string, proxyKey: string, accepted: string, attempt: int): (plan: Plan)
    ensures !plan.Nothing? && Sound(s, proxyKey, plan)
  {
    match Lookup(s, resourceName)
    case None => Failed
    case Some(key) =>
      if proxyKey == "" || proxyKey == key then Failed
      else if accepted != "" && s.meta[key].version != accepted then Failed
      else if proxyKey in s.proxies && s.proxies[proxyKey].engineKey != key then Failed
      else match Rejected(s.meta[key], attempt)
        case None => Failed
        case Some(c) =>
          var active := if proxyKey in s.proxies then s.proxies[proxyKey].active else 0;
          Install(Proxy(key, active, true, s.nextSeq), c, s.nextSeq + 1)
  }

  /** BumpRejected: None is an error return, which changes nothing. */
  function Bump(s: Store, resourceName: string, proxyKey: string, accepted: string, attempt: int): Option<Store> {
    match BumpPlan(s, resourceName, proxyKey, accepted, attempt)
    case Install(p, c, next) => Some(Evict(Put(s, proxyKey, p, c, next), p.engineKey))
    case _ => None
  }

  predicate IsRetryOf(version: string, accepted: string) {
    RetryAttempt(version) > 0 && RetryBase(version) == accepted
  }

  predicate HoldsRetry(s: Store, proxyKey: string, version: string) {
    proxyKey in s.cache && IsRetryOf(s.cache[proxyKey].version, version)
  }

  /** The last part of BindRejectedRetry: the retry the proxy says it has is made again. */
  function Restored(s: Store, key: string, proxyKey: string, version: string): Plan
    requires key in s.meta
  {
    if !IsRetryOf(version, s.meta[key].version) then Nothing
    else match Rejected(s.meta[key], RetryAttempt(version))
      case None => Failed
      case Some(c) =>
        if proxyKey in s.proxies then
          var p := s.proxies[proxyKey];
          Install(p.(active := p.active + 1), c, s.nextSeq)
        else Install(Proxy(key, 1, false, s.nextSeq), c, s.nextSeq + 1)
  }

  /** BindRejectedRetry up to its first write. */
  function BindPlan(s: Store, resourceName: string, proxyKey: string, version: string): (plan: Plan)
    ensures Sound(s, proxyKey, plan) && (plan.Install? ==> plan.proxy.active > 0)
  {
    match Lookup(s, resourceName)
    case None => Nothing
    case Some(key) =>
      if proxyKey in s.proxies && s.proxies[proxyKey].engineKey != key then Failed
      else if proxyKey in s.proxies && HoldsRetry(s, proxyKey, s.meta[key].version) then
        var p := s.proxies[proxyKey];
        Install(p.(active := p.active + 1), s.cache[proxyKey], s.nextSeq)
      else Restored(s, key, proxyKey, version)
  }

  /** BindRejectedRetry: the plan says whether the stream is bound. */
  function Bind(s: Store, resourceName: string, proxyKey: string, version: string): Store {
    match BindPlan(s, resourceName, proxyKey, version)
    case Install(p, c, next) => Put(s, proxyKey, p, c, next)
    case _ => s
  }

  /** CurrentVersionFor: None is an error return. */
  function CurrentVersionFor(s: Store, resourceName: string, proxyKey: string): Option<string> {
    match Lookup(s, resourceName)
    case None => None
    case Some(key) =>
      if proxyKey in s.proxies && s.proxies[proxyKey].engineKey == key && HoldsRetry(s, proxyKey, s.meta[key].version)
      then Some(s.cache[proxyKey].version)
      else if key in s.cache then Some(s.cache[key].version) else None
  }

  /** AckRejected */
  function Ack(s: Store, proxyKey: string, version: string): Store {
    if proxyKey !in s.proxies || RetryAttempt(version) == 0 then s
    else if proxyKey in s.cache && s.cache[proxyKey].version == version
    then s.(proxies := s.proxies[proxyKey := s.proxies[proxyKey].(unacked := false)])
    else s
  }

  /** The record of a proxy after one stream let go; a proxy left idle becomes the newest. */
  function AfterRelease(p: Proxy, next: nat): Proxy {
    if p.active <= 1 then p.(active := 0, seqNo := next) else p.(active := p.active - 1)
  }

  function LetGo(s: Store, k: string): Store
    requires k in s.proxies
  {
    var p := s.proxies[k];
    s.(proxies := s.proxies[k := AfterRelease(p, s.nextSeq)],
       nextSeq := if p.active <= 1 then s.nextSeq + 1 else s.nextSeq)
  }

  /** ReleaseRejectedRetry up to the eviction: an idle, acknowledged proxy is forgotten. */
  function Released(s: Store, k: string): Store
    requires k in s.proxies
  {
    if s.proxies[k].active <= 1 && !s.proxies[k].unacked then Drop(LetGo(s, k), {k}) else LetGo(s, k)
  }

  function Release(s: Store, proxyKey: string): Store {
    if proxyKey !in s.proxies then s
    else Evict(Released(s, proxyKey), s.proxies[proxyKey].engineKey)
  }

  /** DeleteEngine */
  function Delete(s: Store, namespace: string, engineName: string): Store {
    var key := Key(namespace, engineName);
    var name := if key in s.meta then s.meta[key].resourceName else "";
    var ks := ProxiesOf(s.proxies, key);
    Store(s.meta - {key}, s.proxies - ks, s.resources - {name}, s.nextSeq, s.cache - {key} - ks)
  }
}
