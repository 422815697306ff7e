/** The ECDS stream callbacks as a state machine over the snapshot store. Every lock-protected
    section is one step. Request and close callbacks of one stream do not overlap; timer callbacks
    interleave with everything. */
module Server {
  import opened Strings
  import opened Names
  import opened RetryVersion
  import opened StoreModel

  /** A retry that a NACK asked for. */
  datatype Retry = Retry(resource: string, proxyKey: string, base: string, attempt: nat)

  /** Where a stream's current callback stands. */
  datatype Pc =
    | Idle
    | Binding(resource: string, version: string)
    | Acking(version: string)
    | Claiming(retry: Retry)
    | Tracking(retry: Retry)
    | Recording(retry: Retry)
    | Arming(retry: Retry)
    | Clearing(held: Option<string>)
    | Releasing(held: Option<string>)

  datatype Stream = Stream(session: nat, identityKey: string, uid: string, proxyId: string,
                           engineKey: string, proxyKey: string, bound: bool,
                           nackKey: string, retryPending: bool, timers: seq<Retry>, closed: bool, pc: Pc)

  datatype Nack = Nack(version: string, attempts: nat)

  /** open is the key set of Server.streams. Closed streams stay in streams until the machine
      stops looking at them. */
  datatype Server = Server(store: Store, streams: map<nat, Stream>, open: set<nat>, nacks: map<string, Nack>,
                           nextSession: nat)

  const START := Server(EMPTY, map[], {}, map[], 0)

  datatype Step =
    | Open(id: nat, identityKey: string, uid: string, proxyId: string)
    | WatchStart(id: nat, resource: string, engineKey: string, version: string)
    | WatchBind(id: nat)
    | AckClear(id: nat, version: string)
    | AckStore(id: nat)
    | NackRead(id: nat, resource: string, engineKey: string, rejected: string)
    | NackClaim(id: nat)
    | NackTrack(id: nat)
    | NackRecord(id: nat)
    | NackArm(id: nat)
    | Fire(id: nat, timer: nat)
    | CloseMark(id: nat, stopped: bool)
    | CloseClear(id: nat)
    | CloseRelease(id: nat)
    | Publish(snapshot: Snapshot)
    | Withdraw(namespace: string, engineName: string)

  predicate Enabled(s: Server, step: Step) {
    match step
    case Open(id, _, _, _) => id !in s.streams
    case Publish(_) => true
    case Withdraw(_, _) => true
    case Fire(id, i) => id in s.streams && i < |s.streams[id].timers|
    case WatchStart(id, _, engineKey, _) => AtRest(s, id) && engineKey != ""
    case AckClear(id, _) => AtRest(s, id)
    case NackRead(id, _, _, _) => AtRest(s, id)
    case CloseMark(id, _) => AtRest(s, id)
    case WatchBind(id) => id in s.streams && s.streams[id].pc.Binding?
    case AckStore(id) => id in s.streams && s.streams[id].pc.Acking?
    case NackClaim(id) => id in s.streams && s.streams[id].pc.Claiming?
    case NackTrack(id) => id in s.streams && s.streams[id].pc.Tracking?
    case NackRecord(id) => id in s.streams && s.streams[id].pc.Recording?
    case NackArm(id) => id in s.streams && s.streams[id].pc.Arming?
    case CloseClear(id) => id in s.streams && s.streams[id].pc.Clearing?
    case CloseRelease(id) => id in s.streams && s.streams[id].pc.Releasing?
  }

  /** An open stream between callbacks. */
  predicate AtRest(s: Server, id: nat) {
    id in s.streams && s.streams[id].pc.Idle? && !s.streams[id].closed
  }

  function With(s: Server, id: nat, t: Stream): Server {
    s.(streams := s.streams[id := t])
  }

  /** proxyCacheKeyFor: the Engine of the entry, or else the one the index names for the resource
      ("" when it names none). */
  function Located(sha: string -> string, t: Stream, engineKey: string): Stream {
    var e := if t.engineKey == "" then engineKey else t.engineKey;
    if e == "" then t
    else if t.proxyKey == "" || t.engineKey != e
    then t.(engineKey := e, proxyKey := ProxyKey(sha, e, t.identityKey, t.uid, t.proxyId))
    else t
  }

  /** recordNack */
  function Recorded(nacks: map<string, Nack>, key: string, version: string): map<string, Nack> {
    nacks[key := if key in nacks && nacks[key].version == version
                 then nacks[key].(attempts := nacks[key].attempts + 1) else Nack(version, 1)]
  }

  function Uncounted(nacks: map<string, Nack>, key: string): map<string, Nack> {
    if key == "" then nacks else nacks - {key}
  }

  /** The version a NACK is counted against: the proxy's current one when the store knows it. */
  function NackedVersion(store: Store, resource: string, proxyKey: string, rejected: string): string {
    match CurrentVersionFor(store, resource, proxyKey)
    case Some(v) => v
    case None => rejected
  }

  function RemoveAt<T>(xs: seq<T>, i: nat): seq<T>
    requires i < |xs|
  {
    xs[..i] + xs[i + 1..]
  }

  function Apply(sha: string -> string, s: Server, step: Step): Server
    requires Enabled(s, step)
  {
    match step
    case Open(id, key, uid, proxyId) =>
      var t := Stream(s.nextSession + 1, key, uid, proxyId, "", "", false, "", false, [], false, Idle);
      s.(streams := s.streams[id := t],
         open := s.open + {id}, nextSession := s.nextSession + 1)

    // watchNode, up to and after the release of a snapshot held for another Engine
    case WatchStart(id, resource, engineKey, version) =>
      var t := s.streams[id];
      var proxyKey := ProxyKey(sha, engineKey, t.identityKey, t.uid, t.proxyId);
      var moved := t.proxyKey != proxyKey && t.bound;
      var bound := t.bound && !moved;
      var t' := t.(engineKey := engineKey, proxyKey := proxyKey, bound := bound,
                   pc := if bound then Idle else Binding(resource, version));
      With(s, id, t').(store := if moved then Release(s.store, t.proxyKey) else s.store)
    case WatchBind(id) =>
      var t := s.streams[id];
      var plan := BindPlan(s.store, t.pc.resource, t.proxyKey, t.pc.version);
      With(s, id, t.(bound := plan.Install?, pc := Idle))
      .(store := Bind(s.store, t.pc.resource, t.proxyKey, t.pc.version))

    // an ACK: clearNack, then ackProxyRetry
    case AckClear(id, version) =>
      var t := s.streams[id];
      With(s, id, t.(nackKey := "", pc := Acking(version))).(nacks := Uncounted(s.nacks, t.nackKey))
    case AckStore(id) =>
      var t := s.streams[id];
      With(s, id, t.(pc := Idle)).(store := if t.bound then Ack(s.store, t.proxyKey, t.pc.version) else s.store)

    // a NACK: resubscribeRejected, section by section
    case NackRead(id, resource, engineKey, rejected) =>
      var t := Located(sha, s.streams[id], engineKey);
      if t.proxyKey == "" || resource == "" then With(s, id, t)
      else
        var version := NackedVersion(s.store, resource, t.proxyKey, rejected);
        With(s, id, t.(pc := Claiming(Retry(resource, t.proxyKey, RetryBase(version), RetryAttempt(version) + 1))))
    case NackClaim(id) =>
      var t := s.streams[id];
      With(s, id, if t.retryPending || t.closed then t.(pc := Idle)
                  else t.(retryPending := true, pc := Tracking(t.pc.retry)))
    case NackTrack(id) =>
      var t := s.streams[id];
      var key := NackKey(t.pc.retry.resource, t.session);
      With(s, id, t.(nackKey := key, pc := Recording(t.pc.retry)))
      .(nacks := if t.nackKey != key then Uncounted(s.nacks, t.nackKey) else s.nacks)
    case NackRecord(id) =>
      var t := s.streams[id];
      With(s, id, t.(pc := Arming(t.pc.retry)))
      .(nacks := Recorded(s.nacks, NackKey(t.pc.retry.resource, t.session), t.pc.retry.base))
    case NackArm(id) =>
      var t := s.streams[id];
      With(s, id, if t.closed || !t.retryPending then t.(retryPending := false, pc := Idle)
                  else t.(timers := t.timers + [t.pc.retry], pc := Idle))

    // runRejectedRetry
    case Fire(id, i) =>
      var t := s.streams[id];
      var fired := t.(timers := RemoveAt(t.timers, i));
      if t.closed || !t.retryPending then With(s, id, fired)
      else With(s, id, fired.(retryPending := false))
           .(store := if id in s.open then Retried(s.store, t.timers[i]) else s.store)

    // onStreamClosed; a timer that already fired cannot be stopped
    case CloseMark(id, stopped) =>
      var t := s.streams[id];
      With(s, id, t.(closed := true, retryPending := false, bound := false,
                     timers := if stopped then [] else t.timers,
                     pc := Clearing(if t.bound then Some(t.proxyKey) else None)))
      .(open := s.open - {id})
    case CloseClear(id) =>
      var t := s.streams[id];
      With(s, id, t.(nackKey := "", pc := Releasing(t.pc.held))).(nacks := Uncounted(s.nacks, t.nackKey))
    case CloseRelease(id) =>
      var t := s.streams[id];
      With(s, id, t.(pc := Idle))
      .(store := if t.pc.held.Some? then Release(s.store, t.pc.held.value) else s.store)

    // the publication controller
    case Publish(snapshot) => s.(store := Replace(s.store, snapshot))
    case Withdraw(namespace, engineName) => s.(store := Delete(s.store, namespace, engineName))
  }

  predicate OfStream(step: Step) { !step.Publish? && !step.Withdraw? }

  /** A step of a stream touches no other stream. */
  lemma Local(sha: string -> string, s: Server, step: Step)
    requires Enabled(s, step)
    ensures !OfStream(step) ==> Apply(sha, s, step).streams == s.streams
    ensures OfStream(step) ==>
      && step.id in Apply(sha, s, step).streams
      && Apply(sha, s, step).streams == s.streams[step.id := Apply(sha, s, step).streams[step.id]]
  {
  }

  /** The store after a retry is published; a refused bump changes nothing. */
  function Retried(store: Store, r: Retry): Store {
    match Bump(store, r.resource, r.proxyKey, r.base, r.attempt)
    case Some(store') => store'
    case None => store
  }

  /** No callback is under way. */
  ghost predicate AtBoundary(streams: map<nat, Stream>) {
    forall id | id in streams :: streams[id].pc.Idle?
  }

  // ----- Runs -----

  ghost predicate Legal(sha: string -> string, s: Server, steps: seq<Step>)
    decreases |steps|
  {
    steps == [] || (Enabled(s, steps[0]) && Legal(sha, Apply(sha, s, steps[0]), steps[1..]))
  }

  ghost function After(sha: string -> string, s: Server, steps: seq<Step>): Server
    requires Legal(sha, s, steps)
    decreases |steps|
  {
    if steps == [] then s else After(sha, Apply(sha, s, steps[0]), steps[1..])
  }
}
