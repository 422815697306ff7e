/** The publication controller of one replica: reconstructing accepted configurations into its
    snapshot store. */
module Publication {
  import opened Strings
  import opened Names
  import opened ContentHash
  import opened DoubleCollect
  import opened Assembly
  import opened StoreModel
  import Render

  /** What assemble.Fingerprint hashes: identities, never the rules. */
  datatype InputId = InputId(name: string, uid: string, generation: nat)
  datatype FingerprintDoc = FingerprintDoc(ruleSetUid: string, ruleSetName: string, namespace: string,
                                           emptyRulesPolicy: string, sources: seq<InputId>, data: seq<InputId>)

  function FingerprintOf(inputs: Inputs): FingerprintDoc {
    FingerprintDoc(inputs.ruleSetUid, inputs.ruleSetName, inputs.namespace, inputs.emptyRulesPolicy,
      seq(|inputs.sources|, i requires 0 <= i < |inputs.sources| =>
        InputId(inputs.sources[i].name, inputs.sources[i].uid, inputs.sources[i].generation)),
      seq(|inputs.data|, i requires 0 <= i < |inputs.data| =>
        InputId(inputs.data[i].name, inputs.data[i].uid, inputs.data[i].generation)))
  }

  /** A build with its fingerprint hash and its delivery limits. */
  datatype Config = Config(build: Render.Build, fingerprint: FingerprintDoc -> string, contentFits: Content -> bool,
                           artifactFits: Render.Artifact -> bool)

  datatype Remembered = Remembered(fingerprint: string, acceptedVersion: string)

  datatype Replica = Replica(store: Store, states: map<string, Remembered>)

  const FRESH := Replica(EMPTY, map[])

  /** The RuleSet and its inputs as the reconcile reads them. */
  datatype RuleSetView = Missing | Unreadable | Found(uid: string, loaded: Option<Inputs>, transient: bool)

  /** The Engine as the reconcile reads it: gone or deleting, without an accepted record, or with one. */
  datatype View = Gone | Unaccepted | Accepted(engine: Render.Identity, record: Render.Record, ruleSet: RuleSetView)

  datatype Result = Published | Coalesced | Mismatched | Retry | Forgotten

  function SnapshotOf(engine: Render.Identity, record: Render.Record, a: Render.Artifact): Snapshot {
    Snapshot(a.resourceName, engine.namespace, engine.name, engine.uid, record.contentHash, a.version, a.resource)
  }

  predicate Skips(s: Replica, key: string, fingerprint: string, version: string) {
    && key in s.states && s.states[key] == Remembered(fingerprint, version)
    && key in s.store.meta && key in s.store.cache && s.store.meta[key].version == version
  }

  /** What the replica would publish: the artifact rendered from the record, if it matches and fits. */
  ghost function Rebuilt(c: Config, engine: Render.Identity, record: Render.Record, uid: string,
                         inputs: Inputs): Option<Render.Artifact>
  {
    match Assembled(c.build.checks, inputs)
    case Built(content) =>
      if !c.contentFits(content) then None
      else (match Render.ReplicaInput(c.build, engine, uid, content, record)
        case None => None
        case Some(input) =>
          (match Render.Render(c.build, input)
           case Rendered(a) => if Render.Matches(record, a) && c.artifactFits(a) then Some(a) else None
           case _ => None))
    case _ => None
  }

  /** reconstruct, and the bookkeeping of its outcome. */
  ghost function Reconciled(c: Config, s: Replica, namespace: string, name: string, view: View): (Replica, Result) {
    var key := Key(namespace, name);
    match view
    case Gone => (Replica(Delete(s.store, namespace, name), s.states - {key}), Forgotten)
    case Unaccepted => (Replica(Delete(s.store, namespace, name), s.states - {key}), Forgotten)
    case Accepted(engine, record, ruleSet) =>
      var failed := s.(states := if key in s.states then s.states else s.states[key := Remembered("", "")]);
      match ruleSet
      case Unreadable => (s, Retry)
      case Missing => (failed, Mismatched)
      case Found(uid, loaded, transient) =>
        if uid != record.ruleSetUid then (failed, Mismatched)
        else if loaded.None? then (if transient then (s, Retry) else (failed, Mismatched))
        else
          var fingerprint := c.fingerprint(FingerprintOf(loaded.value));
          if Skips(s, key, fingerprint, record.version) then (s, Coalesced)
          else match Rebuilt(c, engine, record, uid, loaded.value)
            case None => (failed, Mismatched)
            case Some(a) =>
              (Replica(Replace(s.store, SnapshotOf(engine, record, a)),
                       s.states[key := Remembered(fingerprint, record.version)]), Published)
  }

  /** The controller object. Its store is the value of the replica's snapshot store. */
  class Publisher {
    const config: Config
    var store: Store
    var states: map<string, Remembered>

    constructor (config: Config)
      ensures View() == FRESH && this.config == config
    {
      this.config := config;
      store, states := EMPTY, map[];
    }

    ghost function View(): Replica
      reads this
    {
      Replica(store, states)
    }

    method ForgetEngine(namespace: string, name: string)
      modifies this
      ensures View() == Replica(Delete(old(store), namespace, name), old(states) - {Key(namespace, name)})
    {
      store := Delete(store, namespace, name);
      states := states - {Key(namespace, name)};
    }

    method RecordMismatch(key: string)
      modifies this`states
      ensures states == if key in old(states) then old(states) else old(states)[key := Remembered("", "")]
    {
      if key !in states { states := states[key := Remembered("", "")]; }
    }

    method Rebuild(engine: Render.Identity, record: Render.Record, uid: string, inputs: Inputs)
      returns (built: Option<Render.Artifact>)
      ensures built == Rebuilt(config, engine, record, uid, inputs)
    {
      var out := Assemble(config.build.checks, inputs);
      if !out.Built? { return None; }
      if !config.contentFits(out.content) { return None; }
      var input := Render.ReplicaInput(config.build, engine, uid, out.content, record);
      if input.None? { return None; }
      var rendered := Render.RenderEngine(config.build, input.value);
      if !rendered.Rendered? { return None; }
      var rows := Render.Mismatches(record, rendered.artifact);
      if rows != [] { return None; }
      if !config.artifactFits(rendered.artifact) { return None; }
      return Some(rendered.artifact);
    }

    method Publish(key: string, engine: Render.Identity, record: Render.Record, uid: string, inputs: Inputs)
      returns (result: Result)
      modifies this
      ensures var fingerprint := config.fingerprint(FingerprintOf(inputs));
        if Skips(old(View()), key, fingerprint, record.version) then View() == old(View()) && result == Coalesced
        else match Rebuilt(config, engine, record, uid, inputs)
          case None => View() == old(View()) && result == Mismatched
          case Some(a) => View() == Replica(Replace(old(store), SnapshotOf(engine, record, a)),
            old(states)[key := Remembered(fingerprint, record.version)]) && result == Published
    {
      var fingerprint := config.fingerprint(FingerprintOf(inputs));
      if key in states && states[key] == Remembered(fingerprint, record.version)
         && key in store.meta && key in store.cache && store.meta[key].version == record.version {
        return Coalesced;
      }
      var built := Rebuild(engine, record, uid, inputs);
      if built.None? { return Mismatched; }
      store := Replace(store, SnapshotOf(engine, record, built.value));
      states := states[key := Remembered(fingerprint, record.version)];
      return Published;
    }

    method Reconcile(namespace: string, name: string, view: View) returns (result: Result)
      modifies this
      ensures (View(), result) == Reconciled(config, old(View()), namespace, name, view)
    {
      var key := Key(namespace, name);
      if !view.Accepted? {
        ForgetEngine(namespace, name);
        return Forgotten;
      }
      if view.ruleSet.Unreadable? { return Retry; }
      if view.ruleSet.Missing? || view.ruleSet.uid != view.record.ruleSetUid {
        RecordMismatch(key);
        return Mismatched;
      }
      if view.ruleSet.loaded.None? {
        if view.ruleSet.transient { return Retry; }
        RecordMismatch(key);
        return Mismatched;
      }
      result := Publish(key, view.engine, view.record, view.ruleSet.uid, view.ruleSet.loaded.value);
      if result.Mismatched? { RecordMismatch(key); }
    }
  }
}
