/** Rendering an Engine's configuration, recording what was accepted, and rendering it again from
    the record. JSON documents are values; SHA-256, gzip, protobuf and the include rules are
    functions of the build. */
module Render {
  import opened Strings
  import opened Names
  import opened RetryVersion
  import opened ContentHash
  import opened Assembly
  import opened StoreModel

  const SCHEMA_VERSION := 2
  const RENDERING_SCHEMA_VERSION := 5
  const MAX_CONFIGURATION_BYTES := 8388608
  const DEFAULT_POLICY := "default"
  const DRIVER := "wasm"
  const RUNTIME := "envoy.wasm.runtime.v8"
  const CODE_TIMEOUT := 10_000_000_000

  datatype Vm = Vm(runtime: string, vmId: string, codeTimeout: int)

  /** The runtime configuration document. */
  datatype RuntimeConfig = RuntimeConfig(schema: int, engine: string, namespace: string, uid: string,
                                         driverType: string, emptyRulesPolicy: string, failurePolicy: string,
                                         filterStateLogs: bool, directives: map<string, seq<string>>,
                                         defaultDirectives: string, ruleData: map<string, string>)

  /** The document whose digest is the Engine version. */
  datatype VersionDoc = VersionDoc(schema: int, renderingSchema: int, engine: string, namespace: string, uid: string,
                                   driverType: string, emptyRulesPolicy: string, failurePolicy: string,
                                   filterStateLogs: bool, ruleSetUid: string, contentHash: string, url: string,
                                   sha: string, runtime: string, vmId: string, codeTimeout: string)

  datatype Doc = OfContent(content: ContentDoc) | OfVersion(version: VersionDoc)

  /** The plugin configuration but for its name and VM id. */
  datatype Plugin = Plugin(failOpen: bool, payload: string, runtime: string, url: string, sha: string, codeTimeout: int)

  datatype Manifest = Manifest(sha: string, crsVersion: string)

  /** What a build of the operator brings along. */
  datatype Build = Build(digest: Doc -> string, isDigest: string -> bool, validBinary: (string, string) -> bool,
                         includes: (string, map<string, string>, string) -> bool, manifest: Option<Manifest>,
                         checks: Checks, documentSize: RuntimeConfig -> nat, envelope: RuntimeConfig -> string,
                         pack: Plugin -> string, durationText: int -> string, parseDuration: string -> Option<int>)

  /** Digests look like digests and never like retries; a positive duration survives its text. */
  ghost predicate Sane(b: Build) {
    && (forall d :: b.isDigest(b.digest(d)) && Plain(b.digest(d)))
    && (forall t | t > 0 :: b.durationText(t) != "" && b.parseDuration(b.durationText(t)) == Some(t))
  }

  ghost predicate CollisionFree(b: Build) {
    forall d, e :: b.digest(d) == b.digest(e) ==> d == e
  }

  datatype EngineInput = EngineInput(namespace: string, name: string, uid: string, ruleSetUid: string,
                                     contentHash: string, content: Content, emptyRulesPolicy: string,
                                     failurePolicy: string, filterStateLogs: bool, driverType: string,
                                     url: string, sha: string, crsVersion: string, vm: Vm)

  datatype Artifact = Artifact(resourceName: string, version: string, payload: string, resource: Resource,
                               emptyRulesPolicy: string, driverType: string, filterStateLogs: bool, vm: Vm,
                               schema: int, ruleSetUid: string, contentHash: string, url: string, sha: string,
                               failurePolicy: string)

  datatype Outcome = Rendered(artifact: Artifact) | Mismatch | Refused

  // ----- Defaults -----

  function ResolveDriver(driverType: string): Option<string> {
    if driverType in {"", DRIVER} then Some(DRIVER) else None
  }

  function ResolveFailurePolicy(policy: string): Option<string> {
    if policy == "" then Some("fail") else if policy in {"fail", "allow"} then Some(policy) else None
  }

  function ResolveEmptyRulesPolicy(policy: string): Option<string> {
    if policy == "" then Some("Reject") else if policy in {"Reject", "Allow"} then Some(policy) else None
  }

  function ResolveVm(vm: Vm, uid: string): Vm {
    Vm(if vm.runtime == "" then RUNTIME else vm.runtime,
       if vm.vmId == "" then "coraza-" + uid else vm.vmId,
       if vm.codeTimeout <= 0 then CODE_TIMEOUT else vm.codeTimeout)
  }

  /** selectedCRSVersion */
  function SelectedCrs(b: Build, input: EngineInput): string {
    if input.crsVersion != "" then input.crsVersion
    else if b.manifest.Some? && b.manifest.value.sha == input.sha then b.manifest.value.crsVersion else ""
  }

  // ----- Render -----

  function ConfigOf(input: EngineInput, driverType: string, emptyRulesPolicy: string,
                    failurePolicy: string): RuntimeConfig
  {
    RuntimeConfig(SCHEMA_VERSION, input.name, input.namespace, input.uid, driverType, emptyRulesPolicy, failurePolicy,
                  input.filterStateLogs, map[DEFAULT_POLICY := [input.content.rules]], DEFAULT_POLICY,
                  input.content.files)
  }

  function VersionOf(b: Build, input: EngineInput, driverType: string, emptyRulesPolicy: string, failurePolicy: string,
                     vm: Vm): VersionDoc
  {
    VersionDoc(SCHEMA_VERSION, RENDERING_SCHEMA_VERSION, input.name, input.namespace, input.uid, driverType,
               emptyRulesPolicy, failurePolicy, input.filterStateLogs, input.ruleSetUid, input.contentHash, input.url,
               input.sha, vm.runtime, vm.vmId, b.durationText(vm.codeTimeout))
  }

  function Built(b: Build, input: EngineInput, driverType: string, emptyRulesPolicy: string, failurePolicy: string,
                 vm: Vm): Artifact
  {
    var name := ResourceName(input.namespace, input.name, input.uid);
    var payload := b.envelope(ConfigOf(input, driverType, emptyRulesPolicy, failurePolicy));
    var plugin := Plugin(failurePolicy == "allow", payload, vm.runtime, input.url, input.sha, vm.codeTimeout);
    Artifact(name, b.digest(OfVersion(VersionOf(b, input, driverType, emptyRulesPolicy, failurePolicy, vm))), payload,
             Resource(name, Some(vm.vmId), b.pack(plugin)), emptyRulesPolicy, driverType, input.filterStateLogs, vm,
             RENDERING_SCHEMA_VERSION, input.ruleSetUid, input.contentHash, input.url, input.sha, failurePolicy)
  }

  predicate Complete(b: Build, input: EngineInput) {
    && input.namespace != "" && input.name != "" && input.uid != "" && input.ruleSetUid != ""
    && b.isDigest(input.contentHash) && b.validBinary(input.url, input.sha)
    && b.includes(input.content.rules, input.content.files, SelectedCrs(b, input))
    && ResolveDriver(input.driverType).Some? && ResolveFailurePolicy(input.failurePolicy).Some?
    && ResolveEmptyRulesPolicy(input.emptyRulesPolicy).Some?
  }

  ghost function Render(b: Build, input: EngineInput): Outcome {
    if !Complete(b, input) then Refused
    else
      var driverType := ResolveDriver(input.driverType).value;
      var failurePolicy := ResolveFailurePolicy(input.failurePolicy).value;
      var emptyRulesPolicy := ResolveEmptyRulesPolicy(input.emptyRulesPolicy).value;
      if b.digest(OfContent(DocOf(input.content))) != input.contentHash then Mismatch
      else if emptyRulesPolicy == "Reject" && b.checks.blank(input.content.rules) then Refused
      else if b.documentSize(ConfigOf(input, driverType, emptyRulesPolicy, failurePolicy)) > MAX_CONFIGURATION_BYTES
      then Refused
      else Rendered(Built(b, input, driverType, emptyRulesPolicy, failurePolicy, ResolveVm(input.vm, input.uid)))
  }

  /** Render as it runs: the content is hashed before the configuration is built. */
  method RenderEngine(b: Build, input: EngineInput) returns (out: Outcome)
    ensures out == Render(b, input)
  {
    if !Complete(b, input) { return Refused; }
    var driverType := ResolveDriver(input.driverType).value;
    var failurePolicy := ResolveFailurePolicy(input.failurePolicy).value;
    var emptyRulesPolicy := ResolveEmptyRulesPolicy(input.emptyRulesPolicy).value;
    var hash := RuleSetContentHash(d => b.digest(OfContent(d)), input.content);
    if hash != input.contentHash { return Mismatch; }
    if emptyRulesPolicy == "Reject" && b.checks.blank(input.content.rules) { return Refused; }
    var size := b.documentSize(ConfigOf(input, driverType, emptyRulesPolicy, failurePolicy));
    if size > MAX_CONFIGURATION_BYTES { return Refused; }
    return Rendered(Built(b, input, driverType, emptyRulesPolicy, failurePolicy, ResolveVm(input.vm, input.uid)));
  }

  // ----- What is rendered -----

  /** The plugin configuration of an input: fail-open exactly for policy allow, the module and the VM of
      the input or the defaults, and the runtime document as its payload. */
  predicate PluginOf(b: Build, input: EngineInput, plugin: Plugin, doc: RuntimeConfig) {
    && plugin.payload == b.envelope(doc)
    && (plugin.failOpen <==> input.failurePolicy == "allow")
    && plugin.url == input.url && plugin.sha == input.sha
    && plugin.runtime == (if input.vm.runtime != "" then input.vm.runtime else "envoy.wasm.runtime.v8")
    && plugin.codeTimeout == (if input.vm.codeTimeout > 0 then input.vm.codeTimeout else 10_000_000_000)
  }

  /** The runtime document of an input: its Engine, its rules as the one default policy, its files. */
  predicate DocumentOf(input: EngineInput, doc: RuntimeConfig) {
    && doc.engine == input.name && doc.namespace == input.namespace && doc.uid == input.uid
    && doc.directives == map[doc.defaultDirectives := [input.content.rules]] && doc.ruleData == input.content.files
    && doc.filterStateLogs == input.filterStateLogs && doc.driverType == "wasm" && doc.schema == 2
    && (doc.failurePolicy == "allow" <==> input.failurePolicy == "allow")
    && (doc.failurePolicy == "fail" <==> input.failurePolicy in {"", "fail"})
    && (doc.emptyRulesPolicy == "Allow" <==> input.emptyRulesPolicy == "Allow")
    && (doc.emptyRulesPolicy == "Reject" <==> input.emptyRulesPolicy in {"", "Reject"})
  }

  /** What an input must be to be rendered. */
  predicate Renderable(b: Build, input: EngineInput, doc: RuntimeConfig) {
    && "" !in {input.namespace, input.name, input.uid, input.ruleSetUid}
    && input.driverType in {"", "wasm"} && input.failurePolicy in {"", "fail", "allow"}
    && input.emptyRulesPolicy in {"", "Reject", "Allow"}
    && (input.emptyRulesPolicy == "Allow" || !b.checks.blank(input.content.rules))
    && b.validBinary(input.url, input.sha) && b.documentSize(doc) <= 8 * 1024 * 1024
    && b.includes(input.content.rules, input.content.files,
                  if input.crsVersion == "" && b.manifest.Some? && input.sha == b.manifest.value.sha
                  then b.manifest.value.crsVersion else input.crsVersion)
  }

  /** A rendered artifact serves the plugin of its input under the Engine's resource name and VM id, for
      an input that passes every check and whose hash is that of its content. */
  lemma RenderedServes(b: Build, input: EngineInput) returns (plugin: Plugin, doc: RuntimeConfig)
    requires Render(b, input).Rendered?
    ensures PluginOf(b, input, plugin, doc) && DocumentOf(input, doc) && Renderable(b, input, doc)
    ensures input.contentHash == b.digest(OfContent(DocOf(input.content)))
    ensures var a := Render(b, input).artifact;
      && a.payload == plugin.payload
      && a.resource == Resource(ResourceName(input.namespace, input.name, input.uid),
                                Some(if input.vm.vmId != "" then input.vm.vmId else "coraza-" + input.uid),
                                b.pack(plugin))
      && a.resourceName == a.resource.name
  {
    var a := Render(b, input).artifact;
    doc := ConfigOf(input, a.driverType, a.emptyRulesPolicy, a.failurePolicy);
    plugin := Plugin(a.failurePolicy == "allow", a.payload, a.vm.runtime, input.url, input.sha, a.vm.codeTimeout);
  }

  /** Nothing else stops an input: one with a document that passes every check and with the hash of its
      content is rendered. */
  lemma RenderableIsRendered(b: Build, input: EngineInput, doc: RuntimeConfig)
    requires DocumentOf(input, doc) && doc.defaultDirectives == "default" && Renderable(b, input, doc)
    requires input.contentHash == b.digest(OfContent(DocOf(input.content))) && b.isDigest(input.contentHash)
    ensures Render(b, input).Rendered?
  {
    var f, e := ResolveFailurePolicy(input.failurePolicy).value, ResolveEmptyRulesPolicy(input.emptyRulesPolicy).value;
    assert doc == ConfigOf(input, DRIVER, e, f);
  }

  // ----- The accepted record -----

  datatype Record = Record(schema: int, version: string, ruleSetUid: string, contentHash: string, url: string,
                           sha: string, failurePolicy: string, emptyRulesPolicy: string, filterStateLogs: string,
                           driverType: string, runtime: string, vmId: string, codeTimeout: string)

  /** patchAcceptedConfiguration */
  function RecordOf(b: Build, a: Artifact, ruleSetUid: string, contentHash: string, url: string, sha: string,
                    failurePolicy: string): Record
  {
    Record(RENDERING_SCHEMA_VERSION, a.version, ruleSetUid, contentHash, url, sha, failurePolicy, a.emptyRulesPolicy,
           if a.filterStateLogs then "Enabled" else "Disabled", a.driverType,
           a.vm.runtime, a.vm.vmId, b.durationText(a.vm.codeTimeout))
  }

  /** render.Matches */
  predicate Matches(r: Record, a: Artifact) {
    && r.schema == a.schema && r.version == a.version && r.ruleSetUid == a.ruleSetUid && r.contentHash == a.contentHash
    && r.url == a.url && r.sha == a.sha && r.failurePolicy == a.failurePolicy
  }

  /** The rows that differ, as Matches reports them. */
  method Mismatches(r: Record, a: Artifact) returns (rows: seq<string>)
    ensures rows == [] <==> Matches(r, a)
    ensures rows == [] <==>
      && r.schema == a.schema && r.version == a.version && r.ruleSetUid == a.ruleSetUid
      && r.contentHash == a.contentHash && r.url == a.url && r.sha == a.sha && r.failurePolicy == a.failurePolicy
    ensures forall i, j | 0 <= i < j < |rows| :: rows[i] != rows[j]
  {
    var table := [("rendering schema version", r.schema == a.schema), ("version", r.version == a.version),
                  ("RuleSet uid", r.ruleSetUid == a.ruleSetUid),
                  ("RuleSet content hash", r.contentHash == a.contentHash),
                  ("binary URL", r.url == a.url), ("WASM sha256", r.sha == a.sha),
                  ("failure policy", r.failurePolicy == a.failurePolicy)];
    rows := [];
    for i := 0 to |table|
      invariant rows == [] <==> forall j | 0 <= j < i :: table[j].1
      invariant forall k | 0 <= k < |rows| :: exists j | 0 <= j < i :: rows[k] == table[j].0
      invariant forall k, l | 0 <= k < l < |rows| :: rows[k] != rows[l]
    {
      if !table[i].1 { rows := rows + [table[i].0]; }
    }
    assert Matches(r, a) <==>
      table[0].1 && table[1].1 && table[2].1 && table[3].1 && table[4].1 && table[5].1 && table[6].1;
  }

  datatype Identity = Identity(namespace: string, name: string, uid: string)

  /** engineFailurePolicy */
  function EngineFailurePolicy(spec: string): string { if spec == "" then "fail" else spec }

  /** What the leader renders: the live Engine and RuleSet, the assembled content and its hash. */
  ghost function LeaderInput(b: Build, engine: Identity, ruleSetUid: string, content: Content, emptyRulesPolicy: string,
                             specFailurePolicy: string, observability: bool, url: string, sha: string,
                             crsVersion: string): EngineInput
  {
    EngineInput(engine.namespace, engine.name, engine.uid, ruleSetUid, b.digest(OfContent(DocOf(content))), content,
                emptyRulesPolicy, EngineFailurePolicy(specFailurePolicy), observability, DRIVER, url, sha, crsVersion,
                Vm("", "", 0))
  }

  /** resolveBinaryRef: an explicit module has no known CRS, the bundled one has the manifest's. */
  predicate FromResolver(b: Build, sha: string, crsVersion: string) {
    crsVersion == "" || (b.manifest.Some? && sha == b.manifest.value.sha && crsVersion == b.manifest.value.crsVersion)
  }

  /** What a replica renders: the Engine's identity, the RuleSet's UID and content, and the record.
      None when the record misses a rendering input. */
  function ReplicaInput(b: Build, engine: Identity, ruleSetUid: string, content: Content,
                        r: Record): Option<EngineInput>
  {
    if r.emptyRulesPolicy == "" || r.filterStateLogs == "" || r.driverType == ""
       || r.runtime == "" || r.vmId == "" || r.codeTimeout == ""
    then None
    else match b.parseDuration(r.codeTimeout)
      case None => None
      case Some(timeout) =>
        Some(EngineInput(engine.namespace, engine.name, engine.uid, ruleSetUid, r.contentHash, content,
                         r.emptyRulesPolicy, r.failurePolicy, r.filterStateLogs == "Enabled", r.driverType, r.url,
                         r.sha, "", Vm(r.runtime, r.vmId, timeout)))
  }

  /** Accept and reconstruct: on the same build and content a replica renders exactly the leader's
      artifact from the record, and it matches the record. */
  lemma RoundTrip(b: Build, engine: Identity, ruleSetUid: string, content: Content, emptyRulesPolicy: string,
                  specFailurePolicy: string, observability: bool, url: string, sha: string, crsVersion: string)
    requires Sane(b) && FromResolver(b, sha, crsVersion)
    requires Render(b, LeaderInput(b, engine, ruleSetUid, content, emptyRulesPolicy, specFailurePolicy, observability,
                                   url, sha, crsVersion)).Rendered?
    ensures var leader := LeaderInput(b, engine, ruleSetUid, content, emptyRulesPolicy, specFailurePolicy,
                                      observability, url, sha, crsVersion);
      var a := Render(b, leader).artifact;
      var r := RecordOf(b, a, ruleSetUid, leader.contentHash, url, sha, leader.failurePolicy);
      && Matches(r, a)
      && ReplicaInput(b, engine, ruleSetUid, content, r).Some?
      && Render(b, ReplicaInput(b, engine, ruleSetUid, content, r).value) == Rendered(a)
  {
    var leader := LeaderInput(b, engine, ruleSetUid, content, emptyRulesPolicy, specFailurePolicy, observability,
                              url, sha, crsVersion);
    var a := Render(b, leader).artifact;
    var r := RecordOf(b, a, ruleSetUid, leader.contentHash, url, sha, leader.failurePolicy);
    assert a.vm.vmId == "coraza-" + engine.uid != "";
    assert a.vm.codeTimeout == CODE_TIMEOUT > 0;
    var replica := ReplicaInput(b, engine, ruleSetUid, content, r).value;
    assert ResolveVm(replica.vm, engine.uid) == a.vm;
    assert SelectedCrs(b, replica) == SelectedCrs(b, leader);
    assert ConfigOf(replica, a.driverType, a.emptyRulesPolicy, a.failurePolicy)
        == ConfigOf(leader, a.driverType, a.emptyRulesPolicy, a.failurePolicy);
  }

  /** Two rendered artifacts of one version are the same in everything that is served, when the
      digest has no collisions: the version binds payload and resource. */
  lemma VersionBindsResource(b: Build, x: EngineInput, y: EngineInput)
    requires Sane(b) && CollisionFree(b) && Render(b, x).Rendered? && Render(b, y).Rendered?
    requires Render(b, x).artifact.version == Render(b, y).artifact.version
    ensures Render(b, x).artifact.resource == Render(b, y).artifact.resource
    ensures Render(b, x).artifact.payload == Render(b, y).artifact.payload
    ensures Render(b, x).artifact.resourceName == Render(b, y).artifact.resourceName
    ensures x.namespace == y.namespace && x.name == y.name && x.uid == y.uid
  {
    var a, c := Render(b, x).artifact, Render(b, y).artifact;
    var v := VersionOf(b, x, a.driverType, a.emptyRulesPolicy, a.failurePolicy, a.vm);
    var w := VersionOf(b, y, c.driverType, c.emptyRulesPolicy, c.failurePolicy, c.vm);
    assert OfVersion(v) == OfVersion(w);
    assert b.parseDuration(b.durationText(a.vm.codeTimeout)) == b.parseDuration(b.durationText(c.vm.codeTimeout));
    assert a.vm == c.vm;
    assert OfContent(DocOf(x.content)) == OfContent(DocOf(y.content));
    DocInjective(x.content, y.content);
  }
}
