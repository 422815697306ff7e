/** Loading a RuleSet's inputs and accepting their content only after a second read found every UID
    and generation unchanged. Reads happen one by one while writers go on. */
module DoubleCollect {
  import opened Strings
  import opened Cluster

  datatype SourceInput = SourceInput(name: string, uid: string, generation: nat, rules: string)

  datatype DataInput = DataInput(name: string, uid: string, generation: nat, files: map<string, string>)

  datatype Inputs = Inputs(ruleSetUid: string, ruleSetName: string, namespace: string, emptyRulesPolicy: string,
                           sources: seq<SourceInput>, data: seq<DataInput>)

  /** When each read of a pass happens, and whether it fails for a reason other than not found. */
  datatype Reads = Reads(at: seq<nat>, faults: seq<bool>)

  /** n reads between two instants, in any order. */
  predicate Timely(h: seq<World>, r: Reads, lo: nat, hi: nat, n: nat) {
    |r.at| == |r.faults| == n && forall i | 0 <= i < n :: lo <= r.at[i] <= hi < |h|
  }

  predicate Typed(w: World) {
    forall k | k in w ::
      match k.kind
      case EngineKind => w[k].spec.EngineSpec?
      case RuleSetKind => w[k].spec.RuleSetSpec?
      case RuleSourceKind => w[k].spec.RuleSourceSpec?
      case RuleDataKind => w[k].spec.RuleDataSpec?
  }

  ghost predicate Observed(h: seq<World>) { Evolves(h) && forall t | 0 <= t < |h| :: Typed(h[t]) }

  function RuleSetKey(namespace: string, name: string): ObjectKey { ObjectKey(RuleSetKind, namespace, name) }
  function SourceKey(namespace: string, name: string): ObjectKey { ObjectKey(RuleSourceKind, namespace, name) }
  function DataKey(namespace: string, name: string): ObjectKey { ObjectKey(RuleDataKind, namespace, name) }

  // ----- One consistent load -----

  function SourceOf(name: string, o: Object): SourceInput
    requires o.spec.RuleSourceSpec?
  {
    SourceInput(name, o.uid, o.generation, o.spec.rules)
  }

  function DataOf(name: string, o: Object): DataInput
    requires o.spec.RuleDataSpec?
  {
    DataInput(name, o.uid, o.generation, o.spec.files)
  }

  function Gathered(namespace: string, name: string, o: Object, sources: seq<SourceInput>, data: seq<DataInput>): Inputs
    requires o.spec.RuleSetSpec?
  {
    Inputs(o.uid, name, namespace, o.spec.emptyRulesPolicy, sources, data)
  }

  /** Every object the RuleSet refers to exists in the world. */
  predicate Resolved(w: World, namespace: string, spec: Spec)
    requires spec.RuleSetSpec?
  {
    && (forall i | 0 <= i < |spec.sources| :: SourceKey(namespace, spec.sources[i]) in w)
    && (forall i | 0 <= i < |spec.data| :: DataKey(namespace, spec.data[i]) in w)
  }

  /** What loading the RuleSet from one instant of the world gives. */
  function Atomic(w: World, namespace: string, name: string): Option<Inputs>
    requires Typed(w)
  {
    var k := RuleSetKey(namespace, name);
    if k !in w || !Resolved(w, namespace, w[k].spec) then None
    else
      var spec := w[k].spec;
      Some(Gathered(namespace, name, w[k],
        seq(|spec.sources|, i requires 0 <= i < |spec.sources| =>
          SourceOf(spec.sources[i], w[SourceKey(namespace, spec.sources[i])])),
        seq(|spec.data|, i requires 0 <= i < |spec.data| =>
          DataOf(spec.data[i], w[DataKey(namespace, spec.data[i])]))))
  }

  // ----- Reading one by one -----

  predicate Reads1(h: seq<World>, r: Reads, i: nat, k: ObjectKey)
    requires i < |r.at| == |r.faults| && r.at[i] < |h|
  {
    !r.faults[i] && k in h[r.at[i]]
  }

  method LoadSources(h: seq<World>, r: Reads, lo: nat, hi: nat, namespace: string, names: seq<string>)
    returns (loaded: Option<seq<SourceInput>>)
    requires Timely(h, r, lo, hi, |names|) && forall t | 0 <= t < |h| :: Typed(h[t])
    ensures loaded.Some? <==> forall i | 0 <= i < |names| :: Reads1(h, r, i, SourceKey(namespace, names[i]))
    ensures loaded.Some? ==> SourcesRead(h, r, namespace, names, loaded.value)
  {
    var sources: seq<SourceInput> := [];
    for i := 0 to |names|
      invariant |sources| == i
      invariant forall j | 0 <= j < i :: Reads1(h, r, j, SourceKey(namespace, names[j]))
      invariant forall j | 0 <= j < i :: sources[j] == SourceOf(names[j], h[r.at[j]][SourceKey(namespace, names[j])])
    {
      var k := SourceKey(namespace, names[i]);
      if !Reads1(h, r, i, k) { return None; }
      sources := sources + [SourceOf(names[i], h[r.at[i]][k])];
    }
    return Some(sources);
  }

  method LoadData(h: seq<World>, r: Reads, lo: nat, hi: nat, namespace: string, names: seq<string>)
    returns (loaded: Option<seq<DataInput>>)
    requires Timely(h, r, lo, hi, |names|) && forall t | 0 <= t < |h| :: Typed(h[t])
    ensures loaded.Some? <==> forall i | 0 <= i < |names| :: Reads1(h, r, i, DataKey(namespace, names[i]))
    ensures loaded.Some? ==> DataRead(h, r, namespace, names, loaded.value)
  {
    var data: seq<DataInput> := [];
    for i := 0 to |names|
      invariant |data| == i
      invariant forall j | 0 <= j < i :: Reads1(h, r, j, DataKey(namespace, names[j]))
      invariant forall j | 0 <= j < i :: data[j] == DataOf(names[j], h[r.at[j]][DataKey(namespace, names[j])])
    {
      var k := DataKey(namespace, names[i]);
      if !Reads1(h, r, i, k) { return None; }
      data := data + [DataOf(names[i], h[r.at[i]][k])];
    }
    return Some(data);
  }

  /** Each source was read at its own instant, in spec order. */
  ghost predicate SourcesRead(h: seq<World>, r: Reads, namespace: string, names: seq<string>, sources: seq<SourceInput>)
  {
    |sources| == |names| == |r.at| && forall i | 0 <= i < |names| ::
      && r.at[i] < |h| && SourceKey(namespace, names[i]) in h[r.at[i]]
      && h[r.at[i]][SourceKey(namespace, names[i])].spec.RuleSourceSpec?
      && var o := h[r.at[i]][SourceKey(namespace, names[i])];
         sources[i] == SourceInput(names[i], o.uid, o.generation, o.spec.rules)
  }

  ghost predicate DataRead(h: seq<World>, r: Reads, namespace: string, names: seq<string>, data: seq<DataInput>) {
    |data| == |names| == |r.at| && forall i | 0 <= i < |names| ::
      && r.at[i] < |h| && DataKey(namespace, names[i]) in h[r.at[i]]
      && h[r.at[i]][DataKey(namespace, names[i])].spec.RuleDataSpec?
      && var o := h[r.at[i]][DataKey(namespace, names[i])];
         data[i] == DataInput(names[i], o.uid, o.generation, o.spec.files)
  }

  /** loadRuleSetInputs: None when a read fails or finds nothing. */
  method LoadRuleSetInputs(h: seq<World>, rs: Reads, rd: Reads, lo: nat, hi: nat, namespace: string, name: string,
                           ruleset: Object)
    returns (loaded: Option<Inputs>)
    requires ruleset.spec.RuleSetSpec? && forall t | 0 <= t < |h| :: Typed(h[t])
    requires Timely(h, rs, lo, hi, |ruleset.spec.sources|) && Timely(h, rd, lo, hi, |ruleset.spec.data|)
    ensures loaded.Some? <==>
      && (forall i | 0 <= i < |ruleset.spec.sources| :: Reads1(h, rs, i, SourceKey(namespace, ruleset.spec.sources[i])))
      && (forall i | 0 <= i < |ruleset.spec.data| :: Reads1(h, rd, i, DataKey(namespace, ruleset.spec.data[i])))
    ensures loaded.Some? ==>
      && loaded.value.ruleSetUid == ruleset.uid && loaded.value.emptyRulesPolicy == ruleset.spec.emptyRulesPolicy
      && loaded.value.namespace == namespace && loaded.value.ruleSetName == name
    ensures loaded.Some? ==>
      && loaded.value == Gathered(namespace, name, ruleset, loaded.value.sources, loaded.value.data)
      && SourcesRead(h, rs, namespace, ruleset.spec.sources, loaded.value.sources)
      && DataRead(h, rd, namespace, ruleset.spec.data, loaded.value.data)
  {
    var sources := LoadSources(h, rs, lo, hi, namespace, ruleset.spec.sources);
    if sources.None? { return None; }
    var data := LoadData(h, rd, lo, hi, namespace, ruleset.spec.data);
    if data.None? { return None; }
    return Some(Gathered(namespace, name, ruleset, sources.value, data.value));
  }

  // ----- Reading again -----

  /** What a re-read must find. */
  datatype Expected = Expected(key: ObjectKey, uid: string, generation: nat)

  function ExpectedSources(namespace: string, sources: seq<SourceInput>): seq<Expected> {
    seq(|sources|, i requires 0 <= i < |sources| =>
      Expected(SourceKey(namespace, sources[i].name), sources[i].uid, sources[i].generation))
  }

  function ExpectedData(namespace: string, data: seq<DataInput>): seq<Expected> {
    seq(|data|, i requires 0 <= i < |data| =>
      Expected(DataKey(namespace, data[i].name), data[i].uid, data[i].generation))
  }

  predicate Matches(w: World, e: Expected) {
    e.key in w && w[e.key].uid == e.uid && w[e.key].generation == e.generation
  }

  datatype Verdict = Unchanged | Changed | Fault

  /** Every re-read succeeded and found the version expected. */
  predicate Confirmed(h: seq<World>, r: Reads, expected: seq<Expected>) {
    |r.at| == |r.faults| == |expected| &&
    forall i | 0 <= i < |expected| :: r.at[i] < |h| && !r.faults[i] && Matches(h[r.at[i]], expected[i])
  }

  /** Some re-read succeeded and found another version, or nothing. */
  predicate Differs(h: seq<World>, r: Reads, expected: seq<Expected>) {
    exists i :: 0 <= i < |expected| && i < |r.at| && r.at[i] < |h| && !Matches(h[r.at[i]], expected[i])
  }

  predicate NoFaults(r: Reads) { forall i | 0 <= i < |r.faults| :: !r.faults[i] }

  /** The first re-read that fails or does not match decides. */
  method Reread(h: seq<World>, r: Reads, lo: nat, hi: nat, expected: seq<Expected>) returns (v: Verdict)
    requires Timely(h, r, lo, hi, |expected|)
    ensures v.Unchanged? <==> Confirmed(h, r, expected)
    ensures v.Changed? ==> Differs(h, r, expected)
    ensures v.Fault? ==> !NoFaults(r)
  {
    for i := 0 to |expected|
      invariant forall j | 0 <= j < i :: !r.faults[j] && Matches(h[r.at[j]], expected[j])
    {
      if r.faults[i] { return Fault; }
      if !Matches(h[r.at[i]], expected[i]) { return Changed; }
    }
    return Unchanged;
  }

  /** inputsChanged and, with the Engine among the roots, engineInputsChanged. */
  method InputsChanged(h: seq<World>, rr: Reads, rs: Reads, rd: Reads, lo: nat, hi: nat, roots: seq<Expected>,
                       inputs: Inputs)
    returns (v: Verdict)
    requires Timely(h, rr, lo, hi, |roots|) && Timely(h, rs, lo, hi, |inputs.sources|)
    requires Timely(h, rd, lo, hi, |inputs.data|)
    ensures v.Unchanged? <==>
      && Confirmed(h, rr, roots)
      && Confirmed(h, rs, ExpectedSources(inputs.namespace, inputs.sources))
      && Confirmed(h, rd, ExpectedData(inputs.namespace, inputs.data))
    ensures v.Changed? ==>
      || Differs(h, rr, roots)
      || Differs(h, rs, ExpectedSources(inputs.namespace, inputs.sources))
      || Differs(h, rd, ExpectedData(inputs.namespace, inputs.data))
    ensures v.Fault? ==> !NoFaults(rr) || !NoFaults(rs) || !NoFaults(rd)
  {
    v := Reread(h, rr, lo, hi, roots);
    if !v.Unchanged? { return; }
    v := Reread(h, rs, lo, hi, ExpectedSources(inputs.namespace, inputs.sources));
    if !v.Unchanged? { return; }
    v := Reread(h, rd, lo, hi, ExpectedData(inputs.namespace, inputs.data));
  }

  // ----- Both reads together are one instant -----

  /** An object read up to instant t and found unchanged from t on had the value read at t. */
  lemma HeldAt(h: seq<World>, k: ObjectKey, a: nat, t: nat, b: nat)
    requires Evolves(h) && a <= t <= b < |h| && k in h[a] && Matches(h[b], Expected(k, h[a][k].uid, h[a][k].generation))
    ensures k in h[t] && SameVersion(h[t][k], h[a][k]) && h[t][k].spec == h[a][k].spec
  {
    SameSpec(h, k, a, t, b);
  }

  lemma SourcesHeld(h: seq<World>, a: Reads, b: Reads, lo: nat, t: nat, hi: nat, namespace: string, names: seq<string>,
                    sources: seq<SourceInput>)
    requires Evolves(h) && t < |h| && Timely(h, a, lo, t, |names|) && Timely(h, b, t, hi, |names|)
    requires SourcesRead(h, a, namespace, names, sources) && Confirmed(h, b, ExpectedSources(namespace, sources))
    ensures forall i | 0 <= i < |names| ::
      && SourceKey(namespace, names[i]) in h[t] && h[t][SourceKey(namespace, names[i])].spec.RuleSourceSpec?
      && sources[i] == SourceOf(names[i], h[t][SourceKey(namespace, names[i])])
  {
    forall i | 0 <= i < |names|
      ensures SourceKey(namespace, names[i]) in h[t] && h[t][SourceKey(namespace, names[i])].spec.RuleSourceSpec?
        && sources[i] == SourceOf(names[i], h[t][SourceKey(namespace, names[i])])
    {
      assert Matches(h[b.at[i]], ExpectedSources(namespace, sources)[i]);
      HeldAt(h, SourceKey(namespace, names[i]), a.at[i], t, b.at[i]);
    }
  }

  lemma DataHeld(h: seq<World>, a: Reads, b: Reads, lo: nat, t: nat, hi: nat, namespace: string, names: seq<string>,
                 data: seq<DataInput>)
    requires Evolves(h) && t < |h| && Timely(h, a, lo, t, |names|) && Timely(h, b, t, hi, |names|)
    requires DataRead(h, a, namespace, names, data) && Confirmed(h, b, ExpectedData(namespace, data))
    ensures forall i | 0 <= i < |names| ::
      && DataKey(namespace, names[i]) in h[t] && h[t][DataKey(namespace, names[i])].spec.RuleDataSpec?
      && data[i] == DataOf(names[i], h[t][DataKey(namespace, names[i])])
  {
    forall i | 0 <= i < |names|
      ensures DataKey(namespace, names[i]) in h[t] && h[t][DataKey(namespace, names[i])].spec.RuleDataSpec?
        && data[i] == DataOf(names[i], h[t][DataKey(namespace, names[i])])
    {
      assert Matches(h[b.at[i]], ExpectedData(namespace, data)[i]);
      HeldAt(h, DataKey(namespace, names[i]), a.at[i], t, b.at[i]);
    }
  }

  /** Under every interleaving with writers: if the RuleSet and its inputs were read up to instant t
      and all found unchanged from t on, then at t they simultaneously held exactly what was read. */
  lemma DoubleCollectIsAtomic(h: seq<World>, t0: nat, t: nat, hi: nat, namespace: string, name: string,
                              s1: Reads, d1: Reads, r2: Reads, s2: Reads, d2: Reads, inputs: Inputs)
    requires Observed(h) && t0 <= t < |h| && RuleSetKey(namespace, name) in h[t0]
    requires var o := h[t0][RuleSetKey(namespace, name)];
      && o.spec.RuleSetSpec?
      && Timely(h, s1, t0, t, |o.spec.sources|) && Timely(h, d1, t0, t, |o.spec.data|)
      && inputs == Gathered(namespace, name, o, inputs.sources, inputs.data)
      && SourcesRead(h, s1, namespace, o.spec.sources, inputs.sources)
      && DataRead(h, d1, namespace, o.spec.data, inputs.data)
      && Timely(h, r2, t, hi, 1) && Timely(h, s2, t, hi, |o.spec.sources|) && Timely(h, d2, t, hi, |o.spec.data|)
      && Confirmed(h, r2, [Expected(RuleSetKey(namespace, name), o.uid, o.generation)])
    requires Confirmed(h, s2, ExpectedSources(namespace, inputs.sources))
    requires Confirmed(h, d2, ExpectedData(namespace, inputs.data))
    ensures Atomic(h[t], namespace, name) == Some(inputs)
  {
    var k := RuleSetKey(namespace, name);
    var o := h[t0][k];
    assert Matches(h[r2.at[0]], Expected(k, o.uid, o.generation));
    HeldAt(h, k, t0, t, r2.at[0]);
    SourcesHeld(h, s1, s2, t0, t, hi, namespace, o.spec.sources, inputs.sources);
    DataHeld(h, d1, d2, t0, t, hi, namespace, o.spec.data, inputs.data);
    var got := Atomic(h[t], namespace, name);
    assert got.Some?;
    assert got.value.sources == inputs.sources;
    assert got.value.data == inputs.data;
  }

  /** With the Engine read first and re-read first, the Engine held its value at the same instant. */
  lemma EngineHeldToo(h: seq<World>, te: nat, t0: nat, t: nat, hi: nat, engineKey: ObjectKey, namespace: string,
                      name: string, s1: Reads, d1: Reads, r2: Reads, s2: Reads, d2: Reads, inputs: Inputs)
    requires Observed(h) && te <= t0 <= t < |h| && engineKey in h[te] && RuleSetKey(namespace, name) in h[t0]
    requires var o := h[t0][RuleSetKey(namespace, name)];
      && o.spec.RuleSetSpec?
      && Timely(h, s1, t0, t, |o.spec.sources|) && Timely(h, d1, t0, t, |o.spec.data|)
      && inputs == Gathered(namespace, name, o, inputs.sources, inputs.data)
      && SourcesRead(h, s1, namespace, o.spec.sources, inputs.sources)
      && DataRead(h, d1, namespace, o.spec.data, inputs.data)
      && Timely(h, r2, t, hi, 2) && Timely(h, s2, t, hi, |o.spec.sources|) && Timely(h, d2, t, hi, |o.spec.data|)
      && Confirmed(h, r2, [Expected(engineKey, h[te][engineKey].uid, h[te][engineKey].generation),
                           Expected(RuleSetKey(namespace, name), o.uid, o.generation)])
    requires Confirmed(h, s2, ExpectedSources(namespace, inputs.sources))
    requires Confirmed(h, d2, ExpectedData(namespace, inputs.data))
    ensures engineKey in h[t] && SameVersion(h[t][engineKey], h[te][engineKey])
    ensures h[t][engineKey].spec == h[te][engineKey].spec
    ensures Atomic(h[t], namespace, name) == Some(inputs)
  {
    var o := h[t0][RuleSetKey(namespace, name)];
    assert Matches(h[r2.at[0]], Expected(engineKey, h[te][engineKey].uid, h[te][engineKey].generation));
    HeldAt(h, engineKey, te, t, r2.at[0]);
    var r := Reads([r2.at[1]], [r2.faults[1]]);
    assert Matches(h[r2.at[1]], Expected(RuleSetKey(namespace, name), o.uid, o.generation));
    DoubleCollectIsAtomic(h, t0, t, hi, namespace, name, s1, d1, r, s2, d2, inputs);
  }

  // ----- Acceptance -----

  datatype Acceptance = Accepted(contentHash: string, observedGeneration: nat) | Requeued | Failed

  ghost predicate Quiet(h: seq<World>, lo: nat, hi: nat) {
    forall u | lo <= u <= hi && u < |h| :: lo < |h| && h[u] == h[lo]
  }

  lemma QuietReads(h: seq<World>, t0: nat, t: nat, hi: nat, namespace: string, spec: Spec, s1: Reads, d1: Reads)
    requires t0 <= t <= hi < |h| && Quiet(h, t0, hi) && spec.RuleSetSpec? && Resolved(h[t0], namespace, spec)
    requires Timely(h, s1, t0, t, |spec.sources|) && Timely(h, d1, t0, t, |spec.data|) && NoFaults(s1) && NoFaults(d1)
    ensures forall i | 0 <= i < |spec.sources| :: Reads1(h, s1, i, SourceKey(namespace, spec.sources[i]))
    ensures forall i | 0 <= i < |spec.data| :: Reads1(h, d1, i, DataKey(namespace, spec.data[i]))
  {
    forall i | 0 <= i < |spec.sources| ensures Reads1(h, s1, i, SourceKey(namespace, spec.sources[i])) {
      assert h[s1.at[i]] == h[t0];
    }
    forall i | 0 <= i < |spec.data| ensures Reads1(h, d1, i, DataKey(namespace, spec.data[i])) {
      assert h[d1.at[i]] == h[t0];
    }
  }

  /** In a quiet cluster the two passes read what one instant holds. */
  lemma QuietLoads(h: seq<World>, t0: nat, t: nat, hi: nat, namespace: string, name: string,
                   s1: Reads, d1: Reads, s2: Reads, d2: Reads, inputs: Inputs)
    requires Observed(h) && t0 <= t <= hi < |h| && RuleSetKey(namespace, name) in h[t0] && Quiet(h, t0, hi)
    requires var o := h[t0][RuleSetKey(namespace, name)];
      && o.spec.RuleSetSpec? && Resolved(h[t0], namespace, o.spec)
      && Timely(h, s1, t0, t, |o.spec.sources|) && Timely(h, d1, t0, t, |o.spec.data|)
      && Timely(h, s2, t, hi, |o.spec.sources|) && Timely(h, d2, t, hi, |o.spec.data|)
      && inputs == Gathered(namespace, name, o, inputs.sources, inputs.data)
      && SourcesRead(h, s1, namespace, o.spec.sources, inputs.sources)
      && DataRead(h, d1, namespace, o.spec.data, inputs.data)
    requires NoFaults(s2) && NoFaults(d2)
    ensures Atomic(h[t0], namespace, name) == Some(inputs)
    ensures Confirmed(h, s2, ExpectedSources(namespace, inputs.sources))
    ensures Confirmed(h, d2, ExpectedData(namespace, inputs.data))
  {
    var got := Atomic(h[t0], namespace, name);
    assert got.value.sources == inputs.sources;
    assert got.value.data == inputs.data;
  }

  /** In a quiet cluster no re-read finds another version. */
  lemma QuietAgrees(h: seq<World>, t0: nat, t: nat, hi: nat, namespace: string, name: string,
                    s1: Reads, d1: Reads, r2: Reads, s2: Reads, d2: Reads, inputs: Inputs)
    requires t0 <= t <= hi < |h| && RuleSetKey(namespace, name) in h[t0] && Quiet(h, t0, hi)
    requires var o := h[t0][RuleSetKey(namespace, name)];
      && o.spec.RuleSetSpec?
      && Timely(h, s1, t0, t, |o.spec.sources|) && Timely(h, d1, t0, t, |o.spec.data|) && Timely(h, r2, t, hi, 1)
      && Timely(h, s2, t, hi, |o.spec.sources|) && Timely(h, d2, t, hi, |o.spec.data|)
      && SourcesRead(h, s1, namespace, o.spec.sources, inputs.sources)
      && DataRead(h, d1, namespace, o.spec.data, inputs.data)
    ensures var o := h[t0][RuleSetKey(namespace, name)];
      !Differs(h, r2, [Expected(RuleSetKey(namespace, name), o.uid, o.generation)])
    ensures !Differs(h, s2, ExpectedSources(namespace, inputs.sources))
    ensures !Differs(h, d2, ExpectedData(namespace, inputs.data))
  {
    var o := h[t0][RuleSetKey(namespace, name)];
    forall i | 0 <= i < |o.spec.sources| ensures Matches(h[s2.at[i]], ExpectedSources(namespace, inputs.sources)[i]) {
      assert h[s1.at[i]] == h[t0] == h[s2.at[i]];
    }
    forall i | 0 <= i < |o.spec.data| ensures Matches(h[d2.at[i]], ExpectedData(namespace, inputs.data)[i]) {
      assert h[d1.at[i]] == h[t0] == h[d2.at[i]];
    }
    assert h[r2.at[0]] == h[t0];
  }

  /** Loading at [t0, t], then acceptRules with its re-read at [t, hi]. digest stands for assembling
      and hashing the content; None is an assembly error. What is recorded is the digest of inputs
      that the cluster held at one instant, with the generation of the RuleSet at that instant. */
  method AcceptRules(h: seq<World>, t0: nat, t: nat, hi: nat, namespace: string, name: string,
                     s1: Reads, d1: Reads, r2: Reads, s2: Reads, d2: Reads, digest: Inputs -> Option<string>)
    returns (out: Acceptance)
    requires Observed(h) && t0 <= t < |h| && RuleSetKey(namespace, name) in h[t0]
    requires var spec := h[t0][RuleSetKey(namespace, name)].spec;
      && spec.RuleSetSpec?
      && Timely(h, s1, t0, t, |spec.sources|) && Timely(h, d1, t0, t, |spec.data|)
      && Timely(h, r2, t, hi, 1) && Timely(h, s2, t, hi, |spec.sources|) && Timely(h, d2, t, hi, |spec.data|)
    ensures out.Accepted? ==>
      && Atomic(h[t], namespace, name).Some?
      && digest(Atomic(h[t], namespace, name).value) == Some(out.contentHash)
      && out.observedGeneration == h[t][RuleSetKey(namespace, name)].generation
    ensures
      (&& Quiet(h, t0, hi) && NoFaults(s1) && NoFaults(d1) && NoFaults(r2) && NoFaults(s2) && NoFaults(d2)
       && Atomic(h[t0], namespace, name).Some? && digest(Atomic(h[t0], namespace, name).value).Some?) ==> out.Accepted?
    ensures out.Requeued? ==> !Quiet(h, t0, hi)
  {
    var o := h[t0][RuleSetKey(namespace, name)];
    assert t <= r2.at[0] <= hi < |h|;
    if Quiet(h, t0, hi) && NoFaults(s1) && NoFaults(d1) && Resolved(h[t0], namespace, o.spec) {
      QuietReads(h, t0, t, hi, namespace, o.spec, s1, d1);
    }
    var loaded := LoadRuleSetInputs(h, s1, d1, t0, t, namespace, name, o);
    if loaded.None? { return Failed; }
    var inputs := loaded.value;
    if Quiet(h, t0, hi) && NoFaults(s2) && NoFaults(d2) && Resolved(h[t0], namespace, o.spec) {
      QuietLoads(h, t0, t, hi, namespace, name, s1, d1, s2, d2, inputs);
    }
    var hash := digest(inputs);
    if hash.None? { return Failed; }
    var roots := [Expected(RuleSetKey(namespace, name), o.uid, o.generation)];
    var v := InputsChanged(h, r2, s2, d2, t, hi, roots, inputs);
    if v.Fault? { return Failed; }
    if v.Changed? {
      if Quiet(h, t0, hi) { QuietAgrees(h, t0, t, hi, namespace, name, s1, d1, r2, s2, d2, inputs); }
      return Requeued;
    }
    DoubleCollectIsAtomic(h, t0, t, hi, namespace, name, s1, d1, r2, s2, d2, inputs);
    assert Matches(h[r2.at[0]], roots[0]);
    HeldAt(h, RuleSetKey(namespace, name), t0, t, r2.at[0]);
    return Accepted(hash.value, o.generation);
  }
}
