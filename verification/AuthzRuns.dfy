/** Refreshes, revocations and subscriptions interleaved at their lock releases. A periodic pass
    captures its generations in one section; capturing them one by one allows every interleaving
    of that and more. */
module AuthzRuns {
  import opened Names
  import opened AuthzModel

  /** A refresh between its sections: the Engine it is for, the generation it captured, and whether
      it passed the first section. */
  datatype Refresh = Refresh(engine: EngineRef, resource: string, generation: nat, begun: bool)

  /** A registered stream: its recorded resource, whether its check against the index passed since,
      and whether it was cancelled. */
  datatype Sub = Sub(identity: Identity, resource: string, passed: bool, cancelled: bool)

  /** pending counts the revoke callbacks that are due but have not run. */
  datatype State = State(index: Index, now: int, refreshes: map<nat, Refresh>, streams: map<nat, Sub>,
                         pending: multiset<string>)

  datatype Step =
    | Capture(id: nat, engine: EngineRef, uid: string)
    | Begin(id: nat)
    | Commit(id: nat, identities: map<string, string>)
    | Abandon(id: nat)
    | Revoke(resource: string)
    | Expire(resource: string)
    | RevokeEngine(engine: EngineRef)
    | Forget(resource: string)
    | Notify(resource: string)
    | Register(sub: nat, identity: Identity)
    | SetResource(sub: nat, resource: string)
    | Check(sub: nat)
    | Cancel(sub: nat)
    | Tick(elapsed: nat)

  const START := State(EMPTY, 0, map[], map[], multiset{})

  predicate Enabled(s: State, step: Step) {
    match step
    case Capture(id, engine, uid) => id !in s.refreshes && Wellformed(engine.namespace, engine.name, uid)
    case Begin(id) => id in s.refreshes && !s.refreshes[id].begun
    case Commit(id, _) => id in s.refreshes && s.refreshes[id].begun
    case Abandon(id) => id in s.refreshes
    case Notify(r) => r in s.pending
    case Register(n, _) => n !in s.streams
    case SetResource(n, _) => n in s.streams
    case Check(n) => n in s.streams
    case Cancel(n) => n in s.streams
    case _ => true
  }

  function Notice(due: bool, r: string): multiset<string> { if due then multiset{r} else multiset{} }

  /** RevokeResource: every stream on the resource is cancelled. */
  function CancelAll(streams: map<nat, Sub>, r: string): map<nat, Sub> {
    map n | n in streams :: if streams[n].resource == r then streams[n].(cancelled := true) else streams[n]
  }

  function Apply(staleness: int, s: State, step: Step): State
    requires Enabled(s, step)
  {
    match step
    case Capture(id, engine, uid) =>
      var r := ResourceName(engine.namespace, engine.name, uid);
      s.(refreshes := s.refreshes[id := Refresh(engine, r, Count(s.index, r), false)])
    case Begin(id) =>
      var f := s.refreshes[id];
      s.(index := Begun(s.index, f.resource, f.generation, f.engine),
         refreshes := if Count(s.index, f.resource) == f.generation then s.refreshes[id := f.(begun := true)]
                      else s.refreshes - {id})
    case Commit(id, identities) =>
      var f := s.refreshes[id];
      var entry := Entry(f.engine, identities, s.now);
      s.(index := Committed(s.index, f.resource, f.generation, entry), refreshes := s.refreshes - {id},
         pending := s.pending + Notice(CommitRevokes(s.index, f.resource, f.generation, entry), f.resource))
    case Abandon(id) => s.(refreshes := s.refreshes - {id})
    case Revoke(r) => s.(index := Dropped(s.index, r), pending := s.pending + Notice(r in s.index.entries, r))
    case Expire(r) =>
      s.(index := Expired(s.index, r, s.now, staleness),
         pending := s.pending + Notice(r in s.index.entries && Stale(s.index.entries[r], s.now, staleness), r))
    case RevokeEngine(engine) =>
      s.(index := EngineRevoked(s.index, engine), pending := s.pending + multiset(Listed(s.index, engine)))
    case Forget(r) => s.(index := Forgotten(s.index, r))
    case Notify(r) => s.(streams := CancelAll(s.streams, r), pending := s.pending - multiset{r})
    case Register(n, identity) => s.(streams := s.streams[n := Sub(identity, "", false, false)])
    case SetResource(n, r) => s.(streams := s.streams[n := s.streams[n].(resource := r, passed := false)])
    // a failed check ends the stream
    case Check(n) =>
      var t := s.streams[n];
      var ok := Authorized(s.index, t.resource, t.identity, s.now, staleness);
      s.(streams := s.streams[n := t.(passed := ok, cancelled := t.cancelled || !ok)])
    case Cancel(n) => s.(streams := s.streams[n := s.streams[n].(cancelled := true)])
    case Tick(elapsed) => s.(now := s.now + elapsed)
  }

  /** A run: the states between the steps. */
  ghost predicate Run(staleness: int, states: seq<State>, steps: seq<Step>) {
    && |states| == |steps| + 1 && states[0] == START
    && forall i | 0 <= i < |steps| ::
         Enabled(states[i], steps[i]) && states[i + 1] == Apply(staleness, states[i], steps[i])
  }

  // ----- Subscribe against revoke -----

  /** A live stream that passed its check is admitted by the current entry, or is about to be cancelled. */
  ghost predicate Covered(ix: Index, pending: multiset<string>, t: Sub) {
    t.passed && !t.cancelled ==>
      t.resource in pending || (t.resource in ix.entries && Admits(ix.entries[t.resource].identities, t.identity))
  }

  ghost predicate AllCovered(s: State) {
    forall n | n in s.streams :: Covered(s.index, s.pending, s.streams[n])
  }

  /** A commit that takes effect does not resolve a UID that was unresolved. */
  ghost predicate NoneResolved(s: State, step: Step)
    requires Enabled(s, step)
  {
    step.Commit? ==>
      var r := s.refreshes[step.id].resource;
      Count(s.index, r) == s.refreshes[step.id].generation && r in s.index.entries ==>
        !Resolves(s.index.entries[r].identities, step.identities)
  }

  lemma CommitCovers(staleness: int, s: State, step: Step, t: Sub)
    requires Enabled(s, step) && step.Commit? && NoneResolved(s, step) && Covered(s.index, s.pending, t)
    ensures Covered(Apply(staleness, s, step).index, Apply(staleness, s, step).pending, t)
  {
    var r := s.refreshes[step.id].resource;
    if Count(s.index, r) == s.refreshes[step.id].generation && r in s.index.entries && t.resource == r
       && !Revoked(s.index.entries[r].identities, step.identities) {
      UnrevokedKeepsIff(s.index.entries[r].identities, step.identities);
    }
  }

  lemma RevokeCovers(staleness: int, s: State, step: Step, t: Sub)
    requires Enabled(s, step) && (step.Revoke? || step.Expire? || step.RevokeEngine?) && Covered(s.index, s.pending, t)
    requires Consistent(s)
    ensures Covered(Apply(staleness, s, step).index, Apply(staleness, s, step).pending, t)
  {
    if step.RevokeEngine? && t.resource in s.index.entries && t.resource in s.index.known {
      OneEngine(t.resource, s.index.entries[t.resource].engine, s.index.known[t.resource]);
    }
  }

  // ----- A resource name belongs to one Engine -----

  ghost predicate NamedBy(r: string, engine: EngineRef) {
    exists uid ::
      Wellformed(engine.namespace, engine.name, uid) && r == ResourceName(engine.namespace, engine.name, uid)
  }

  lemma OneEngine(r: string, a: EngineRef, b: EngineRef)
    requires NamedBy(r, a) && NamedBy(r, b)
    ensures a == b
  {
    var u :| Wellformed(a.namespace, a.name, u) && r == ResourceName(a.namespace, a.name, u);
    var v :| Wellformed(b.namespace, b.name, v) && r == ResourceName(b.namespace, b.name, v);
    ResourceNameInjective(a.namespace, a.name, u, b.namespace, b.name, v);
  }

  ghost predicate RefreshesNamed(refreshes: map<nat, Refresh>) {
    forall id | id in refreshes :: NamedBy(refreshes[id].resource, refreshes[id].engine)
  }

  ghost predicate IndexNamed(ix: Index) {
    && (forall r | r in ix.entries :: NamedBy(r, ix.entries[r].engine))
    && (forall r | r in ix.known :: NamedBy(r, ix.known[r]))
  }

  ghost predicate Consistent(s: State) { IndexNamed(s.index) && RefreshesNamed(s.refreshes) }

  lemma StepRefreshesNamed(staleness: int, s: State, step: Step)
    requires Enabled(s, step) && RefreshesNamed(s.refreshes)
    ensures RefreshesNamed(Apply(staleness, s, step).refreshes)
  {
  }

  lemma StepIndexNamed(staleness: int, s: State, step: Step)
    requires Enabled(s, step) && Consistent(s)
    ensures IndexNamed(Apply(staleness, s, step).index)
  {
  }

  lemma StepConsistent(staleness: int, s: State, step: Step)
    requires Enabled(s, step) && Consistent(s)
    ensures Consistent(Apply(staleness, s, step))
  {
    StepRefreshesNamed(staleness, s, step);
    StepIndexNamed(staleness, s, step);
  }

  lemma {:induction false} RunConsistent(staleness: int, states: seq<State>, steps: seq<Step>, n: nat)
    requires Run(staleness, states, steps) && n <= |steps|
    ensures Consistent(states[n])
  {
    if n > 0 {
      RunConsistent(staleness, states, steps, n - 1);
      StepConsistent(staleness, states[n - 1], steps[n - 1]);
    }
  }

  /** The other steps. A check passes only on an entry that admits the stream at that instant; a
      callback cancels every stream on its resource, so it uncovers none. */
  lemma OtherCovers(staleness: int, s: State, step: Step, n: nat)
    requires Enabled(s, step) && !step.Revoke? && !step.Expire? && !step.RevokeEngine? && !step.Commit?
    requires AllCovered(s) && n in Apply(staleness, s, step).streams
    ensures var s' := Apply(staleness, s, step); Covered(s'.index, s'.pending, s'.streams[n])
  {
    assert n in s.streams ==> Covered(s.index, s.pending, s.streams[n]);
  }

  lemma StepCovers(staleness: int, s: State, step: Step)
    requires Enabled(s, step) && NoneResolved(s, step) && AllCovered(s) && Consistent(s)
    ensures AllCovered(Apply(staleness, s, step))
  {
    var s' := Apply(staleness, s, step);
    forall n | n in s'.streams ensures Covered(s'.index, s'.pending, s'.streams[n]) {
      if step.Commit? { CommitCovers(staleness, s, step, s.streams[n]); }
      else if step.Revoke? || step.Expire? || step.RevokeEngine? { RevokeCovers(staleness, s, step, s.streams[n]); }
      else { OtherCovers(staleness, s, step, n); }
    }
  }

  lemma {:induction false} RunCovers(staleness: int, states: seq<State>, steps: seq<Step>, n: nat)
    requires Run(staleness, states, steps) && n <= |steps|
    requires forall i | 0 <= i < |steps| :: NoneResolved(states[i], steps[i])
    ensures AllCovered(states[n]) && Consistent(states[n])
  {
    if n > 0 {
      RunCovers(staleness, states, steps, n - 1);
      StepCovers(staleness, states[n - 1], steps[n - 1]);
      StepConsistent(staleness, states[n - 1], steps[n - 1]);
    }
  }

  /** In every run, whenever no cancel is due, every live stream that passed its check is admitted by
      its resource's current entry. */
  lemma PassedIsAdmitted(staleness: int, states: seq<State>, steps: seq<Step>, n: nat, k: nat)
    requires Run(staleness, states, steps) && n <= |steps| && states[n].pending == multiset{}
    requires forall i | 0 <= i < |steps| :: NoneResolved(states[i], steps[i])
    requires k in states[n].streams && states[n].streams[k].passed && !states[n].streams[k].cancelled
    ensures var t := states[n].streams[k];
      t.resource in states[n].index.entries && Admits(states[n].index.entries[t.resource].identities, t.identity)
  {
    RunCovers(staleness, states, steps, n);
    assert Covered(states[n].index, states[n].pending, states[n].streams[k]);
  }

  /** With every ServiceAccount UID resolved no commit can resolve one. */
  lemma {:induction false} ResolvedUids(staleness: int, states: seq<State>, steps: seq<Step>, n: nat)
    requires Run(staleness, states, steps) && n <= |steps|
    requires forall i | 0 <= i < |steps| && steps[i].Commit? :: "" !in steps[i].identities.Values
    ensures forall r | r in states[n].index.entries :: "" !in states[n].index.entries[r].identities.Values
    ensures n < |steps| ==> NoneResolved(states[n], steps[n])
  {
    if n > 0 {
      ResolvedUids(staleness, states, steps, n - 1);
    }
  }

  /** Without that, a commit may leave a live stream that its resource no longer admits, with no
      cancel due: whenever the new mapping resolves the stream's account to another UID. */
  lemma ResolvedUidLeavesStream(staleness: int, s: State, id: nat, identities: map<string, string>, n: nat)
    requires Enabled(s, Commit(id, identities)) && n in s.streams && s.pending == multiset{}
    requires var r := s.refreshes[id].resource;
      && Count(s.index, r) == s.refreshes[id].generation && r in s.index.entries
      && !Revoked(s.index.entries[r].identities, identities)
      && s.streams[n].resource == r && s.streams[n].passed && !s.streams[n].cancelled
      && Admits(s.index.entries[r].identities, s.streams[n].identity) && s.streams[n].identity.uid != ""
      && identities[s.streams[n].identity.key] !in {"", s.streams[n].identity.uid}
    ensures Resolves(s.index.entries[s.refreshes[id].resource].identities, identities)
    ensures var s' := Apply(staleness, s, Commit(id, identities));
      s'.pending == multiset{} && !AllCovered(s')
  {
    var s' := Apply(staleness, s, Commit(id, identities));
    assert !Covered(s'.index, s'.pending, s'.streams[n]);
  }

  lemma Longer(staleness: int, states: seq<State>, steps: seq<Step>, step: Step)
    requires Run(staleness, states, steps) && Enabled(states[|steps|], step)
    ensures Run(staleness, states + [Apply(staleness, states[|steps|], step)], steps + [step])
  {
  }

  /** A refresh whose reader returned the account with an empty UID. */
  ghost predicate Unresolved(s: State, r: string, identity: Identity) {
    && s.index.revocations == map[] && r in s.index.entries && s.index.entries[r].identities == map[identity.key := ""]
    && s.index.entries[r].refreshedAt == s.now && s.refreshes == map[] && s.pending == multiset{}
    && s.streams == map[0 := Sub(identity, r, false, false)]
  }

  lemma Subscribing(staleness: int, r: string, identity: Identity) returns (states: seq<State>, steps: seq<Step>)
    ensures Run(staleness, states, steps)
    ensures states[|steps|] == START.(streams := map[0 := Sub(identity, r, false, false)])
  {
    var s1 := Apply(staleness, START, Register(0, identity));
    states, steps := [START], [];
    Longer(staleness, states, steps, Register(0, identity));
    states, steps := states + [s1], steps + [Register(0, identity)];
    Longer(staleness, states, steps, SetResource(0, r));
    states, steps := states + [Apply(staleness, s1, SetResource(0, r))], steps + [SetResource(0, r)];
  }

  lemma UnresolvedEntry(staleness: int, engine: EngineRef, uid: string, identity: Identity)
    returns (states: seq<State>, steps: seq<Step>)
    requires Wellformed(engine.namespace, engine.name, uid)
    ensures Run(staleness, states, steps)
    ensures Unresolved(states[|steps|], ResourceName(engine.namespace, engine.name, uid), identity)
  {
    var r := ResourceName(engine.namespace, engine.name, uid);
    states, steps := Subscribing(staleness, r, identity);
    var s2 := states[|steps|];
    var s3 := Apply(staleness, s2, Capture(0, engine, uid));
    var s4 := Apply(staleness, s3, Begin(0));
    var s5 := Apply(staleness, s4, Commit(0, map[identity.key := ""]));
    Longer(staleness, states, steps, Capture(0, engine, uid));
    states, steps := states + [s3], steps + [Capture(0, engine, uid)];
    Longer(staleness, states, steps, Begin(0));
    states, steps := states + [s4], steps + [Begin(0)];
    Longer(staleness, states, steps, Commit(0, map[identity.key := ""]));
    states, steps := states + [s5], steps + [Commit(0, map[identity.key := ""])];
  }

  /** So the premise is needed. If the reader returns a ServiceAccount without a UID and later the
      account with a UID other than the stream's, a run from the start ends with a live stream that
      passed its check, that its resource does not admit, and no cancel due. */
  lemma UnresolvedRun(staleness: nat, engine: EngineRef, uid: string, identity: Identity, resolved: string)
    returns (states: seq<State>, steps: seq<Step>)
    requires Wellformed(engine.namespace, engine.name, uid)
    requires identity.uid != "" && resolved != "" && resolved != identity.uid
    ensures Run(staleness, states, steps)
    ensures states[|steps|].pending == multiset{} && !AllCovered(states[|steps|])
  {
    var r := ResourceName(engine.namespace, engine.name, uid);
    states, steps := UnresolvedEntry(staleness, engine, uid, identity);
    var s5 := states[|steps|];
    var s6 := Apply(staleness, s5, Check(0));
    var s7 := Apply(staleness, s6, Capture(1, engine, uid));
    var s8 := Apply(staleness, s7, Begin(1));
    ResolvedUidLeavesStream(staleness, s8, 1, map[identity.key := resolved], 0);
    Longer(staleness, states, steps, Check(0));
    states, steps := states + [s6], steps + [Check(0)];
    Longer(staleness, states, steps, Capture(1, engine, uid));
    states, steps := states + [s7], steps + [Capture(1, engine, uid)];
    Longer(staleness, states, steps, Begin(1));
    states, steps := states + [s8], steps + [Begin(1)];
    Longer(staleness, states, steps, Commit(1, map[identity.key := resolved]));
    states := states + [Apply(staleness, s8, Commit(1, map[identity.key := resolved]))];
    steps := steps + [Commit(1, map[identity.key := resolved])];
  }
}
