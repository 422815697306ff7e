/** A revocation is never undone by an older refresh: whatever the interleaving, an entry was
    committed by a refresh that captured its generation after the last revocation of its resource. */
module AuthzRevocation {
  import opened Names
  import opened AuthzModel
  import opened AuthzRuns

  predicate Bumps(s: State, s': State, r: string) { Count(s.index, r) != Count(s'.index, r) }

  /** Revocation counters only grow, and whoever bumps a counter drops the entry. */
  lemma StepCounts(staleness: int, s: State, step: Step, r: string)
    requires Enabled(s, step)
    ensures var s' := Apply(staleness, s, step);
      && Count(s.index, r) <= Count(s'.index, r)
      && (Bumps(s, s', r) ==> r !in s'.index.entries)
  {
  }

  /** Every revocation of the resource bumps its counter: RevokeAndNotify always, an expiry that
      finds the entry stale, and RevokeEngine when the index has it as the Engine's. */
  lemma RevocationBumps(staleness: int, s: State, step: Step, r: string)
    requires Enabled(s, step)
    ensures Bumps(s, Apply(staleness, s, step), r) <==>
      || step == Revoke(r)
      || (step == Expire(r) && r in s.index.entries && Stale(s.index.entries[r], s.now, staleness))
      || (step.RevokeEngine? && r in Affected(s.index, step.engine))
  {
  }

  /** A commit that finds its generation unchanged. */
  predicate Lands(s: State, step: Step, r: string) {
    && step.Commit? && step.id in s.refreshes
    && s.refreshes[step.id].resource == r && s.refreshes[step.id].generation == Count(s.index, r)
  }

  /** Only a landing commit writes an entry. */
  lemma StepEntry(staleness: int, s: State, step: Step, r: string)
    requires Enabled(s, step) && r in Apply(staleness, s, step).index.entries
    ensures if Lands(s, step, r)
      then Apply(staleness, s, step).index.entries[r] == Entry(s.refreshes[step.id].engine, step.identities, s.now)
      else r in s.index.entries && Apply(staleness, s, step).index.entries[r] == s.index.entries[r]
  {
  }

  lemma CountsStep(staleness: int, states: seq<State>, steps: seq<Step>, m: nat, r: string)
    requires Run(staleness, states, steps) && m < |steps|
    ensures Count(states[m].index, r) <= Count(states[m + 1].index, r)
  {
    StepCounts(staleness, states[m], steps[m], r);
  }

  lemma {:induction false} CountsGrow(staleness: int, states: seq<State>, steps: seq<Step>, i: nat, n: nat, r: string)
    requires Run(staleness, states, steps) && i <= n <= |steps|
    ensures Count(states[i].index, r) <= Count(states[n].index, r)
    decreases n - i
  {
    if i < n {
      CountsStep(staleness, states, steps, i, r);
      CountsGrow(staleness, states, steps, i + 1, n, r);
    }
  }

  /** An unchanged counter means no revocation in between. */
  lemma CountsStill(staleness: int, states: seq<State>, steps: seq<Step>, i: nat, n: nat, r: string)
    requires Run(staleness, states, steps) && i <= n <= |steps|
    requires Count(states[i].index, r) == Count(states[n].index, r)
    ensures forall m | i <= m < n :: !Bumps(states[m], states[m + 1], r)
  {
    forall m | i <= m < n ensures !Bumps(states[m], states[m + 1], r) {
      CountsGrow(staleness, states, steps, i, m, r);
      CountsGrow(staleness, states, steps, m, m + 1, r);
      CountsGrow(staleness, states, steps, m + 1, n, r);
    }
  }

  predicate Captures(step: Step, id: nat, r: string) {
    step.Capture? && step.id == id && r == ResourceName(step.engine.namespace, step.engine.name, step.uid)
  }

  lemma StepRefresh(staleness: int, s: State, step: Step, id: nat)
    requires Enabled(s, step) && id in Apply(staleness, s, step).refreshes
    ensures var f := Apply(staleness, s, step).refreshes[id];
      || (Captures(step, id, f.resource) && f.generation == Count(s.index, f.resource))
      || (id in s.refreshes && s.refreshes[id].resource == f.resource && s.refreshes[id].generation == f.generation)
  {
  }

  /** Every refresh under way captured its generation at some earlier step. */
  lemma {:induction false} Captured(staleness: int, states: seq<State>, steps: seq<Step>, n: nat, id: nat)
    returns (i: nat)
    requires Run(staleness, states, steps) && n <= |steps| && id in states[n].refreshes
    ensures i < n && Captures(steps[i], id, states[n].refreshes[id].resource)
    ensures states[n].refreshes[id].generation == Count(states[i].index, states[n].refreshes[id].resource)
    decreases n
  {
    var r, g := states[n].refreshes[id].resource, states[n].refreshes[id].generation;
    StepRefresh(staleness, states[n - 1], steps[n - 1], id);
    if Captures(steps[n - 1], id, r) && g == Count(states[n - 1].index, r) {
      i := n - 1;
    } else {
      i := Captured(staleness, states, steps, n - 1, id);
    }
  }

  /** Steps i and j are the capture and the landing commit of one refresh of r, and nothing revoked r
      from the capture to instant n. */
  ghost predicate CommittedSince(states: seq<State>, steps: seq<Step>, i: nat, j: nat, n: nat, r: string)
    requires |states| == |steps| + 1 && n <= |steps|
  {
    && i < j < n && steps[j].Commit? && Captures(steps[i], steps[j].id, r) && Lands(states[j], steps[j], r)
    && forall m | i <= m < n :: !Bumps(states[m], states[m + 1], r)
  }

  /** No refresh of r landed after step j up to instant n. */
  ghost predicate LastLanding(states: seq<State>, steps: seq<Step>, j: nat, n: nat, r: string)
    requires |states| == |steps| + 1 && n <= |steps|
  {
    forall m | j < m < n :: !Lands(states[m], steps[m], r)
  }

  lemma {:induction false} EntryOrigin(staleness: int, states: seq<State>, steps: seq<Step>, n: nat, r: string)
    returns (i: nat, j: nat)
    requires Run(staleness, states, steps) && n <= |steps| && r in states[n].index.entries
    ensures CommittedSince(states, steps, i, j, n, r) && LastLanding(states, steps, j, n, r)
    ensures states[n].index.entries[r].identities == steps[j].identities
    ensures states[n].index.entries[r].refreshedAt == states[j].now
    decreases n
  {
    StepEntry(staleness, states[n - 1], steps[n - 1], r);
    StepCounts(staleness, states[n - 1], steps[n - 1], r);
    if Lands(states[n - 1], steps[n - 1], r) {
      j := n - 1;
      i := Captured(staleness, states, steps, j, steps[j].id);
      CountsStill(staleness, states, steps, i, j, r);
    } else {
      i, j := EntryOrigin(staleness, states, steps, n - 1, r);
    }
  }

  /** A step that does not revoke r and lands no refresh of it leaves its entry. */
  lemma StepKeepsEntry(staleness: int, s: State, step: Step, r: string)
    requires Enabled(s, step) && r in s.index.entries
    requires !Bumps(s, Apply(staleness, s, step), r) && !Lands(s, step, r)
    ensures r in Apply(staleness, s, step).index.entries
    ensures Apply(staleness, s, step).index.entries[r] == s.index.entries[r]
  {
  }

  lemma LandingWrites(staleness: int, s: State, step: Step, r: string)
    requires Enabled(s, step) && Lands(s, step, r)
    ensures var s' := Apply(staleness, s, step);
      && r in s'.index.entries && s'.index.entries[r].identities == step.identities
      && s'.index.entries[r].refreshedAt == s.now
  {
  }

  /** A refresh that landed stands until the resource is revoked or another one lands. */
  lemma {:induction false} EntryStands(staleness: int, states: seq<State>, steps: seq<Step>, j: nat, n: nat, r: string)
    requires Run(staleness, states, steps) && j < n <= |steps| && Lands(states[j], steps[j], r)
    requires LastLanding(states, steps, j, n, r) && forall m | j <= m < n :: !Bumps(states[m], states[m + 1], r)
    ensures r in states[n].index.entries
    ensures states[n].index.entries[r].identities == steps[j].identities
    ensures states[n].index.entries[r].refreshedAt == states[j].now
    decreases n
  {
    if n == j + 1 {
      LandingWrites(staleness, states[j], steps[j], r);
    } else {
      EntryStands(staleness, states, steps, j, n - 1, r);
      var m := n - 1;
      assert !Bumps(states[m], states[m + 1], r) && !Lands(states[m], steps[m], r);
      StepKeepsEntry(staleness, states[n - 1], steps[n - 1], r);
    }
  }

  /** The last refresh of r to land was captured after its last revocation, committed within the
      staleness bound, and lists the identity. */
  ghost predicate Evidence(staleness: int, states: seq<State>, steps: seq<Step>, i: nat, j: nat, n: nat, r: string,
                           who: Identity)
    requires |states| == |steps| + 1 && n <= |steps|
  {
    && CommittedSince(states, steps, i, j, n, r) && LastLanding(states, steps, j, n, r)
    && states[n].now - states[j].now <= staleness
    && who.key in steps[j].identities
    && (steps[j].identities[who.key] == who.uid || "" in {steps[j].identities[who.key], who.uid})
  }

  lemma AuthorizedOnEvidence(staleness: int, states: seq<State>, steps: seq<Step>, n: nat, r: string, who: Identity)
    returns (i: nat, j: nat)
    requires Run(staleness, states, steps) && n <= |steps|
    requires Authorized(states[n].index, r, who, states[n].now, staleness)
    ensures Evidence(staleness, states, steps, i, j, n, r, who)
  {
    i, j := EntryOrigin(staleness, states, steps, n, r);
  }

  lemma EvidenceAuthorizes(staleness: int, states: seq<State>, steps: seq<Step>, i: nat, j: nat, n: nat, r: string,
                           who: Identity)
    requires Run(staleness, states, steps) && n <= |steps| && Evidence(staleness, states, steps, i, j, n, r, who)
    ensures Authorized(states[n].index, r, who, states[n].now, staleness)
  {
    EntryStands(staleness, states, steps, j, n, r);
  }

  /** In every run Authorize answers true if and only if there is such a refresh. */
  lemma AuthorizedIffEvidence(staleness: int, states: seq<State>, steps: seq<Step>, n: nat, r: string, who: Identity)
    requires Run(staleness, states, steps) && n <= |steps|
    ensures Authorized(states[n].index, r, who, states[n].now, staleness) <==>
      exists i: nat, j: nat :: Evidence(staleness, states, steps, i, j, n, r, who)
  {
    if Authorized(states[n].index, r, who, states[n].now, staleness) {
      var i, j := AuthorizedOnEvidence(staleness, states, steps, n, r, who);
    }
    if i: nat, j: nat :| Evidence(staleness, states, steps, i, j, n, r, who) {
      EvidenceAuthorizes(staleness, states, steps, i, j, n, r, who);
    }
  }

  /** An expiry changes nothing while the last refresh to land is within the bound; past it the entry
      goes, the revocation is counted and the streams are due to be cancelled. */
  lemma ExpiryIff(staleness: int, states: seq<State>, steps: seq<Step>, i: nat, j: nat, n: nat, r: string)
    requires Run(staleness, states, steps) && n <= |steps|
    requires CommittedSince(states, steps, i, j, n, r) && LastLanding(states, steps, j, n, r)
    ensures var s, s' := states[n], Apply(staleness, states[n], Expire(r));
      if states[n].now - states[j].now <= staleness then s' == s
      else
        && r !in s'.index.entries && Count(s'.index, r) == Count(s.index, r) + 1
        && s'.pending == s.pending + multiset{r}
  {
    EntryStands(staleness, states, steps, j, n, r);
    assert states[n].pending + multiset{} == states[n].pending;
  }

  /** In particular no refresh captured before a revocation is behind an entry seen after it. */
  lemma OldRefreshNeverWins(staleness: int, states: seq<State>, steps: seq<Step>, m: nat, n: nat, r: string)
    requires Run(staleness, states, steps) && m < n <= |steps|
    requires Bumps(states[m], states[m + 1], r) && r in states[n].index.entries
    ensures exists i: nat, j: nat :: CommittedSince(states, steps, i, j, n, r) && m < i
  {
    var i, j := EntryOrigin(staleness, states, steps, n, r);
  }
}
