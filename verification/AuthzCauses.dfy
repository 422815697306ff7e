/** Why a stream ends and what stops a refresh: nothing is cancelled without a cause, and revoking an
    Engine stops the refreshes it has under way. */
module AuthzCauses {
  import opened AuthzModel
  import opened AuthzRuns
  import opened AuthzRevocation

  // ----- Subscribing -----

  /** In every run a subscription passes its check if and only if the last refresh of its resource to land
      was captured after the last revocation, is within the bound and lists the identity; otherwise the
      stream is cancelled. */
  lemma CheckDecides(staleness: int, states: seq<State>, steps: seq<Step>, n: nat, k: nat)
    requires Run(staleness, states, steps) && n < |steps| && steps[n] == Check(k)
    ensures k in states[n].streams && k in states[n + 1].streams
    ensures var t, t' := states[n].streams[k], states[n + 1].streams[k];
      && (t'.passed <==> exists i: nat, j: nat :: Evidence(staleness, states, steps, i, j, n, t.resource, t.identity))
      && (t'.cancelled <==> t.cancelled || !t'.passed)
      && t'.resource == t.resource && t'.identity == t.identity
  {
    assert Enabled(states[n], steps[n]) && states[n + 1] == Apply(staleness, states[n], steps[n]);
    AuthorizedIffEvidence(staleness, states, steps, n, states[n].streams[k].resource, states[n].streams[k].identity);
  }

  // ----- Cancelling -----

  /** The step cancels stream k: on demand, by a failed check, or by a callback for its resource. */
  predicate Cancels(staleness: int, s: State, step: Step, k: nat) {
    && k in s.streams
    && var t := s.streams[k];
       || step == Cancel(k)
       || (step == Check(k) && !Authorized(s.index, t.resource, t.identity, s.now, staleness))
       || step == Notify(t.resource)
  }

  predicate Cancelled(s: State, k: nat) { k in s.streams && s.streams[k].cancelled }

  lemma StepCancels(staleness: int, s: State, step: Step, k: nat)
    requires Enabled(s, step) && Cancelled(Apply(staleness, s, step), k)
    ensures Cancelled(s, k) || Cancels(staleness, s, step, k)
  {
  }

  /** In every run a cancelled stream was cancelled by such a step. */
  lemma {:induction false} CancelledWithCause(staleness: int, states: seq<State>, steps: seq<Step>, n: nat, k: nat)
    returns (m: nat)
    requires Run(staleness, states, steps) && n <= |steps| && Cancelled(states[n], k)
    ensures m < n && Cancels(staleness, states[m], steps[m], k)
    decreases n
  {
    m := n - 1;
    StepCancels(staleness, states[m], steps[m], k);
    if !Cancels(staleness, states[m], steps[m], k) { m := CancelledWithCause(staleness, states, steps, n - 1, k); }
  }

  /** Step m took the entry of r away, or replaced it by one under which an account it listed loses
      admission. */
  ghost predicate Withdraws(states: seq<State>, m: nat, r: string)
    requires m + 1 < |states|
  {
    && r in states[m].index.entries
    && (r !in states[m + 1].index.entries
        || exists a | a in states[m].index.entries[r].identities ::
             !Admits(states[m + 1].index.entries[r].identities, Identity(a, states[m].index.entries[r].identities[a])))
  }

  lemma StepWithdraws(staleness: int, states: seq<State>, steps: seq<Step>, m: nat, r: string)
    requires Run(staleness, states, steps) && m < |steps| && r in states[m + 1].pending
    ensures r in states[m].pending || Withdraws(states, m, r)
  {
    assert Enabled(states[m], steps[m]) && states[m + 1] == Apply(staleness, states[m], steps[m]);
    if steps[m].Commit? {
      var f := states[m].refreshes[steps[m].id];
      if CommitRevokes(states[m].index, f.resource, f.generation, Entry(f.engine, steps[m].identities, states[m].now)) {
        RevokedIffLoses(states[m].index.entries[f.resource].identities, steps[m].identities);
      }
    }
  }

  /** In every run a callback is due only because such a step happened. */
  lemma {:induction false} DueWithCause(staleness: int, states: seq<State>, steps: seq<Step>, n: nat, r: string)
    returns (m: nat)
    requires Run(staleness, states, steps) && n <= |steps| && r in states[n].pending
    ensures m < n && Withdraws(states, m, r)
    decreases n
  {
    StepWithdraws(staleness, states, steps, n - 1, r);
    if r in states[n - 1].pending {
      m := DueWithCause(staleness, states, steps, n - 1, r);
    } else {
      m := n - 1;
    }
  }

  /** And whenever an entry is taken away a callback becomes due. */
  lemma WithdrawnIsDue(staleness: int, states: seq<State>, steps: seq<Step>, m: nat, r: string)
    requires Run(staleness, states, steps) && m < |steps| && Withdraws(states, m, r)
    ensures r in states[m + 1].pending
  {
    RunConsistent(staleness, states, steps, m);
    StepDue(staleness, states[m], steps[m], r);
    var s, s' := states[m], states[m + 1];
    if r in s'.index.entries {
      StepEntry(staleness, s, steps[m], r);
      RevokedIffLoses(s.index.entries[r].identities, s'.index.entries[r].identities);
    }
  }

  lemma StepDue(staleness: int, s: State, step: Step, r: string)
    requires Enabled(s, step) && Consistent(s) && r in s.index.entries
    ensures r !in Apply(staleness, s, step).index.entries ==> r in Apply(staleness, s, step).pending
  {
    if step.RevokeEngine? && r in s.index.known {
      OneEngine(r, s.index.entries[r].engine, s.index.known[r]);
    }
  }

  // ----- Revoking an Engine -----

  lemma StillKnown(staleness: int, s: State, step: Step, r: string, engine: EngineRef)
    requires Enabled(s, step) && Consistent(s) && r in s.index.known && s.index.known[r] == engine
    requires !Bumps(s, Apply(staleness, s, step), r) && step != Forget(r)
    ensures r in Apply(staleness, s, step).index.known && Apply(staleness, s, step).index.known[r] == engine
  {
    var s' := Apply(staleness, s, step);
    if step.Begin? && s.refreshes[step.id].resource == r {
      OneEngine(r, s.refreshes[step.id].engine, engine);
    }
  }

  predicate Knows(s: State, r: string, engine: EngineRef) { r in s.index.known && s.index.known[r] == engine }

  lemma BeginKnows(staleness: int, s: State, id: nat)
    requires Enabled(s, Begin(id)) && id in Apply(staleness, s, Begin(id)).refreshes
    ensures Knows(Apply(staleness, s, Begin(id)), s.refreshes[id].resource, s.refreshes[id].engine)
    ensures Count(s.index, s.refreshes[id].resource) == s.refreshes[id].generation
  {
  }

  /** What the index knows it knows until it is revoked or forgotten. */
  lemma {:induction false} KnownStays(staleness: int, states: seq<State>, steps: seq<Step>, a: nat, n: nat,
                                      r: string, engine: EngineRef)
    requires Run(staleness, states, steps) && a <= n <= |steps| && Knows(states[a], r, engine)
    requires forall m | a <= m < n :: !Bumps(states[m], states[m + 1], r) && steps[m] != Forget(r)
    ensures Knows(states[n], r, engine)
    decreases n
  {
    if a < n {
      var m := n - 1;
      KnownStays(staleness, states, steps, a, m, r, engine);
      RunConsistent(staleness, states, steps, m);
      assert !Bumps(states[m], states[m + 1], r) && steps[m] != Forget(r);
      StillKnown(staleness, states[m], steps[m], r, engine);
    }
  }

  /** So revoking an Engine stops every refresh of it that has begun and was not forgotten since: none of
      them lands any more. */
  lemma EngineRevokedStops(staleness: int, states: seq<State>, steps: seq<Step>, b: nat, m: nat, n: nat, id: nat)
    requires Run(staleness, states, steps) && b < m < n < |steps| && steps[b] == Begin(id)
    requires id in states[b + 1].refreshes && steps[m] == RevokeEngine(states[b].refreshes[id].engine)
    requires var f := states[b].refreshes[id];
      && (forall u | b <= u < m :: steps[u] != Forget(f.resource))
      && id in states[n].refreshes && states[n].refreshes[id].resource == f.resource
      && states[n].refreshes[id].generation == f.generation
    ensures steps[n].Commit? && steps[n].id == id ==> !Lands(states[n], steps[n], states[b].refreshes[id].resource)
  {
    var f := states[b].refreshes[id];
    BeginKnows(staleness, states[b], id);
    CountsGrow(staleness, states, steps, b, m, f.resource);
    CountsGrow(staleness, states, steps, m + 1, n, f.resource);
    if Count(states[m].index, f.resource) == f.generation {
      CountsStill(staleness, states, steps, b, m, f.resource);
      KnownStays(staleness, states, steps, b + 1, m, f.resource, f.engine);
      RevocationBumps(staleness, states[m], steps[m], f.resource);
    }
    CountsGrow(staleness, states, steps, m, m + 1, f.resource);
  }
}
