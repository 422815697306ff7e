/** The bootstrap policy of an Engine's EnvoyFilter over successive reconciles. Reconciles of one
    Engine do not overlap, but the filter and the status may change between their steps. */
module Bootstrap {
  import opened Strings

  const FAIL := "fail"
  const ALLOW := "allow"

  /** bootstrapPolicy */
  function BootstrapPolicy(previous: string, desired: string, acceptedActive: bool): string {
    if desired == ALLOW && (previous == ALLOW || (previous != "" && acceptedActive)) then ALLOW else FAIL
  }

  /** The part of an accepted configuration the policy looks at. */
  datatype Accepted = Accepted(version: string, failurePolicy: string)

  /** Where the Engine's reconcile stands: the filter read and not yet applied, or applied and not yet
      recorded. */
  datatype Phase =
    | Idle
    | Reading(version: string, desired: string, seen: Option<string>, view: Option<Accepted>)
    | Recording(version: string, desired: string)

  /** filter is the bootstrap-policy annotation of the attached EnvoyFilter, "" when it has none. */
  datatype State = State(filter: Option<string>, status: Option<Accepted>, phase: Phase)

  datatype Step =
    | Read(version: string, desired: string, view: Option<Accepted>)
    | Attach
    | Record
    | Fail
    | DeleteFilter
    | ClearAccepted

  const START := State(None, None, Idle)

  predicate Enabled(s: State, step: Step) {
    match step
    case Read(_, _, _) => s.phase.Idle?
    case Attach => s.phase.Reading?
    case Record => s.phase.Recording?
    case Fail => !s.phase.Idle?
    case _ => true
  }

  /** What a reconcile applies, from what it read. */
  function Policy(p: Phase): string
    requires p.Reading?
  {
    var previous := if p.seen.Some? then p.seen.value else "";
    BootstrapPolicy(previous, p.desired, p.view == Some(Accepted(p.version, p.desired)))
  }

  function Apply(s: State, step: Step): State
    requires Enabled(s, step)
  {
    match step
    case Read(version, desired, view) => s.(phase := Reading(version, desired, s.filter, view))
    case Attach => s.(filter := Some(Policy(s.phase)), phase := Recording(s.phase.version, s.phase.desired))
    case Record => s.(status := Some(Accepted(s.phase.version, s.phase.desired)), phase := Idle)
    // a failed apply or patch, or any error in between, ends the reconcile
    case Fail => s.(phase := Idle)
    case DeleteFilter => s.(filter := None)
    case ClearAccepted => s.(status := None)
  }

  ghost predicate Earlier(states: seq<State>, n: nat, view: Option<Accepted>)
    requires n < |states|
  {
    exists m :: 0 <= m <= n && states[m].status == view
  }

  /** Instant n follows from its step; the Engine a reconcile works on carries some earlier status. */
  ghost predicate Follows(states: seq<State>, steps: seq<Step>, n: nat)
    requires n < |steps| < |states|
  {
    && Enabled(states[n], steps[n]) && states[n + 1] == Apply(states[n], steps[n])
    && (steps[n].Read? ==> Earlier(states, n, steps[n].view))
  }

  ghost predicate Run(states: seq<State>, steps: seq<Step>) {
    && |states| == |steps| + 1 && states[0] == START
    && forall n | 0 <= n < |steps| :: Follows(states, steps, n)
  }

  // ----- Where a status and an attempt come from -----

  /** Step i recorded acceptance of the version with the policy, for a filter it had applied. */
  ghost predicate Recorded(states: seq<State>, steps: seq<Step>, i: nat, now: Accepted)
    requires i < |steps| < |states|
  {
    steps[i].Record? && states[i].phase == Recording(now.version, now.failurePolicy)
  }

  /** Every status was recorded by a reconcile that had applied its filter. */
  lemma {:induction false} StatusOrigin(states: seq<State>, steps: seq<Step>, n: nat) returns (i: nat)
    requires Run(states, steps) && n <= |steps| && states[n].status.Some?
    ensures i < n && Recorded(states, steps, i, states[n].status.value)
    decreases n
  {
    assert Follows(states, steps, n - 1);
    if steps[n - 1].Record? {
      i := n - 1;
    } else {
      i := StatusOrigin(states, steps, n - 1);
    }
  }

  /** What is being recorded was applied before. */
  lemma {:induction false} RecordingOrigin(states: seq<State>, steps: seq<Step>, n: nat) returns (a: nat)
    requires Run(states, steps) && n <= |steps| && states[n].phase.Recording?
    ensures a < n && steps[a].Attach? && states[a].phase.Reading?
    ensures states[n].phase == Recording(states[a].phase.version, states[a].phase.desired)
    decreases n
  {
    assert Follows(states, steps, n - 1);
    if steps[n - 1].Attach? {
      a := n - 1;
    } else {
      a := RecordingOrigin(states, steps, n - 1);
    }
  }

  /** The attempt under way at instant n was read at instant m, and nothing applied since. */
  ghost predicate ReadAt(states: seq<State>, steps: seq<Step>, m: nat, n: nat)
    requires n < |states| == |steps| + 1
  {
    && m < n && steps[m].Read? && states[n].phase.Reading? && states[n].phase.seen == states[m].filter
    && states[n].phase == Reading(steps[m].version, steps[m].desired, states[m].filter, steps[m].view)
    && forall j | m < j <= n :: states[j].phase == states[n].phase
  }

  lemma {:induction false} AttemptOrigin(states: seq<State>, steps: seq<Step>, n: nat) returns (m: nat)
    requires Run(states, steps) && n <= |steps| && states[n].phase.Reading?
    ensures ReadAt(states, steps, m, n)
    decreases n
  {
    assert Follows(states, steps, n - 1);
    if steps[n - 1].Read? {
      m := n - 1;
    } else {
      m := AttemptOrigin(states, steps, n - 1);
    }
  }

  /** While an attempt is under way the filter can only be deleted. */
  lemma {:induction false} OnlyDeleted(states: seq<State>, steps: seq<Step>, m: nat, j: nat, n: nat)
    requires Run(states, steps) && n <= |steps| && ReadAt(states, steps, m, n) && m <= j <= n
    ensures states[j].filter == states[m].filter || states[j].filter.None?
    ensures states[j].filter.None? ==> states[n].filter.None?
    decreases n - m, j
  {
    if j < n {
      OnlyDeletedOn(states, steps, m, j, n);
    }
    if m < j {
      OnlyDeleted(states, steps, m, j - 1, n);
      StillReading(states, steps, m, j - 1, n);
    }
  }

  lemma StillReading(states: seq<State>, steps: seq<Step>, m: nat, j: nat, n: nat)
    requires Run(states, steps) && n <= |steps| && ReadAt(states, steps, m, n) && m <= j < n
    ensures states[j + 1].filter == states[j].filter || states[j + 1].filter.None?
  {
    assert Follows(states, steps, j);
    assert states[j + 1].phase == states[n].phase;
  }

  lemma {:induction false} OnlyDeletedOn(states: seq<State>, steps: seq<Step>, m: nat, j: nat, n: nat)
    requires Run(states, steps) && n <= |steps| && ReadAt(states, steps, m, n) && m <= j <= n
    ensures states[j].filter.None? ==> states[n].filter.None?
    decreases n - j
  {
    if j < n {
      StillReading(states, steps, m, j, n);
      OnlyDeletedOn(states, steps, m, j + 1, n);
    }
  }

  // ----- Attaching a filter -----

  /** Instant d is the start of the present stretch without a filter. */
  ghost predicate GoneSince(states: seq<State>, d: nat, n: nat)
    requires n < |states|
  {
    d <= n && (forall j | d <= j <= n :: states[j].filter.None?) && (d > 0 ==> states[d - 1].filter.Some?)
  }

  /** What was read lets a reconcile apply allow. */
  predicate Qualifies(p: Phase)
    requires p.Reading?
  {
    && p.desired == ALLOW
    && (p.seen == Some(ALLOW) || (p.seen !in {None, Some("")} && p.view == Some(Accepted(p.version, ALLOW))))
  }

  /** A filter that is attached where there is none is fail-closed if and only if the reconcile read
      after the filter was gone, or what it read before did not qualify for allow. */
  lemma AttachFailsIff(states: seq<State>, steps: seq<Step>, m: nat, d: nat, n: nat)
    requires Run(states, steps) && n < |steps| && steps[n].Attach? && ReadAt(states, steps, m, n)
    requires GoneSince(states, d, n)
    ensures states[n + 1].filter == Some(FAIL) <==> d <= m || !Qualifies(states[n].phase)
    ensures d <= m ==> states[m].filter.None?
    ensures m < d ==> states[m].filter.Some? && states[m].filter == states[d - 1].filter
  {
    assert Follows(states, steps, n);
    if m < d {
      OnlyDeleted(states, steps, m, d - 1, n);
    }
  }

  /** So the first filter of all is fail-closed. */
  lemma {:induction false} FirstFilterFails(states: seq<State>, steps: seq<Step>, n: nat)
    requires Run(states, steps) && n < |steps| && steps[n].Attach? && forall j | 0 <= j <= n :: states[j].filter.None?
    ensures states[n + 1].filter == Some(FAIL)
  {
    assert Enabled(states[n], steps[n]) by { assert Follows(states, steps, n); }
    var m := AttemptOrigin(states, steps, n);
    AttachFailsIff(states, steps, m, 0, n);
  }

  /** But a filter deleted between the read and the apply comes back as allow: the first reconcile
      attaches and records, the second weakens, the third reads allow and applies after the deletion. */
  lemma ReattachedAsAllow(version: string) returns (states: seq<State>, steps: seq<Step>)
    ensures Run(states, steps) && |steps| == 9 && steps[7].DeleteFilter? && steps[8].Attach?
    ensures states[8].filter.None? && states[9].filter == Some(ALLOW)
  {
    var status := Some(Accepted(version, ALLOW));
    var read := Reading(version, ALLOW, Some(ALLOW), status);
    steps := [Read(version, ALLOW, None), Attach, Record, Read(version, ALLOW, status), Attach, Record,
              Read(version, ALLOW, status), DeleteFilter, Attach];
    states := [START, State(None, None, Reading(version, ALLOW, None, None)),
               State(Some(FAIL), None, Recording(version, ALLOW)), State(Some(FAIL), status, Idle),
               State(Some(FAIL), status, Reading(version, ALLOW, Some(FAIL), status)),
               State(Some(ALLOW), status, Recording(version, ALLOW)), State(Some(ALLOW), status, Idle),
               State(Some(ALLOW), status, read), State(None, status, read),
               State(Some(ALLOW), status, Recording(version, ALLOW))];
    assert states[0].status == None && states[3].status == status && states[6].status == status;
    assert Earlier(states, 0, None) && Earlier(states, 3, status) && Earlier(states, 6, status);
    assert Follows(states, steps, 0) && Follows(states, steps, 1) && Follows(states, steps, 2);
    assert Follows(states, steps, 3) && Follows(states, steps, 4) && Follows(states, steps, 5);
    assert Follows(states, steps, 6) && Follows(states, steps, 7) && Follows(states, steps, 8);
  }

  // ----- Weakening -----

  /** A reconcile that read a filter that was not allow applies allow only if it read a filter at all
      and an earlier reconcile had recorded acceptance of that same version with policy allow. */
  lemma WeakeningWasEarned(states: seq<State>, steps: seq<Step>, m: nat, n: nat) returns (i: nat)
    requires Run(states, steps) && n < |steps| && steps[n].Attach? && ReadAt(states, steps, m, n)
    requires states[m].filter != Some(ALLOW) && states[n + 1].filter == Some(ALLOW)
    ensures states[m].filter.Some? && steps[m].desired == ALLOW
    ensures i < m && Recorded(states, steps, i, Accepted(steps[m].version, ALLOW))
  {
    assert Follows(states, steps, n) && Follows(states, steps, m);
    var j :| 0 <= j <= m && states[j].status == steps[m].view;
    i := StatusOrigin(states, steps, j);
  }

  /** No filter is ever allow before some reconcile recorded acceptance of a version with policy allow. */
  lemma {:induction false} AllowWasEarned(states: seq<State>, steps: seq<Step>, n: nat)
    returns (i: nat, version: string)
    requires Run(states, steps) && n <= |steps| && states[n].filter == Some(ALLOW)
    ensures i < n && Recorded(states, steps, i, Accepted(version, ALLOW))
    decreases n
  {
    assert Follows(states, steps, n - 1);
    if steps[n - 1].Attach? {
      var m := AttemptOrigin(states, steps, n - 1);
      if states[m].filter == Some(ALLOW) {
        i, version := AllowWasEarned(states, steps, m);
      } else {
        i := WeakeningWasEarned(states, steps, m, n - 1);
        version := steps[m].version;
      }
    } else {
      i, version := AllowWasEarned(states, steps, n - 1);
    }
  }

  /** Step j applies policy allow on the Engine's wish. */
  ghost predicate AllowsAt(states: seq<State>, steps: seq<Step>, j: nat)
    requires j < |steps| < |states|
  {
    steps[j].Attach? && states[j].phase.Reading? && states[j].phase.desired == ALLOW
  }

  /** Tightening takes effect at once and for good: whoever applies a policy other than allow closes the
      filter, and it is not allow again before a reconcile that wants allow applies one. */
  lemma {:induction false} TighteningIsImmediate(states: seq<State>, steps: seq<Step>, n: nat, m: nat)
    requires Run(states, steps) && n < m <= |steps| && steps[n].Attach? && !AllowsAt(states, steps, n)
    requires forall j | n < j < m :: !AllowsAt(states, steps, j)
    ensures states[n + 1].filter == Some(FAIL) && states[m].filter != Some(ALLOW)
    decreases m
  {
    assert Follows(states, steps, n) && Follows(states, steps, m - 1);
    if n + 1 < m {
      TighteningIsImmediate(states, steps, n, m - 1);
      assert !AllowsAt(states, steps, m - 1);
    }
  }

  // ----- Convergence -----

  /** From instant a on nobody deletes the filter. */
  predicate NoDeletion(steps: seq<Step>, a: nat, b: nat)
    requires b <= |steps|
  {
    forall j | a <= j < b :: !steps[j].DeleteFilter?
  }

  lemma {:induction false} FilterStays(states: seq<State>, steps: seq<Step>, a: nat, b: nat)
    requires Run(states, steps) && a <= b <= |steps| && NoDeletion(steps, a, b)
    requires states[a].filter in {Some(FAIL), Some(ALLOW)}
    ensures states[b].filter in {Some(FAIL), Some(ALLOW)}
    decreases b
  {
    if a < b {
      FilterStays(states, steps, a, b - 1);
      assert Follows(states, steps, b - 1);
    }
  }

  /** The status is neither cleared nor replaced by another. */
  ghost predicate StatusKept(states: seq<State>, steps: seq<Step>, r: nat, b: nat, now: Accepted)
    requires b <= |steps| < |states|
  {
    forall j | r <= j < b :: !steps[j].ClearAccepted? && (steps[j].Record? ==> Recorded(states, steps, j, now))
  }

  lemma {:induction false} StatusStays(states: seq<State>, steps: seq<Step>, r: nat, b: nat, now: Accepted)
    requires Run(states, steps) && r <= b <= |steps| && StatusKept(states, steps, r, b, now)
    requires states[r].status == Some(now)
    ensures states[b].status == Some(now)
    decreases b
  {
    if r < b {
      StatusStays(states, steps, r, b - 1, now);
      assert Follows(states, steps, b - 1);
    }
  }

  /** A reconcile that attached a filter at a and recorded its version with allow at r, and any later one
      that reads at b what is recorded then and applies at n for the same version with allow: whatever
      happens in between, if the filter is not deleted before the read and the status is neither cleared
      nor replaced, the result is allow. */
  lemma TwoReconcilesConverge(states: seq<State>, steps: seq<Step>, a: nat, r: nat, b: nat, n: nat, version: string)
    requires Run(states, steps) && a < r < b < n < |steps|
    requires steps[a].Attach? && Recorded(states, steps, r, Accepted(version, ALLOW))
    requires steps[n].Attach? && ReadAt(states, steps, b, n) && steps[b] == Read(version, ALLOW, states[b].status)
    requires NoDeletion(steps, a + 1, b) && StatusKept(states, steps, r + 1, b, Accepted(version, ALLOW))
    ensures states[n + 1].filter == Some(ALLOW)
  {
    assert Follows(states, steps, a) && Follows(states, steps, r) && Follows(states, steps, n);
    FilterStays(states, steps, a + 1, b);
    StatusStays(states, steps, r + 1, b, Accepted(version, ALLOW));
  }

  /** The step neither deletes the filter nor applies another policy. */
  ghost predicate Harmless(states: seq<State>, steps: seq<Step>, j: nat)
    requires j < |steps| < |states|
  {
    !steps[j].DeleteFilter? && (steps[j].Attach? && states[j].phase.Reading? ==> states[j].phase.desired == ALLOW)
  }

  lemma AllowStep(states: seq<State>, steps: seq<Step>, j: nat)
    requires Run(states, steps) && j < |steps| && states[j].filter == Some(ALLOW)
    ensures states[j + 1].filter == Some(ALLOW) <==> Harmless(states, steps, j)
  {
    assert Follows(states, steps, j);
    if steps[j].Attach? {
      var m := AttemptOrigin(states, steps, j);
      OnlyDeleted(states, steps, m, j, j);
    }
  }

  /** An allow filter stays allow throughout a stretch of a run if and only if nobody deletes it or
      applies another policy in it. A reconcile under way when the stretch begins makes no difference. */
  lemma {:induction false} AllowIsStable(states: seq<State>, steps: seq<Step>, n: nat, m: nat)
    requires Run(states, steps) && n <= m <= |steps| && states[n].filter == Some(ALLOW)
    ensures (forall j | n <= j <= m :: states[j].filter == Some(ALLOW)) <==>
      forall j | n <= j < m :: Harmless(states, steps, j)
    decreases m
  {
    if n < m {
      AllowIsStable(states, steps, n, m - 1);
      if states[m - 1].filter == Some(ALLOW) { AllowStep(states, steps, m - 1); }
    }
  }
}
