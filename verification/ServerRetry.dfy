/** The retry machine of one stream and the retry-budget map, over every run of the server. */
module ServerRetry {
  import opened Names
  import opened Server

  // ----- One pending retry per stream -----

  /** A callback has claimed the stream's retry and not yet armed its timer. */
  predicate Claimed(t: Stream) { t.pc.Tracking? || t.pc.Recording? || t.pc.Arming? }

  function Outstanding(t: Stream): nat { |t.timers| + if Claimed(t) then 1 else 0 }

  /** An open stream's outstanding retries are what retryPending says: one or none. A closed stream
      has claimed nothing and is not pending. */
  ghost predicate OneRetry(t: Stream) {
    if t.closed then !t.retryPending && (t.pc.Idle? || t.pc.Clearing? || t.pc.Releasing?)
    else !t.pc.Clearing? && !t.pc.Releasing? && Outstanding(t) == if t.retryPending then 1 else 0
  }

  ghost predicate Retries(s: Server) {
    && (forall id | id in s.streams :: OneRetry(s.streams[id]))
    && s.open == set id | id in s.streams && !s.streams[id].closed
  }

  lemma TimerOneRetry(sha: string -> string, s: Server, step: Step)
    requires Enabled(s, step) && (step.Fire? || step.NackArm? || step.NackRead?) && OneRetry(s.streams[step.id])
    ensures OneRetry(Apply(sha, s, step).streams[step.id])
  {
  }

  lemma MovedOneRetry(sha: string -> string, s: Server, step: Step)
    requires Enabled(s, step) && OfStream(step) && (step.id in s.streams ==> OneRetry(s.streams[step.id]))
    ensures OneRetry(Apply(sha, s, step).streams[step.id])
  {
    if step.Fire? || step.NackArm? || step.NackRead? { TimerOneRetry(sha, s, step); }
  }

  lemma MovedOpen(sha: string -> string, s: Server, step: Step)
    requires Enabled(s, step) && OfStream(step)
    ensures var s' := Apply(sha, s, step);
      && (step.Open? || (step.id in s.streams && s'.streams[step.id].session == s.streams[step.id].session))
      && (!step.Open? && !step.CloseMark? ==>
           s'.open == s.open && s'.streams[step.id].closed == s.streams[step.id].closed)
      && (step.Open? ==> s'.open == s.open + {step.id} && !s'.streams[step.id].closed)
      && (step.CloseMark? ==> s'.open == s.open - {step.id} && s'.streams[step.id].closed)
  {
  }

  lemma StepRetries(sha: string -> string, s: Server, step: Step)
    requires Enabled(s, step) && Retries(s)
    ensures Retries(Apply(sha, s, step))
  {
    Local(sha, s, step);
    if OfStream(step) {
      MovedOneRetry(sha, s, step);
      MovedOpen(sha, s, step);
      OpenUpdate(s, Apply(sha, s, step), step.id);
    }
  }

  lemma OpenUpdate(s: Server, s': Server, id: nat)
    requires Retries(s) && id in s'.streams && s'.streams == s.streams[id := s'.streams[id]] && OneRetry(s'.streams[id])
    requires s'.open == if s'.streams[id].closed then s.open - {id} else s.open + {id}
    ensures Retries(s')
  {
  }

  /** A stream that is closed stays closed, and its timers publish nothing. */
  lemma ClosedStays(sha: string -> string, s: Server, step: Step, id: nat)
    requires Enabled(s, step) && id in s.streams && s.streams[id].closed
    ensures id in Apply(sha, s, step).streams && Apply(sha, s, step).streams[id].closed
    ensures step.Fire? && step.id == id ==> Apply(sha, s, step).store == s.store
  {
    Local(sha, s, step);
    if OfStream(step) && step.id == id { MovedOpen(sha, s, step); }
  }

  // ----- Runs -----

  lemma {:induction false} RunRetries(sha: string -> string, s: Server, steps: seq<Step>)
    requires Legal(sha, s, steps) && Retries(s)
    ensures Retries(After(sha, s, steps))
    decreases |steps|
  {
    if steps != [] {
      StepRetries(sha, s, steps[0]);
      RunRetries(sha, Apply(sha, s, steps[0]), steps[1..]);
    }
  }

  /** However many NACKs arrive, an open stream never has two retries pending. */
  lemma AtMostOneRetry(sha: string -> string, steps: seq<Step>, id: nat)
    requires Legal(sha, START, steps)
    requires id in After(sha, START, steps).open
    ensures var s := After(sha, START, steps);
      id in s.streams && Outstanding(s.streams[id]) == (if s.streams[id].retryPending then 1 else 0)
  {
    RunRetries(sha, START, steps);
  }

  /** A prefix of a run is a run. */
  lemma {:induction false} Prefix(sha: string -> string, s: Server, steps: seq<Step>, n: nat)
    requires Legal(sha, s, steps) && n <= |steps|
    ensures Legal(sha, s, steps[..n])
    ensures n < |steps| ==>
      && Enabled(After(sha, s, steps[..n]), steps[n]) && Legal(sha, s, steps[..n + 1])
      && After(sha, s, steps[..n + 1]) == Apply(sha, After(sha, s, steps[..n]), steps[n])
    decreases |steps|
  {
    if n == 0 {
      assert steps[..0] == [];
      if |steps| > 0 {
        assert steps[..1][0] == steps[0] && steps[..1][1..] == [];
      }
    } else {
      Prefix(sha, Apply(sha, s, steps[0]), steps[1..], n - 1);
      assert steps[..n][0] == steps[0] && steps[..n][1..] == steps[1..][..n - 1];
      if n < |steps| {
        assert steps[..n + 1][0] == steps[0] && steps[..n + 1][1..] == steps[1..][..n];
      }
    }
  }

  lemma {:induction false} ClosedForGood(sha: string -> string, s: Server, steps: seq<Step>, id: nat)
    requires Legal(sha, s, steps) && id in s.streams && s.streams[id].closed
    ensures id in After(sha, s, steps).streams && After(sha, s, steps).streams[id].closed
    decreases |steps|
  {
    if steps != [] {
      ClosedStays(sha, s, steps[0], id);
      ClosedForGood(sha, Apply(sha, s, steps[0]), steps[1..], id);
    }
  }

  /** A close at step i has closed the stream at every later instant. */
  lemma ClosedBy(sha: string -> string, steps: seq<Step>, i: nat, j: nat, id: nat)
    requires Legal(sha, START, steps) && i < j <= |steps| && Legal(sha, START, steps[..j])
    requires steps[i].CloseMark? && steps[i].id == id
    ensures id in After(sha, START, steps[..j]).streams && After(sha, START, steps[..j]).streams[id].closed
  {
    Prefix(sha, START, steps, i);
    Closes(sha, After(sha, START, steps[..i]), steps[i]);
    Split(sha, START, steps[..j], i + 1);
    assert steps[..j][..i + 1] == steps[..i + 1];
    ClosedForGood(sha, After(sha, START, steps[..i + 1]), steps[..j][i + 1..], id);
  }

  lemma Closes(sha: string -> string, s: Server, step: Step)
    requires Enabled(s, step) && step.CloseMark?
    ensures step.id in Apply(sha, s, step).streams && Apply(sha, s, step).streams[step.id].closed
  {
  }

  /** Whatever the interleaving, no timer of a stream publishes a retry after the stream closed:
      for i < j, a close at step i leaves the store as it is when a timer fires at step j. */
  lemma NoRetryAfterClose(sha: string -> string, steps: seq<Step>, i: nat, j: nat, id: nat)
    requires Legal(sha, START, steps) && i < j < |steps|
    requires steps[i].CloseMark? && steps[i].id == id
    requires steps[j].Fire? && steps[j].id == id
    ensures Legal(sha, START, steps[..j]) && Legal(sha, START, steps[..j + 1])
    ensures After(sha, START, steps[..j + 1]).store == After(sha, START, steps[..j]).store
  {
    Prefix(sha, START, steps, j);
    ClosedBy(sha, steps, i, j, id);
    ClosedStays(sha, After(sha, START, steps[..j]), steps[j], id);
  }

  /** A run is its first part followed by the rest. */
  /** A timer that could not be stopped is still there after the close, and firing it does nothing but
      remove it. */
  lemma LateTimerIsHarmless(sha: string -> string, s: Server, id: nat, i: nat)
    requires Enabled(s, CloseMark(id, false)) && i < |s.streams[id].timers|
    ensures var s1 := Apply(sha, s, CloseMark(id, false));
      && Enabled(s1, Fire(id, i))
      && Apply(sha, s1, Fire(id, i)) == With(s1, id, s1.streams[id].(timers := RemoveAt(s.streams[id].timers, i)))
  {
  }

  lemma {:induction false} Split(sha: string -> string, s: Server, steps: seq<Step>, n: nat)
    requires Legal(sha, s, steps) && n <= |steps|
    ensures Legal(sha, s, steps[..n]) && Legal(sha, After(sha, s, steps[..n]), steps[n..])
    ensures After(sha, s, steps) == After(sha, After(sha, s, steps[..n]), steps[n..])
    decreases |steps|
  {
    if n == 0 {
      assert steps[..0] == [] && steps[0..] == steps;
    } else {
      Split(sha, Apply(sha, s, steps[0]), steps[1..], n - 1);
      assert steps[..n][0] == steps[0] && steps[..n][1..] == steps[1..][..n - 1];
      assert steps[n..] == steps[1..][n - 1..];
    }
  }

  // ----- The retry budget -----

  /** A budget key of the session. */
  ghost predicate Mine(k: string, session: nat) {
    exists r :: k == NackKey(r, session)
  }

  lemma MineOnce(k: string, a: nat, b: nat)
    requires Mine(k, a) && Mine(k, b)
    ensures a == b
  {
    var r :| k == NackKey(r, a);
    var q :| k == NackKey(q, b);
    NackKeyDeterminesSession(r, a, q, b);
  }

  ghost predicate Owned(t: Stream) {
    && (t.nackKey == "" || Mine(t.nackKey, t.session))
    && (t.pc.Recording? ==> t.nackKey == NackKey(t.pc.retry.resource, t.session))
    && (t.closed && !t.pc.Clearing? ==> t.nackKey == "")
  }

  ghost predicate Sessions(streams: map<nat, Stream>, next: nat) {
    && (forall id | id in streams :: streams[id].session <= next)
    && (forall i, j | i in streams && j in streams && i != j :: streams[i].session != streams[j].session)
  }

  /** A stream's key is counted unless the callback is just about to record it. */
  ghost predicate Listed(t: Stream, nacks: map<string, Nack>) {
    t.nackKey != "" && !t.pc.Recording? ==> t.nackKey in nacks
  }

  ghost predicate HasKey(streams: map<nat, Stream>, k: string) {
    exists id :: id in streams && streams[id].nackKey == k
  }

  ghost predicate Budget(streams: map<nat, Stream>, nacks: map<string, Nack>) {
    && (forall id | id in streams :: Owned(streams[id]) && Listed(streams[id], nacks))
    && (forall k | k in nacks :: k != "" && HasKey(streams, k))
  }

  ghost predicate Budgeted(s: Server) {
    Retries(s) && Sessions(s.streams, s.nextSession) && Budget(s.streams, s.nacks)
  }

  /** A session counts no key but its stream's. */
  lemma OnlyMine(s: Server, id: nat, k: string)
    requires Budgeted(s) && id in s.streams && k in s.nacks && Mine(k, s.streams[id].session)
    ensures k == s.streams[id].nackKey
  {
    var o :| o in s.streams && s.streams[o].nackKey == k;
    assert Owned(s.streams[o]);
    MineOnce(k, s.streams[o].session, s.streams[id].session);
  }

  /** Outside one session's keys the two maps agree. */
  ghost predicate Elsewhere(nacks: map<string, Nack>, nacks': map<string, Nack>, session: nat) {
    forall k | !Mine(k, session) :: k in nacks' <==> k in nacks
  }

  lemma BudgetUpdate(streams: map<nat, Stream>, next: nat, nacks: map<string, Nack>, id: nat, t: Stream,
                     nacks': map<string, Nack>)
    requires Sessions(streams, next) && Budget(streams, nacks)
    requires forall o | o in streams && o != id :: streams[o].session != t.session
    requires id in streams ==> streams[id].session == t.session
    requires Owned(t) && Listed(t, nacks') && Elsewhere(nacks, nacks', t.session)
    requires forall k | k in nacks' && Mine(k, t.session) :: k == t.nackKey
    ensures Budget(streams[id := t], nacks')
  {
    var streams' := streams[id := t];
    forall o | o in streams' ensures Owned(streams'[o]) && Listed(streams'[o], nacks') {
      if o != id {
        BudgetOther(streams, nacks, o, t.session, nacks');
      }
    }
    forall k | k in nacks' ensures k != "" && HasKey(streams', k) {
      BudgetKey(streams, nacks, id, t, nacks', k);
    }
  }

  lemma BudgetKey(streams: map<nat, Stream>, nacks: map<string, Nack>, id: nat, t: Stream, nacks': map<string, Nack>,
                  k: string)
    requires Budget(streams, nacks) && Elsewhere(nacks, nacks', t.session)
    requires id in streams ==> streams[id].session == t.session
    requires k in nacks' && (Mine(k, t.session) ==> k == t.nackKey)
    ensures k != "" && HasKey(streams[id := t], k)
  {
    if Mine(k, t.session) {
      KeyNotEmpty(k, t.session);
      assert streams[id := t][id].nackKey == k;
    } else {
      var o :| o in streams && streams[o].nackKey == k;
      assert Owned(streams[o]) && k != "";
      assert streams[id := t][o].nackKey == k;
    }
  }

  lemma KeyNotEmpty(k: string, session: nat)
    requires Mine(k, session)
    ensures k != ""
  {
    var r :| k == NackKey(r, session);
    assert |k| >= |r| + 1;
  }

  lemma BudgetOther(streams: map<nat, Stream>, nacks: map<string, Nack>, o: nat, session: nat,
                    nacks': map<string, Nack>)
    requires Budget(streams, nacks) && o in streams && streams[o].session != session
    requires Elsewhere(nacks, nacks', session)
    ensures Owned(streams[o]) && Listed(streams[o], nacks')
  {
    var k := streams[o].nackKey;
    assert Owned(streams[o]) && Listed(streams[o], nacks);
    if k != "" && Mine(k, session) { MineOnce(k, session, streams[o].session); }
  }

  /** What one stream's step may do to the budget map. */
  ghost predicate KeepsBudget(s: Server, s': Server, id: nat)
    requires id in s'.streams
  {
    var t := s'.streams[id];
    && Owned(t) && Listed(t, s'.nacks) && Elsewhere(s.nacks, s'.nacks, t.session)
    && forall k | k in s'.nacks && Mine(k, t.session) :: k == t.nackKey
  }

  /** Steps that leave the budget map and the stream's key alone. */
  predicate Bystander(step: Step) {
    OfStream(step) && !step.Open? && !step.AckClear? && !step.NackTrack? && !step.NackRecord? && !step.CloseClear?
  }

  lemma BystanderSame(sha: string -> string, s: Server, step: Step)
    requires Enabled(s, step) && Bystander(step) && OneRetry(s.streams[step.id]) && Owned(s.streams[step.id])
    ensures var s', t := Apply(sha, s, step), s.streams[step.id];
      && s'.nacks == s.nacks && s'.streams[step.id].nackKey == t.nackKey && s'.streams[step.id].session == t.session
      && !t.pc.Recording? && !s'.streams[step.id].pc.Recording? && Owned(s'.streams[step.id])
  {
  }

  lemma BystanderBudget(sha: string -> string, s: Server, step: Step)
    requires Enabled(s, step) && Bystander(step) && Budgeted(s)
    ensures KeepsBudget(s, Apply(sha, s, step), step.id)
  {
    assert OneRetry(s.streams[step.id]) && Owned(s.streams[step.id]) && Listed(s.streams[step.id], s.nacks);
    BystanderSame(sha, s, step);
    forall k | k in s.nacks && Mine(k, s.streams[step.id].session) ensures k == s.streams[step.id].nackKey {
      OnlyMine(s, step.id, k);
    }
  }

  /** AckClear and CloseClear drop the stream's only key. */
  lemma ClearBudget(sha: string -> string, s: Server, step: Step)
    requires Enabled(s, step) && (step.AckClear? || step.CloseClear?) && Budgeted(s)
    ensures KeepsBudget(s, Apply(sha, s, step), step.id)
  {
    var t := s.streams[step.id];
    assert Owned(t);
    forall k | k in s.nacks && Mine(k, t.session) ensures k == t.nackKey {
      OnlyMine(s, step.id, k);
    }
  }

  lemma TrackBudget(sha: string -> string, s: Server, step: Step)
    requires Enabled(s, step) && step.NackTrack? && Budgeted(s)
    ensures KeepsBudget(s, Apply(sha, s, step), step.id)
  {
    var t := s.streams[step.id];
    assert Owned(t) && OneRetry(t);
    assert Mine(NackKey(t.pc.retry.resource, t.session), t.session);
    forall k | k in s.nacks && Mine(k, t.session) ensures k == t.nackKey {
      OnlyMine(s, step.id, k);
    }
  }

  lemma RecordBudget(sha: string -> string, s: Server, step: Step)
    requires Enabled(s, step) && step.NackRecord? && Budgeted(s)
    ensures KeepsBudget(s, Apply(sha, s, step), step.id)
  {
    var t := s.streams[step.id];
    assert Owned(t) && OneRetry(t);
    assert Mine(NackKey(t.pc.retry.resource, t.session), t.session);
    forall k | k in s.nacks && Mine(k, t.session) ensures k == t.nackKey {
      OnlyMine(s, step.id, k);
    }
  }

  /** The next session has no key yet. */
  lemma NotYetMine(s: Server, k: string)
    requires Budgeted(s) && k in s.nacks
    ensures !Mine(k, s.nextSession + 1)
  {
    var o :| o in s.streams && s.streams[o].nackKey == k;
    assert Owned(s.streams[o]) && s.streams[o].session <= s.nextSession;
    if Mine(k, s.nextSession + 1) { MineOnce(k, s.streams[o].session, s.nextSession + 1); }
  }

  lemma OpenBudget(sha: string -> string, s: Server, step: Step)
    requires Enabled(s, step) && step.Open? && Budgeted(s)
    ensures KeepsBudget(s, Apply(sha, s, step), step.id)
  {
    forall k | k in s.nacks ensures !Mine(k, s.nextSession + 1) {
      NotYetMine(s, k);
    }
  }

  lemma MovedBudget(sha: string -> string, s: Server, step: Step)
    requires Enabled(s, step) && OfStream(step) && Budgeted(s)
    ensures KeepsBudget(s, Apply(sha, s, step), step.id)
  {
    if step.Open? { OpenBudget(sha, s, step); }
    else if step.AckClear? || step.CloseClear? { ClearBudget(sha, s, step); }
    else if step.NackTrack? { TrackBudget(sha, s, step); }
    else if step.NackRecord? { RecordBudget(sha, s, step); }
    else { BystanderBudget(sha, s, step); }
  }

  lemma MovedSession(sha: string -> string, s: Server, step: Step)
    requires Enabled(s, step)
    ensures Apply(sha, s, step).nextSession == s.nextSession + if step.Open? then 1 else 0
    ensures OfStream(step) ==>
      Apply(sha, s, step).streams[step.id].session ==
        (if step.Open? then s.nextSession + 1 else s.streams[step.id].session)
    ensures !OfStream(step) ==> Apply(sha, s, step).nacks == s.nacks
  {
  }

  lemma SessionsUpdate(streams: map<nat, Stream>, next: nat, id: nat, t: Stream, next': nat)
    requires Sessions(streams, next)
    requires if id in streams then t.session == streams[id].session && next' == next else t.session == next' == next + 1
    ensures Sessions(streams[id := t], next')
    ensures forall o | o in streams && o != id :: streams[o].session != t.session
  {
  }

  lemma StepBudgeted(sha: string -> string, s: Server, step: Step)
    requires Enabled(s, step) && Budgeted(s)
    ensures Budgeted(Apply(sha, s, step))
  {
    var s' := Apply(sha, s, step);
    Local(sha, s, step);
    StepRetries(sha, s, step);
    MovedSession(sha, s, step);
    if OfStream(step) {
      assert step.Open? <==> step.id !in s.streams;
      MovedBudget(sha, s, step);
      SessionsUpdate(s.streams, s.nextSession, step.id, s'.streams[step.id], s'.nextSession);
      BudgetUpdate(s.streams, s.nextSession, s.nacks, step.id, s'.streams[step.id], s'.nacks);
    }
  }

  lemma {:induction false} RunBudgeted(sha: string -> string, s: Server, steps: seq<Step>)
    requires Legal(sha, s, steps) && Budgeted(s)
    ensures Budgeted(After(sha, s, steps))
    decreases |steps|
  {
    if steps != [] {
      StepBudgeted(sha, s, steps[0]);
      RunBudgeted(sha, Apply(sha, s, steps[0]), steps[1..]);
    }
  }

  /** Whenever no callback is under way, the budget map lists exactly the budget keys of the open
      streams: nothing leaks, nothing is lost. */
  lemma BudgetIsOpenKeys(sha: string -> string, steps: seq<Step>)
    requires Legal(sha, START, steps)
    requires AtBoundary(After(sha, START, steps).streams)
    ensures var s := After(sha, START, steps);
      s.nacks.Keys == set id | id in s.open && id in s.streams && s.streams[id].nackKey != "" :: s.streams[id].nackKey
  {
    RunBudgeted(sha, START, steps);
    var s := After(sha, START, steps);
    forall k | k in s.nacks.Keys
      ensures k in set id | id in s.open && id in s.streams && s.streams[id].nackKey != "" :: s.streams[id].nackKey
    {
      var o :| o in s.streams && s.streams[o].nackKey == k;
      assert Owned(s.streams[o]) && k != "";
    }
    forall id | id in s.open && id in s.streams && s.streams[id].nackKey != ""
      ensures s.streams[id].nackKey in s.nacks.Keys
    {
      assert Listed(s.streams[id], s.nacks);
    }
  }
}
