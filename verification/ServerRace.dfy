/** When the retry ladder skips no rung and repeats none: the condition under which a published retry
    is followed by the next rung, its converse, and a run from the start in which a rung repeats. */
module ServerRace {
  import opened Sets
  import opened Strings
  import opened Names
  import opened RetryVersion
  import opened StoreModel
  import opened StoreInvariant
  import opened Server
  import opened ServerRetry
  import opened ServerStore
  import opened ServerClimb

  /** An undisturbed continuation that publishes exactly one retry for the proxy. */
  ghost predicate OneMore(sha: string -> string, s: Server, more: seq<Step>, r: string, e: string, k: string) {
    Legal(sha, s, more) && Smooth(sha, s, more, r, e, k) && Published(sha, s, more, k) == 1
  }

  // ----- A sole retry is followed by the next rung -----

  lemma {:induction false} QuietRun(sha: string -> string, s: Server, steps: seq<Step>, r: string, e: string, k: string)
    requires Legal(sha, s, steps) && Smooth(sha, s, steps, r, e, k) && Published(sha, s, steps, k) == 0
    requires Ladder(s.store, r, e, k) && AllKeyed(s.streams)
    ensures Height(After(sha, s, steps).store, k) == Height(s.store, k)
    decreases |steps|
  {
    if steps != [] {
      QuietHeight(sha, s, steps[0], r, e, k);
      StepKeyed(sha, s, steps[0]);
      QuietRun(sha, Apply(sha, s, steps[0]), steps[1..], r, e, k);
    }
  }

  /** A publication in a climb, whatever else is wanted. */
  lemma PublishClimbs(sha: string -> string, s: Server, step: Step, r: string, e: string, k: string)
    requires Enabled(s, step) && Climbing(s, r, e, k) && Publishes(s, step, k) && Height(s.store, k) < MAX_INT
    ensures var s' := Apply(sha, s, step);
      && Ladder(s'.store, r, e, k) && AllKeyed(s'.streams) && s'.store.meta == s.store.meta && k in s'.store.proxies
      && Height(s'.store, k) == Height(s.store, k) + 1
      && s'.store == Retried(s.store, Retry(r, k, s.store.meta[e].version, Height(s.store, k) + 1))
      && Rejected(s.store.meta[e], Height(s.store, k) + 1).Some?
  {
    var x := s.streams[step.id].timers[step.timer];
    assert Wants(s.streams[step.id], x);
    PublishedHeight(s.store, x, r, e, k);
    StepKeyed(sha, s, step);
  }

  lemma {:induction false} OneMoreRises(sha: string -> string, s: Server, more: seq<Step>, r: string, e: string,
                                        k: string)
    requires Climbing(s, r, e, k) && OneMore(sha, s, more, r, e, k) && Height(s.store, k) < MAX_INT
    ensures Height(After(sha, s, more).store, k) == Height(s.store, k) + 1
    decreases |more|
  {
    var s' := Apply(sha, s, more[0]);
    if Publishes(s, more[0], k) {
      PublishClimbs(sha, s, more[0], r, e, k);
      QuietRun(sha, s', more[1..], r, e, k);
    } else {
      ClimbQuiet(sha, s, more[0], r, e, k);
      StepKeyed(sha, s, more[0]);
      StepRetries(sha, s, more[0]);
      OneMoreRises(sha, s', more[1..], r, e, k);
    }
  }

  // ----- Any other retry can repeat the rung -----

  /** An undisturbed continuation that publishes a retry and leaves the attempt where it is. */
  ghost predicate Repeats(sha: string -> string, s: Server, more: seq<Step>, r: string, e: string, k: string) {
    OneMore(sha, s, more, r, e, k) && Height(After(sha, s, more).store, k) == Height(s.store, k)
  }

  lemma RepeatsAfter(sha: string -> string, s: Server, step: Step, more: seq<Step>, r: string, e: string, k: string)
    requires Enabled(s, step) && Lawful(step) && Undisturbed(sha, s, step, r, e, k) && !Publishes(s, step, k)
    requires Repeats(sha, Apply(sha, s, step), more, r, e, k)
    requires Height(Apply(sha, s, step).store, k) == Height(s.store, k)
    ensures Repeats(sha, s, [step] + more, r, e, k)
  {
    assert ([step] + more)[1..] == more;
  }

  /** Publishing the rung a proxy stands on leaves it there. */
  lemma RepeatedRung(s: Store, x: Retry, r: string, e: string, k: string)
    requires Ladder(s, r, e, k) && x.resource == r && x.proxyKey == k && x.base == s.meta[e].version
    requires 0 < x.attempt == Height(s, k) <= MAX_INT && Rejected(s.meta[e], x.attempt).Some?
    ensures Bump(s, r, k, x.base, x.attempt).Some?
    ensures Height(Retried(s, x), k) == Height(s, k) && k in Retried(s, x).proxies
  {
    EngineKeyIsPlain(s.meta[e]);
    PublishedHeight(s, x, r, e, k);
  }

  /** The rung the proxy stands on, asked for again. */
  ghost predicate Stale(s: Store, x: Retry, r: string, e: string, k: string) {
    && Ladder(s, r, e, k) && k in s.proxies && x == Retry(r, k, s.meta[e].version, Height(s, k))
    && 0 < x.attempt <= MAX_INT && Rejected(s.meta[e], x.attempt).Some?
  }

  /** An open stream of a server in order. */
  ghost predicate Settled(s: Server, id: nat) {
    AllKeyed(s.streams) && Retries(s) && id in s.open && id in s.streams
  }

  lemma LastRepeats(sha: string -> string, s: Server, step: Step, r: string, e: string, k: string)
    requires Enabled(s, step) && Lawful(step) && Undisturbed(sha, s, step, r, e, k) && Publishes(s, step, k)
    requires Height(Apply(sha, s, step).store, k) == Height(s.store, k)
    ensures Repeats(sha, s, [step], r, e, k)
  {
    var s' := Apply(sha, s, step);
    assert [step][1..] == [];
    assert Legal(sha, s', []) && Smooth(sha, s', [], r, e, k) && Published(sha, s', [], k) == 0;
  }

  lemma FireApplies(sha: string -> string, s: Server, id: nat, i: nat)
    requires id in s.open && id in s.streams && OneRetry(s.streams[id]) && !s.streams[id].closed
    requires i < |s.streams[id].timers|
    ensures s.streams[id].retryPending && Apply(sha, s, Fire(id, i)).store == Retried(s.store, s.streams[id].timers[i])
  {
  }

  lemma StaleTimer(sha: string -> string, s: Server, id: nat, i: nat, r: string, e: string, k: string)
    returns (more: seq<Step>)
    requires Settled(s, id) && i < |s.streams[id].timers| && Stale(s.store, s.streams[id].timers[i], r, e, k)
    ensures Repeats(sha, s, more, r, e, k)
  {
    RepeatedRung(s.store, s.streams[id].timers[i], r, e, k);
    FireApplies(sha, s, id, i);
    LastRepeats(sha, s, Fire(id, i), r, e, k);
    more := [Fire(id, i)];
  }

  /** A step of the NACK callback after its read. */
  predicate OfNack(step: Step) { step.NackClaim? || step.NackTrack? || step.NackRecord? || step.NackArm? }

  lemma NackSteps(sha: string -> string, s: Server, step: Step, r: string, e: string, k: string)
    requires Enabled(s, step) && OfNack(step) && Settled(s, step.id)
    ensures var s' := Apply(sha, s, step);
      && Settled(s', step.id) && s'.store == s.store
      && Lawful(step) && Undisturbed(sha, s, step, r, e, k) && !Publishes(s, step, k)
  {
    StepKeyed(sha, s, step);
    StepRetries(sha, s, step);
    MovedOpen(sha, s, step);
    OthersKeepStore(sha, s, step);
  }

  lemma StaleArming(sha: string -> string, s: Server, id: nat, r: string, e: string, k: string)
    returns (more: seq<Step>)
    requires Settled(s, id) && s.streams[id].pc.Arming? && Stale(s.store, s.streams[id].pc.retry, r, e, k)
    ensures Repeats(sha, s, more, r, e, k)
  {
    var step := NackArm(id);
    assert OneRetry(s.streams[id]);
    NackSteps(sha, s, step, r, e, k);
    more := StaleTimer(sha, Apply(sha, s, step), id, |s.streams[id].timers|, r, e, k);
    RepeatsAfter(sha, s, step, more, r, e, k);
    more := [step] + more;
  }

  lemma StaleRecording(sha: string -> string, s: Server, id: nat, r: string, e: string, k: string)
    returns (more: seq<Step>)
    requires Settled(s, id) && s.streams[id].pc.Recording? && Stale(s.store, s.streams[id].pc.retry, r, e, k)
    ensures Repeats(sha, s, more, r, e, k)
  {
    var step := NackRecord(id);
    NackSteps(sha, s, step, r, e, k);
    more := StaleArming(sha, Apply(sha, s, step), id, r, e, k);
    RepeatsAfter(sha, s, step, more, r, e, k);
    more := [step] + more;
  }

  lemma StaleTracking(sha: string -> string, s: Server, id: nat, r: string, e: string, k: string)
    returns (more: seq<Step>)
    requires Settled(s, id) && s.streams[id].pc.Tracking? && Stale(s.store, s.streams[id].pc.retry, r, e, k)
    ensures Repeats(sha, s, more, r, e, k)
  {
    var step := NackTrack(id);
    NackSteps(sha, s, step, r, e, k);
    more := StaleRecording(sha, Apply(sha, s, step), id, r, e, k);
    RepeatsAfter(sha, s, step, more, r, e, k);
    more := [step] + more;
  }

  lemma StaleFreeClaim(sha: string -> string, s: Server, id: nat, r: string, e: string, k: string)
    returns (more: seq<Step>)
    requires Settled(s, id) && s.streams[id].pc.Claiming? && Stale(s.store, s.streams[id].pc.retry, r, e, k)
    requires !s.streams[id].retryPending
    ensures Repeats(sha, s, more, r, e, k)
  {
    var step := NackClaim(id);
    NackSteps(sha, s, step, r, e, k);
    more := StaleTracking(sha, Apply(sha, s, step), id, r, e, k);
    RepeatsAfter(sha, s, step, more, r, e, k);
    more := [step] + more;
  }

  /** k was the last proxy to be given a sequence number. */
  ghost predicate Newest(p: map<string, Proxy>, k: string) {
    k in p && forall j | j in p && j != k :: p[j].seqNo < p[k].seqNo
  }

  lemma PublishedIsNewest(s: Store, x: Retry)
    requires Inv(s) && Bump(s, x.resource, x.proxyKey, x.base, x.attempt).Some? && x.proxyKey in Retried(s, x).proxies
    ensures Newest(Retried(s, x).proxies, x.proxyKey)
  {
    var plan := BumpPlan(s, x.resource, x.proxyKey, x.base, x.attempt);
    NewestByNumber(s, x.proxyKey, plan.proxy, plan.next);
  }

  /** Publishing for another proxy does not evict the newest one. */
  lemma NewestSurvives(s: Store, y: Retry, k: string)
    requires Inv(s) && Newest(s.proxies, k) && y.proxyKey != k
    ensures k in Retried(s, y).proxies
  {
    var plan := BumpPlan(s, y.resource, y.proxyKey, y.base, y.attempt);
    if plan.Install? {
      var p, e := s.proxies[y.proxyKey := plan.proxy], plan.proxy.engineKey;
      assert Newer(p, Inactive(p, e), k) <= {y.proxyKey};
      Cardinal(Newer(p, Inactive(p, e), k), {y.proxyKey});
      assert k !in Surplus(p, e);
    }
  }

  /** A stream whose pending timer is for another proxy lets it fire and then claims. */
  lemma StaleBusyClaim(sha: string -> string, s: Server, id: nat, r: string, e: string, k: string)
    returns (more: seq<Step>)
    requires Settled(s, id) && s.streams[id].pc.Claiming? && Stale(s.store, s.streams[id].pc.retry, r, e, k)
    requires s.streams[id].retryPending && Newest(s.store.proxies, k)
    requires |s.streams[id].timers| == 1 && s.streams[id].timers[0].proxyKey != k
    ensures Repeats(sha, s, more, r, e, k)
  {
    var step := Fire(id, 0);
    var s', y := Apply(sha, s, step), s.streams[id].timers[0];
    assert OneRetry(s.streams[id]) && s'.store == Retried(s.store, y);
    NewestSurvives(s.store, y, k);
    QuietHeight(sha, s, step, r, e, k);
    StepKeyed(sha, s, step);
    StepRetries(sha, s, step);
    MovedOpen(sha, s, step);
    more := StaleFreeClaim(sha, s', id, r, e, k);
    RepeatsAfter(sha, s, step, more, r, e, k);
    more := [step] + more;
  }

  lemma StaleClaiming(sha: string -> string, s: Server, id: nat, r: string, e: string, k: string)
    returns (more: seq<Step>)
    requires Settled(s, id) && s.streams[id].pc.Claiming? && Stale(s.store, s.streams[id].pc.retry, r, e, k)
    requires Newest(s.store.proxies, k)
    requires s.streams[id].timers == [] || s.streams[id].timers[0].proxyKey != k
    ensures Repeats(sha, s, more, r, e, k)
  {
    assert OneRetry(s.streams[id]);
    if s.streams[id].retryPending {
      more := StaleBusyClaim(sha, s, id, r, e, k);
    } else {
      more := StaleFreeClaim(sha, s, id, r, e, k);
    }
  }

  /** Wherever a stream keeps a stale retry, it can publish it. */
  lemma StaleRepeats(sha: string -> string, s: Server, id: nat, x: Retry, r: string, e: string, k: string)
    returns (more: seq<Step>)
    requires Settled(s, id) && Newest(s.store.proxies, k) && Wants(s.streams[id], x) && x.proxyKey == k
    requires forall y | Wants(s.streams[id], y) && y.proxyKey == k :: Stale(s.store, y, r, e, k)
    ensures Repeats(sha, s, more, r, e, k)
  {
    var t := s.streams[id];
    if i: nat :| i < |t.timers| && t.timers[i].proxyKey == k {
      assert Wants(t, t.timers[i]);
      more := StaleTimer(sha, s, id, i, r, e, k);
    }
    else if t.pc.Arming? { more := StaleArming(sha, s, id, r, e, k); }
    else if t.pc.Recording? { more := StaleRecording(sha, s, id, r, e, k); }
    else if t.pc.Tracking? { more := StaleTracking(sha, s, id, r, e, k); }
    else { more := StaleClaiming(sha, s, id, r, e, k); }
  }

  /** After a publication every retry still wanted for the proxy is stale. */
  lemma LeftIsStale(sha: string -> string, s: Server, step: Step, r: string, e: string, k: string, id: nat, x: Retry)
    requires Enabled(s, step) && Climbing(s, r, e, k) && Publishes(s, step, k) && Height(s.store, k) < MAX_INT
    requires var s' := Apply(sha, s, step);
      id in s'.open && id in s'.streams && Wants(s'.streams[id], x) && x.proxyKey == k
    ensures Stale(Apply(sha, s, step).store, x, r, e, k)
  {
    PublishClimbs(sha, s, step, r, e, k);
    NextAgain(sha, s, step, r, e, k, id, x);
  }

  lemma NotSoleRepeats(sha: string -> string, s: Server, step: Step, r: string, e: string, k: string)
    returns (more: seq<Step>)
    requires Enabled(s, step) && Climbing(s, r, e, k) && Publishes(s, step, k) && Height(s.store, k) < MAX_INT
    requires !Sole(s, step.id, k)
    ensures Repeats(sha, Apply(sha, s, step), more, r, e, k)
  {
    var s' := Apply(sha, s, step);
    SoleIsUnwanted(sha, s, step, k);
    var id, x :| id in s'.open && id in s'.streams && Wants(s'.streams[id], x) && x.proxyKey == k;
    PublishClimbs(sha, s, step, r, e, k);
    PublishedIsNewest(s.store, Retry(r, k, s.store.meta[e].version, Height(s.store, k) + 1));
    StepRetries(sha, s, step);
    forall y | Wants(s'.streams[id], y) && y.proxyKey == k ensures Stale(s'.store, y, r, e, k) {
      LeftIsStale(sha, s, step, r, e, k, id, y);
    }
    more := StaleRepeats(sha, s', id, x, r, e, k);
  }

  // ----- The exact condition -----

  /** Whatever follows undisturbed, the next retry published for the proxy is one rung higher. */
  ghost predicate RisesNext(sha: string -> string, s: Server, r: string, e: string, k: string) {
    forall more | OneMore(sha, s, more, r, e, k) :: Height(After(sha, s, more).store, k) == Height(s.store, k) + 1
  }

  /** For every published retry: the next one is sure to be one rung higher if and only if this one
      was the sole retry wanted for the proxy when it was published. */
  lemma RisesIffSole(sha: string -> string, s: Server, step: Step, r: string, e: string, k: string)
    requires Enabled(s, step) && Lawful(step) && Climbing(s, r, e, k) && Publishes(s, step, k)
    requires Height(s.store, k) + 1 < MAX_INT
    ensures RisesNext(sha, Apply(sha, s, step), r, e, k) <==> Sole(s, step.id, k)
  {
    var s' := Apply(sha, s, step);
    PublishClimbs(sha, s, step, r, e, k);
    if Sole(s, step.id, k) {
      ClimbStep(sha, s, step, r, e, k);
      forall more | OneMore(sha, s', more, r, e, k)
        ensures Height(After(sha, s', more).store, k) == Height(s'.store, k) + 1
      {
        OneMoreRises(sha, s', more, r, e, k);
      }
    } else {
      var more := NotSoleRepeats(sha, s, step, r, e, k);
      assert OneMore(sha, s', more, r, e, k);
    }
  }

  // ----- Two published retries for one rung -----

  /** An undisturbed continuation with two published retries and one rung gained. */
  ghost predicate TwoForOne(sha: string -> string, s: Server, more: seq<Step>, r: string, e: string, k: string) {
    && Legal(sha, s, more) && Smooth(sha, s, more, r, e, k) && Published(sha, s, more, k) == 2
    && Height(After(sha, s, more).store, k) == Height(s.store, k) + 1
  }

  lemma TwoAfter(sha: string -> string, s: Server, step: Step, more: seq<Step>, r: string, e: string, k: string)
    requires Enabled(s, step) && Lawful(step) && Undisturbed(sha, s, step, r, e, k) && !Publishes(s, step, k)
    requires TwoForOne(sha, Apply(sha, s, step), more, r, e, k)
    requires Height(Apply(sha, s, step).store, k) == Height(s.store, k)
    ensures TwoForOne(sha, s, [step] + more, r, e, k)
  {
    assert ([step] + more)[1..] == more;
  }

  lemma PublishThenRepeat(sha: string -> string, s: Server, step: Step, more: seq<Step>, r: string, e: string,
                          k: string)
    requires Enabled(s, step) && Lawful(step) && Undisturbed(sha, s, step, r, e, k) && Publishes(s, step, k)
    requires Repeats(sha, Apply(sha, s, step), more, r, e, k)
    requires Height(Apply(sha, s, step).store, k) == Height(s.store, k) + 1
    ensures TwoForOne(sha, s, [step] + more, r, e, k)
  {
    assert ([step] + more)[1..] == more;
  }

  /** A stream of the proxy, open in a climbing server whose Engine's resource can be retried. */
  ghost predicate Ours(s: Server, id: nat, r: string, e: string, k: string) {
    && Climbing(s, r, e, k) && Height(s.store, k) < MAX_INT && s.store.meta[e].resource.vm.Some?
    && id in s.open && id in s.streams && s.streams[id].engineKey == e && s.streams[id].proxyKey == k
    && r != "" && e != ""
  }

  lemma LocatedReads(sha: string -> string, s: Server, id: nat, rejected: string, r: string, e: string, k: string)
    requires Ladder(s.store, r, e, k) && AtRest(s, id) && s.streams[id].engineKey == e && s.streams[id].proxyKey == k
    requires r != "" && e != ""
    ensures Located(sha, s.streams[id], e) == s.streams[id]
    ensures Apply(sha, s, NackRead(id, r, e, rejected))
         == With(s, id, s.streams[id].(pc := Claiming(NextRung(s.store, r, e, k))))
  {
    LadderVersion(s.store, r, e, k);
    assert k != "" && Located(sha, s.streams[id], e) == s.streams[id];
  }

  lemma OursReads(sha: string -> string, s: Server, id: nat, rejected: string, r: string, e: string, k: string)
    requires Ours(s, id, r, e, k) && AtRest(s, id)
    ensures var step := NackRead(id, r, e, rejected);
      var s' := Apply(sha, s, step);
      && s' == With(s, id, s.streams[id].(pc := Claiming(NextRung(s.store, r, e, k))))
      && Ours(s', id, r, e, k) && Lawful(step) && Undisturbed(sha, s, step, r, e, k) && !Publishes(s, step, k)
  {
    var step := NackRead(id, r, e, rejected);
    LocatedReads(sha, s, id, rejected, r, e, k);
    ClimbQuiet(sha, s, step, r, e, k);
    StepKeyed(sha, s, step);
    StepRetries(sha, s, step);
  }

  lemma OursMoves(sha: string -> string, s: Server, step: Step, r: string, e: string, k: string)
    requires Enabled(s, step) && OfNack(step) && Ours(s, step.id, r, e, k)
    ensures var s' := Apply(sha, s, step);
      && Ours(s', step.id, r, e, k) && s'.store == s.store
      && Lawful(step) && Undisturbed(sha, s, step, r, e, k) && !Publishes(s, step, k)
  {
    NackSteps(sha, s, step, r, e, k);
    ClimbQuiet(sha, s, step, r, e, k);
  }

  lemma OursPublishes(sha: string -> string, s: Server, id: nat, r: string, e: string, k: string)
    requires Ours(s, id, r, e, k) && s.streams[id].timers == [NextRung(s.store, r, e, k)]
    ensures Publishes(s, Fire(id, 0), k)
  {
    assert OneRetry(s.streams[id]);
    FireApplies(sha, s, id, 0);
    EngineKeyIsPlain(s.store.meta[e]);
  }

  lemma RaceClaiming(sha: string -> string, s: Server, id: nat, r: string, e: string, k: string)
    returns (more: seq<Step>)
    requires Ours(s, id, r, e, k) && s.streams[id].timers == [NextRung(s.store, r, e, k)]
    requires s.streams[id].pc == Claiming(NextRung(s.store, r, e, k))
    ensures TwoForOne(sha, s, more, r, e, k)
  {
    OursPublishes(sha, s, id, r, e, k);
    PublishClimbs(sha, s, Fire(id, 0), r, e, k);
    more := NotSoleRepeats(sha, s, Fire(id, 0), r, e, k);
    PublishThenRepeat(sha, s, Fire(id, 0), more, r, e, k);
    more := [Fire(id, 0)] + more;
  }

  /** The race: a NACK reads the version, the armed timer fires, and the NACK claims after it. */
  lemma RaceArmed(sha: string -> string, s: Server, id: nat, rejected: string, r: string, e: string, k: string)
    returns (more: seq<Step>)
    requires Ours(s, id, r, e, k) && AtRest(s, id) && s.streams[id].timers == [NextRung(s.store, r, e, k)]
    ensures TwoForOne(sha, s, more, r, e, k)
  {
    var read := NackRead(id, r, e, rejected);
    OursReads(sha, s, id, rejected, r, e, k);
    more := RaceClaiming(sha, Apply(sha, s, read), id, r, e, k);
    TwoAfter(sha, s, read, more, r, e, k);
    more := [read] + more;
  }

  lemma RaceArming(sha: string -> string, s: Server, id: nat, rejected: string, r: string, e: string, k: string)
    returns (more: seq<Step>)
    requires Ours(s, id, r, e, k) && s.streams[id].pc == Arming(NextRung(s.store, r, e, k))
    ensures TwoForOne(sha, s, more, r, e, k)
  {
    var step := NackArm(id);
    assert OneRetry(s.streams[id]);
    OursMoves(sha, s, step, r, e, k);
    more := RaceArmed(sha, Apply(sha, s, step), id, rejected, r, e, k);
    TwoAfter(sha, s, step, more, r, e, k);
    more := [step] + more;
  }

  lemma RaceTracking(sha: string -> string, s: Server, id: nat, rejected: string, r: string, e: string, k: string)
    returns (more: seq<Step>)
    requires Ours(s, id, r, e, k) && s.streams[id].pc == Tracking(NextRung(s.store, r, e, k))
    ensures TwoForOne(sha, s, more, r, e, k)
  {
    var track, record := NackTrack(id), NackRecord(id);
    OursMoves(sha, s, track, r, e, k);
    var s1 := Apply(sha, s, track);
    OursMoves(sha, s1, record, r, e, k);
    more := RaceArming(sha, Apply(sha, s1, record), id, rejected, r, e, k);
    TwoAfter(sha, s1, record, more, r, e, k);
    TwoAfter(sha, s, track, [record] + more, r, e, k);
    more := [track] + ([record] + more);
  }

  /** From every climbing state, every stream of the proxy that is at rest with no retry pending can
      run into the race: two retries are published and the attempt rises once. */
  lemma RaceFromRest(sha: string -> string, s: Server, id: nat, rejected: string, r: string, e: string, k: string)
    returns (more: seq<Step>)
    requires Ours(s, id, r, e, k) && AtRest(s, id) && !s.streams[id].retryPending
    ensures TwoForOne(sha, s, more, r, e, k)
  {
    var read, claim := NackRead(id, r, e, rejected), NackClaim(id);
    OursReads(sha, s, id, rejected, r, e, k);
    var s1 := Apply(sha, s, read);
    OursMoves(sha, s1, claim, r, e, k);
    more := RaceTracking(sha, Apply(sha, s1, claim), id, rejected, r, e, k);
    TwoAfter(sha, s1, claim, more, r, e, k);
    TwoAfter(sha, s, read, [claim] + more, r, e, k);
    more := [read] + ([claim] + more);
  }

  lemma Cons(sha: string -> string, s: Server, step: Step, rest: seq<Step>, k: string)
    requires Enabled(s, step) && !step.Fire? && Legal(sha, Apply(sha, s, step), rest)
    ensures Legal(sha, s, [step] + rest)
    ensures After(sha, s, [step] + rest) == After(sha, Apply(sha, s, step), rest)
    ensures Published(sha, s, [step] + rest, k) == Published(sha, Apply(sha, s, step), rest, k)
  {
    assert ([step] + rest)[1..] == rest;
  }

  /** The proxy key of the stream that a step opens, once it has subscribed to the Engine of m. */
  function KeyOf(sha: string -> string, m: Snapshot, open: Step): string
    requires open.Open?
  {
    ProxyKey(sha, EngineKey(m), open.identityKey, open.uid, open.proxyId)
  }

  /** A replica publishes one Engine and serves one stream, which subscribes to it. */
  function Subscription(m: Snapshot, open: Step): seq<Step>
    requires open.Open?
  {
    [Publish(m)] + ([open] + ([WatchStart(open.id, m.resourceName, EngineKey(m), "")] + ([WatchBind(open.id)] + [])))
  }

  lemma Subscribes(sha: string -> string, m: Snapshot, open: Step)
    requires Publishable(m) && open.Open?
    ensures Legal(sha, START, Subscription(m, open))
    ensures Published(sha, START, Subscription(m, open), KeyOf(sha, m, open)) == 0
    ensures var s := After(sha, START, Subscription(m, open));
      && s.store == Replace(EMPTY, m) && s.open == {open.id} && s.streams.Keys == {open.id}
      && var t := s.streams[open.id];
         && t.engineKey == EngineKey(m) && t.proxyKey == KeyOf(sha, m, open)
         && t.pc.Idle? && !t.closed && !t.retryPending && t.timers == []
  {
    var k := KeyOf(sha, m, open);
    var watch, bind := WatchStart(open.id, m.resourceName, EngineKey(m), ""), WatchBind(open.id);
    var s1 := Apply(sha, START, Publish(m));
    var s2 := Apply(sha, s1, open);
    var s3 := Apply(sha, s2, watch);
    assert RetryAttempt("") == 0;
    assert BindPlan(s3.store, m.resourceName, k, "").Nothing?;
    Cons(sha, s3, bind, [], k);
    Cons(sha, s2, watch, [bind] + [], k);
    Cons(sha, s1, open, [watch] + ([bind] + []), k);
    Cons(sha, START, Publish(m), [open] + ([watch] + ([bind] + [])), k);
  }

  lemma SubscribedIsOurs(sha: string -> string, m: Snapshot, open: Step)
    requires Publishable(m) && open.Open? && m.resource.vm.Some?
    requires Legal(sha, START, Subscription(m, open))
    requires var s := After(sha, START, Subscription(m, open));
      && s.store == Replace(EMPTY, m) && s.open == {open.id} && s.streams.Keys == {open.id}
      && var t := s.streams[open.id];
         && t.engineKey == EngineKey(m) && t.proxyKey == KeyOf(sha, m, open)
         && t.pc.Idle? && !t.closed && !t.retryPending && t.timers == []
    ensures Ours(After(sha, START, Subscription(m, open)), open.id, m.resourceName, EngineKey(m), KeyOf(sha, m, open))
    ensures Height(After(sha, START, Subscription(m, open)).store, KeyOf(sha, m, open)) == 0
  {
    ProxyKeyIsProxyKey(sha, EngineKey(m), open.identityKey, open.uid, open.proxyId);
    forall step | step in Subscription(m, open) ensures Lawful(step) {
    }
    ClimbStarts(sha, Subscription(m, open), m.resourceName, EngineKey(m), KeyOf(sha, m, open));
  }

  lemma {:induction false} Append(sha: string -> string, s: Server, a: seq<Step>, b: seq<Step>, k: string)
    requires Legal(sha, s, a) && Legal(sha, After(sha, s, a), b)
    ensures Legal(sha, s, a + b) && After(sha, s, a + b) == After(sha, After(sha, s, a), b)
    ensures Published(sha, s, a + b, k) == Published(sha, s, a, k) + Published(sha, After(sha, s, a), b, k)
    decreases |a|
  {
    if a == [] {
      assert a + b == b;
    } else {
      Append(sha, Apply(sha, s, a[0]), a[1..], b, k);
      assert (a + b)[0] == a[0] && (a + b)[1..] == a[1..] + b;
    }
  }

  /** From the start, with one Engine and one stream, whatever the hash: a run in which two retries
      are published for the proxy and its attempt is 1. */
  lemma RungRepeats(sha: string -> string, m: Snapshot, open: Step, rejected: string) returns (steps: seq<Step>)
    requires Publishable(m) && open.Open? && m.resource.vm.Some?
    ensures Legal(sha, START, steps)
    ensures Published(sha, START, steps, KeyOf(sha, m, open)) == 2
    ensures Height(After(sha, START, steps).store, KeyOf(sha, m, open)) == 1
  {
    var r, e, k := m.resourceName, EngineKey(m), KeyOf(sha, m, open);
    Subscribes(sha, m, open);
    SubscribedIsOurs(sha, m, open);
    var prefix := Subscription(m, open);
    var more := RaceFromRest(sha, After(sha, START, prefix), open.id, rejected, r, e, k);
    Append(sha, START, prefix, more, k);
    steps := prefix + more;
  }
}
