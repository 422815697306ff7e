/** The cap on open streams: an atomic counter that is added to first and rolled back when the cap
    is exceeded, interleaved with closes that delete the stream and give the slot back later. */
module StreamCaps {
  import opened Sets

  /** Added: counted, with the verdict of the comparison. Live: accepted and stored. Closing: deleted
      from the stream map, its slot still counted. */
  datatype Phase = Added(accepted: bool) | Live | Closing

  datatype State = State(counter: int, streams: map<nat, Phase>)

  datatype Step = Add(id: nat) | Rollback(id: nat) | Store(id: nat) | Delete(id: nat) | GiveBack(id: nat)

  const START := State(0, map[])

  predicate Enabled(s: State, step: Step) {
    match step
    case Add(id) => id !in s.streams
    case Rollback(id) => id in s.streams && s.streams[id] == Added(false)
    case Store(id) => id in s.streams && s.streams[id] == Added(true)
    case Delete(id) => id in s.streams && s.streams[id].Live?
    case GiveBack(id) => id in s.streams && s.streams[id].Closing?
  }

  function Apply(max: nat, s: State, step: Step): State
    requires Enabled(s, step)
  {
    match step
    case Add(id) => State(s.counter + 1, s.streams[id := Added(s.counter + 1 <= max)])
    case Rollback(id) => State(s.counter - 1, s.streams - {id})
    case Store(id) => s.(streams := s.streams[id := Live])
    case Delete(id) => s.(streams := s.streams[id := Closing])
    case GiveBack(id) => State(s.counter - 1, s.streams - {id})
  }

  ghost predicate Legal(max: nat, s: State, steps: seq<Step>)
    decreases |steps|
  {
    steps == [] || (Enabled(s, steps[0]) && Legal(max, Apply(max, s, steps[0]), steps[1..]))
  }

  ghost function After(max: nat, s: State, steps: seq<Step>): State
    requires Legal(max, s, steps)
    decreases |steps|
  {
    if steps == [] then s else After(max, Apply(max, s, steps[0]), steps[1..])
  }

  function Accepted(streams: map<nat, Phase>): set<nat> {
    set id | id in streams && streams[id] != Added(false)
  }

  function LiveOnes(streams: map<nat, Phase>): set<nat> {
    set id | id in streams && streams[id].Live?
  }

  /** The counter counts every slot in use, also those about to be rolled back or given back; the
      accepted ones fit the cap. */
  ghost predicate Capped(max: nat, s: State) {
    s.counter == |s.streams| && |Accepted(s.streams)| <= max
  }

  lemma AddCapped(max: nat, s: State, id: nat)
    requires id !in s.streams && Capped(max, s)
    ensures Capped(max, Apply(max, s, Add(id)))
  {
    var streams := Apply(max, s, Add(id)).streams;
    assert streams.Keys == s.streams.Keys + {id};
    if s.counter + 1 <= max {
      Cardinal(Accepted(streams), streams.Keys);
    } else {
      assert Accepted(streams) == Accepted(s.streams);
    }
  }

  lemma StepCapped(max: nat, s: State, step: Step)
    requires Enabled(s, step) && Capped(max, s)
    ensures Capped(max, Apply(max, s, step))
  {
    var s' := Apply(max, s, step);
    match step {
      case Add(id) => AddCapped(max, s, id);
      case Rollback(id) =>
        assert s'.streams.Keys == s.streams.Keys - {id};
        assert Accepted(s'.streams) == Accepted(s.streams);
      case GiveBack(id) =>
        assert s'.streams.Keys == s.streams.Keys - {id};
        Cardinal(Accepted(s'.streams), Accepted(s.streams));
      case _ =>
        assert s'.streams.Keys == s.streams.Keys;
        assert Accepted(s'.streams) == Accepted(s.streams);
    }
  }

  lemma {:induction false} RunCapped(max: nat, s: State, steps: seq<Step>)
    requires Legal(max, s, steps) && Capped(max, s)
    ensures Capped(max, After(max, s, steps))
    decreases |steps|
  {
    if steps != [] {
      StepCapped(max, s, steps[0]);
      RunCapped(max, Apply(max, s, steps[0]), steps[1..]);
    }
  }

  /** Under every interleaving the accepted live streams never exceed the cap. */
  lemma LiveWithinCap(max: nat, steps: seq<Step>)
    requires Legal(max, START, steps)
    ensures |LiveOnes(After(max, START, steps).streams)| <= max
  {
    assert Accepted(map[]) == {};
    RunCapped(max, START, steps);
    var streams := After(max, START, steps).streams;
    Cardinal(LiveOnes(streams), Accepted(streams));
  }

  /** No slot leaks: when no open or close is under way the counter is the number of live streams. */
  lemma CounterIsLive(max: nat, steps: seq<Step>)
    requires Legal(max, START, steps)
    requires var s := After(max, START, steps); forall id | id in s.streams :: s.streams[id].Live?
    ensures var s := After(max, START, steps); s.counter == |LiveOnes(s.streams)|
  {
    assert Accepted(map[]) == {};
    RunCapped(max, START, steps);
    var s := After(max, START, steps);
    assert LiveOnes(s.streams) == s.streams.Keys;
  }

  /** An open is refused only while the slots in use, with those still to be rolled back or given
      back, fill the cap. */
  lemma RefusedOnlyWhenFull(max: nat, steps: seq<Step>, id: nat)
    requires Legal(max, START, steps)
    requires var s := After(max, START, steps); Enabled(s, Add(id))
    ensures var s := After(max, START, steps);
      Apply(max, s, Add(id)).streams[id] == Added(false) <==> |s.streams| >= max
  {
    assert Accepted(map[]) == {};
    RunCapped(max, START, steps);
  }
}
