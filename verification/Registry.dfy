/** The registry of authenticated streams: its caps, its per-identity counters and its
    cancellations. */
module Registry {

  datatype Session = Session(resource: string, identity: string, cancelled: bool)

  datatype Outcome = Registered(id: nat) | TooMany | TooManyForIdentity

  function SessionsOf(streams: map<nat, Session>, identity: string): set<nat> {
    set n | n in streams && streams[n].identity == identity
  }

  /** Every identity with sessions has its number of them as counter, and no other identity has one. */
  ghost predicate Counted(streams: map<nat, Session>, perIdentity: map<string, nat>) {
    forall k ::
      if k in perIdentity then perIdentity[k] == |SessionsOf(streams, k)| > 0 else SessionsOf(streams, k) == {}
  }

  lemma SessionsOfUpdate(streams: map<nat, Session>, n: nat, t: Session, k: string)
    requires n !in streams
    ensures SessionsOf(streams[n := t], k) == SessionsOf(streams, k) + if t.identity == k then {n} else {}
  {
  }

  lemma SessionsOfRemove(streams: map<nat, Session>, n: nat, k: string)
    requires n in streams
    ensures SessionsOf(streams - {n}, k) == SessionsOf(streams, k) - {n}
  {
  }

  lemma CountedAdd(streams: map<nat, Session>, perIdentity: map<string, nat>, n: nat, t: Session)
    requires Counted(streams, perIdentity) && n !in streams
    ensures Counted(streams[n := t], perIdentity[t.identity := |SessionsOf(streams, t.identity)| + 1])
  {
    var p := perIdentity[t.identity := |SessionsOf(streams, t.identity)| + 1];
    forall k
      ensures if k in p then p[k] == |SessionsOf(streams[n := t], k)| > 0 else SessionsOf(streams[n := t], k) == {}
    {
      SessionsOfUpdate(streams, n, t, k);
    }
  }

  lemma CountedRemove(streams: map<nat, Session>, perIdentity: map<string, nat>, n: nat)
    requires Counted(streams, perIdentity) && n in streams
    ensures streams[n].identity in perIdentity
    ensures var k, c := streams[n].identity, perIdentity[streams[n].identity];
      Counted(streams - {n}, if c > 1 then perIdentity[k := c - 1] else perIdentity - {k})
  {
    var key := streams[n].identity;
    assert n in SessionsOf(streams, key);
    var p := if perIdentity[key] > 1 then perIdentity[key := perIdentity[key] - 1] else perIdentity - {key};
    forall k ensures if k in p then p[k] == |SessionsOf(streams - {n}, k)| > 0 else SessionsOf(streams - {n}, k) == {} {
      SessionsOfRemove(streams, n, k);
      if k == key {
        assert |SessionsOf(streams, k) - {n}| == |SessionsOf(streams, k)| - 1;
      } else {
        assert n !in SessionsOf(streams, k);
        assert SessionsOf(streams, k) - {n} == SessionsOf(streams, k);
      }
    }
  }

  /** Changing resources or cancellations moves no counter. */
  lemma CountedSame(streams: map<nat, Session>, streams': map<nat, Session>, perIdentity: map<string, nat>)
    requires Counted(streams, perIdentity) && streams'.Keys == streams.Keys
    requires forall n | n in streams :: streams'[n].identity == streams[n].identity
    ensures Counted(streams', perIdentity)
  {
    forall k ensures SessionsOf(streams', k) == SessionsOf(streams, k) { }
  }

  class StreamRegistry {
    const maxStreams: nat
    const maxPerIdentity: nat
    var nextId: nat
    var streams: map<nat, Session>
    var perIdentity: map<string, nat>

    /** Exact counters, both caps, and ids that were never used before. */
    ghost predicate Valid()
      reads this
    {
      && Counted(streams, perIdentity)
      && |streams| <= maxStreams
      && (forall k | k in perIdentity :: perIdentity[k] <= maxPerIdentity)
      && (forall n | n in streams :: 0 < n <= nextId)
    }

    constructor (maxStreams: nat, maxPerIdentity: nat)
      ensures Valid() && streams == map[] && perIdentity == map[]
    {
      this.maxStreams, this.maxPerIdentity := maxStreams, maxPerIdentity;
      nextId, streams, perIdentity := 0, map[], map[];
      new;
      forall k ensures SessionsOf(streams, k) == {} { }
    }

    /** A stream is registered exactly when both caps leave room for it. */
    method RegisterWithCancel(resource: string, identity: string) returns (out: Outcome)
      requires Valid()
      modifies this`nextId, this`streams, this`perIdentity
      ensures Valid()
      ensures out.TooMany? <==> |old(streams)| >= maxStreams
      ensures out.TooManyForIdentity? <==>
        |old(streams)| < maxStreams && |SessionsOf(old(streams), identity)| >= maxPerIdentity
      ensures if out.Registered?
        then out.id !in old(streams) && old(nextId) < out.id == nextId
          && streams == old(streams)[out.id := Session(resource, identity, false)]
        else streams == old(streams) && perIdentity == old(perIdentity) && nextId == old(nextId)
    {
      if |streams| >= maxStreams { return TooMany; }
      var count := if identity in perIdentity then perIdentity[identity] else 0;
      assert count == |SessionsOf(streams, identity)|;
      if count >= maxPerIdentity { return TooManyForIdentity; }
      CountedAdd(streams, perIdentity, nextId + 1, Session(resource, identity, false));
      nextId := nextId + 1;
      streams := streams[nextId := Session(resource, identity, false)];
      perIdentity := perIdentity[identity := count + 1];
      return Registered(nextId);
    }

    method Unregister(id: nat)
      requires Valid()
      modifies this`streams, this`perIdentity
      ensures Valid() && streams == old(streams) - {id}
    {
      if id !in streams { return; }
      CountedRemove(streams, perIdentity, id);
      var key := streams[id].identity;
      streams := streams - {id};
      if perIdentity[key] > 1 {
        perIdentity := perIdentity[key := perIdentity[key] - 1];
      } else {
        perIdentity := perIdentity - {key};
      }
      assert |streams| == |old(streams)| - 1;
    }

    method SetResource(id: nat, resource: string)
      requires Valid()
      modifies this`streams
      ensures Valid()
      ensures streams ==
        if id in old(streams) then old(streams)[id := old(streams)[id].(resource := resource)] else old(streams)
    {
      if id in streams {
        ghost var was := streams;
        streams := streams[id := streams[id].(resource := resource)];
        assert streams.Keys == was.Keys;
        Resized(streams, was);
        CountedSame(was, streams, perIdentity);
      }
    }

    /** Every session of the resource is cancelled and no other, whatever the map order. */
    method RevokeResource(resource: string)
      requires Valid()
      modifies this`streams
      ensures Valid() && streams.Keys == old(streams.Keys)
      ensures forall n | n in streams ::
        streams[n].cancelled <==> old(streams)[n].cancelled || streams[n].resource == resource
      ensures forall n | n in streams ::
        streams[n].resource == old(streams)[n].resource && streams[n].identity == old(streams)[n].identity
    {
      ghost var was := streams;
      var todo := streams.Keys;
      while todo != {}
        invariant todo <= was.Keys == streams.Keys
        invariant forall n | n in was ::
          streams[n] == if n !in todo && was[n].resource == resource then was[n].(cancelled := true) else was[n]
        decreases |todo|
      {
        var n :| n in todo;
        todo := todo - {n};
        if streams[n].resource == resource { streams := streams[n := streams[n].(cancelled := true)]; }
      }
      Resized(streams, was);
      CountedSame(was, streams, perIdentity);
    }
  }

  lemma Resized<T, U>(a: map<T, U>, b: map<T, U>)
    requires a.Keys == b.Keys
    ensures |a| == |b|
  {
    assert |a| == |a.Keys| && |b| == |b.Keys|;
  }
}
