/** The authorization index as the object the replica keeps. Each method is one lock section. */
module AuthzIndex {
  import opened AuthzModel

  class AuthzIndex {
    var entries: map<string, Entry>
    var known: map<string, EngineRef>
    var revocations: map<string, nat>
    const staleness: int

    constructor (staleness: int)
      ensures View() == EMPTY && this.staleness == staleness
    {
      entries, known, revocations := map[], map[], map[];
      this.staleness := staleness;
    }

    ghost function View(): Index
      reads this
    {
      Index(entries, known, revocations)
    }

    method Generation(r: string) returns (n: nat)
      ensures n == Count(View(), r)
    {
      n := if r in revocations then revocations[r] else 0;
    }

    /** The first section of a refresh. */
    method Begin(r: string, generation: nat, engine: EngineRef) returns (current: bool)
      modifies this`known
      ensures View() == Begun(old(View()), r, generation, engine)
      ensures current == (Count(old(View()), r) == generation)
    {
      var n := Generation(r);
      current := n == generation;
      if current { known := known[r := engine]; }
    }

    /** The last section of a refresh. */
    method Commit(r: string, generation: nat, entry: Entry) returns (notify: bool)
      modifies this`entries
      ensures View() == Committed(old(View()), r, generation, entry)
      ensures notify == CommitRevokes(old(View()), r, generation, entry)
    {
      var n := Generation(r);
      if n != generation { return false; }
      notify := false;
      if r in entries { notify := IdentitiesRevoked(entries[r].identities, entry.identities); }
      entries := entries[r := entry];
    }

    method RevokeAndNotify(r: string) returns (notify: bool)
      modifies this`entries, this`revocations
      ensures View() == Dropped(old(View()), r) && notify == (r in old(entries))
    {
      notify := r in entries;
      var n := Generation(r);
      entries := entries - {r};
      revocations := revocations[r := n + 1];
    }

    method ExpireIfStale(r: string, now: int) returns (notify: bool)
      modifies this`entries, this`revocations
      ensures View() == Expired(old(View()), r, now, staleness)
      ensures notify == (r in old(entries) && r !in entries)
    {
      notify := r in entries && now - entries[r].refreshedAt > staleness;
      if notify {
        var n := Generation(r);
        entries := entries - {r};
        revocations := revocations[r := n + 1];
      }
    }

    method RevokeEngine(engine: EngineRef) returns (notify: set<string>)
      modifies this
      ensures View() == EngineRevoked(old(View()), engine) && notify == Listed(old(View()), engine)
    {
      notify := CollectListed(entries, engine);
      var affected := CollectKnown(known, engine, notify);
      revocations := BumpAll(affected);
      entries, known := entries - affected, known - affected;
    }

    method BumpAll(affected: set<string>) returns (counters: map<string, nat>)
      ensures counters == Bumped(revocations, affected)
    {
      counters := revocations;
      var todo := affected;
      while todo != {}
        invariant todo <= affected
        invariant counters == Bumped(revocations, affected - todo)
        decreases |todo|
      {
        var r :| r in todo;
        counters := counters[r := (if r in counters then counters[r] else 0) + 1];
        todo := todo - {r};
      }
      assert affected - todo == affected;
    }

    method Forget(r: string)
      modifies this`known
      ensures View() == Forgotten(old(View()), r)
    {
      known := known - {r};
    }

    method Authorize(r: string, id: Identity, now: int) returns (ok: bool)
      ensures ok == Authorized(View(), r, id, now, staleness)
    {
      if r !in entries { return false; }
      if now - entries[r].refreshedAt > staleness { return false; }
      if id.key !in entries[r].identities { return false; }
      var uid := entries[r].identities[id.key];
      if uid != "" && id.uid != "" && uid != id.uid { return false; }
      return true;
    }

    /** The one resource an identity is admitted to, whatever the map order; "" for none or several. */
    method SoleResource(id: Identity) returns (sole: string)
      requires "" !in entries
      ensures sole != "" <==> exists r :: Only(entries, id, r)
      ensures sole != "" ==> Only(entries, id, sole)
    {
      sole := "";
      var todo := entries.Keys;
      while todo != {}
        invariant todo <= entries.Keys
        invariant sole == "" ==> forall r | r in entries && r !in todo :: !Admits(entries[r].identities, id)
        invariant sole != "" ==> sole in entries && sole !in todo && Admits(entries[sole].identities, id)
        invariant sole != "" ==>
          forall r | r in entries && r !in todo && r != sole :: !Admits(entries[r].identities, id)
        decreases |todo|
      {
        var r :| r in todo;
        todo := todo - {r};
        if Admits(entries[r].identities, id) {
          if sole != "" {
            assert forall q | Only(entries, id, q) :: q == sole && q == r;
            return "";
          }
          sole := r;
        }
      }
      if sole != "" { assert Only(entries, id, sole); }
    }

    /** The snapshot of a periodic pass: what is known, with the generations of the same instant. */
    method Capture() returns (keys: map<string, EngineRef>, generations: map<string, nat>)
      ensures keys == known && generations.Keys == known.Keys
      ensures forall r | r in known :: generations[r] == Count(View(), r)
    {
      keys, generations := map[], map[];
      var todo := known.Keys;
      while todo != {}
        invariant todo <= known.Keys && keys.Keys == generations.Keys == known.Keys - todo
        invariant forall r | r in keys :: keys[r] == known[r] && generations[r] == Count(View(), r)
        decreases |todo|
      {
        var r :| r in todo;
        todo := todo - {r};
        var n := Generation(r);
        keys, generations := keys[r := known[r]], generations[r := n];
      }
    }
  }

  /** The loops of RevokeEngine that collect what it affects. */
  method CollectListed(entries: map<string, Entry>, engine: EngineRef) returns (notify: set<string>)
    ensures notify == set r | r in entries && entries[r].engine == engine
  {
    notify := {};
    var todo := entries.Keys;
    while todo != {}
      invariant todo <= entries.Keys
      invariant notify == set r | r in entries && r !in todo && entries[r].engine == engine
      decreases |todo|
    {
      var r :| r in todo;
      todo := todo - {r};
      if entries[r].engine == engine { notify := notify + {r}; }
    }
  }

  method CollectKnown(known: map<string, EngineRef>, engine: EngineRef, listed: set<string>)
    returns (affected: set<string>)
    ensures affected == listed + set r | r in known && known[r] == engine
  {
    affected := listed;
    var todo := known.Keys;
    while todo != {}
      invariant todo <= known.Keys
      invariant affected == listed + set r | r in known && r !in todo && known[r] == engine
      decreases |todo|
    {
      var r :| r in todo;
      todo := todo - {r};
      if known[r] == engine { affected := affected + {r}; }
    }
  }

  predicate Only(entries: map<string, Entry>, id: Identity, r: string) {
    && r in entries && Admits(entries[r].identities, id)
    && forall q | q in entries && Admits(entries[q].identities, id) :: q == r
  }

  /** identitiesRevoked; the answer does not depend on the map order. */
  method IdentitiesRevoked(previous: map<string, string>, next: map<string, string>) returns (revoked: bool)
    ensures revoked == Revoked(previous, next)
  {
    var todo := previous.Keys;
    while todo != {}
      invariant todo <= previous.Keys
      invariant forall k | k in previous && k !in todo ::
        k in next && !(previous[k] != "" && next[k] != "" && previous[k] != next[k])
      decreases |todo|
    {
      var k :| k in todo;
      todo := todo - {k};
      if k !in next { return true; }
      if previous[k] != "" && next[k] != "" && previous[k] != next[k] { return true; }
    }
    return false;
  }
}
