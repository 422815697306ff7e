/** The authorization index as a value: which ServiceAccounts may subscribe to which Engine
    resource, which Engines the index has seen, and how often each resource was revoked. */
module AuthzModel {

  datatype Identity = Identity(key: string, uid: string)

  datatype EngineRef = EngineRef(namespace: string, name: string)

  /** identities maps "namespace/name" of a ServiceAccount to its UID, "" when unresolved. */
  datatype Entry = Entry(engine: EngineRef, identities: map<string, string>, refreshedAt: int)

  datatype Index = Index(entries: map<string, Entry>, known: map<string, EngineRef>, revocations: map<string, nat>)

  const EMPTY := Index(map[], map[], map[])

  function Count(ix: Index, r: string): nat {
    if r in ix.revocations then ix.revocations[r] else 0
  }

  predicate Admits(identities: map<string, string>, id: Identity) {
    id.key in identities && (identities[id.key] == "" || id.uid == "" || identities[id.key] == id.uid)
  }

  predicate Stale(entry: Entry, now: int, staleness: int) { now - entry.refreshedAt > staleness }

  predicate Authorized(ix: Index, r: string, id: Identity, now: int, staleness: int) {
    r in ix.entries && !Stale(ix.entries[r], now, staleness) && Admits(ix.entries[r].identities, id)
  }

  /** identitiesRevoked */
  predicate Revoked(previous: map<string, string>, next: map<string, string>) {
    exists k | k in previous :: k !in next || (previous[k] != "" && next[k] != "" && previous[k] != next[k])
  }

  /** A ServiceAccount whose UID was unresolved and now is. */
  predicate Resolves(previous: map<string, string>, next: map<string, string>) {
    exists k | k in previous && k in next :: previous[k] == "" && next[k] != ""
  }

  // ----- Lock sections -----

  /** RevokeAndNotify; the caller closes streams when the entry existed. */
  function Dropped(ix: Index, r: string): Index {
    Index(ix.entries - {r}, ix.known, ix.revocations[r := Count(ix, r) + 1])
  }

  /** expireIfStale */
  function Expired(ix: Index, r: string, now: int, staleness: int): Index {
    if r in ix.entries && Stale(ix.entries[r], now, staleness) then Dropped(ix, r) else ix
  }

  /** refresh, first section; a revocation since the capture ends it. */
  function Begun(ix: Index, r: string, generation: nat, engine: EngineRef): Index {
    if Count(ix, r) != generation then ix else ix.(known := ix.known[r := engine])
  }

  /** refresh, last section */
  function Committed(ix: Index, r: string, generation: nat, entry: Entry): Index {
    if Count(ix, r) != generation then ix else ix.(entries := ix.entries[r := entry])
  }

  /** Whether that section must close streams. */
  predicate CommitRevokes(ix: Index, r: string, generation: nat, entry: Entry) {
    Count(ix, r) == generation && r in ix.entries && Revoked(ix.entries[r].identities, entry.identities)
  }

  function Listed(ix: Index, engine: EngineRef): set<string> {
    set r | r in ix.entries && ix.entries[r].engine == engine
  }

  function Affected(ix: Index, engine: EngineRef): set<string> {
    Listed(ix, engine) + set r | r in ix.known && ix.known[r] == engine
  }

  function Bumped(revocations: map<string, nat>, rs: set<string>): map<string, nat> {
    map r | r in revocations.Keys + rs ::
      (if r in revocations then revocations[r] else 0) + (if r in rs then 1 else 0)
  }

  /** RevokeEngine; the caller closes streams of Listed(ix, engine). */
  function EngineRevoked(ix: Index, engine: EngineRef): Index {
    var rs := Affected(ix, engine);
    Index(ix.entries - rs, ix.known - rs, Bumped(ix.revocations, rs))
  }

  function Forgotten(ix: Index, r: string): Index { ix.(known := ix.known - {r}) }

  // ----- When a replaced mapping keeps every stream -----

  /** A refresh that revokes nobody keeps every admission if and only if it resolves no UID that
      was unresolved. */
  lemma UnrevokedKeepsIff(previous: map<string, string>, next: map<string, string>)
    requires !Revoked(previous, next)
    ensures (forall id :: Admits(previous, id) ==> Admits(next, id)) <==> !Resolves(previous, next)
  {
    if Resolves(previous, next) {
      var k :| k in previous && k in next && previous[k] == "" && next[k] != "";
      var other := Identity(k, next[k] + "'");
      assert |other.uid| != |next[k]|;
      assert Admits(previous, other) && !Admits(next, other);
    } else {
      forall id | Admits(previous, id) ensures Admits(next, id) {
        assert id.key in next;
      }
    }
  }

  /** A mapping is revoked exactly when an account it lists loses admission under the very UID listed. */
  lemma RevokedIffLoses(previous: map<string, string>, next: map<string, string>)
    ensures Revoked(previous, next) <==>
      exists k | k in previous :: Admits(previous, Identity(k, previous[k])) && !Admits(next, Identity(k, previous[k]))
  {
    if k :| k in previous && !Admits(next, Identity(k, previous[k])) {
      assert Admits(previous, Identity(k, previous[k]));
    }
    if Revoked(previous, next) {
      var k :| k in previous && (k !in next || (previous[k] != "" && next[k] != "" && previous[k] != next[k]));
      assert Admits(previous, Identity(k, previous[k])) && !Admits(next, Identity(k, previous[k]));
    }
  }

  /** A revoked mapping locks somebody out, for UIDs that are all resolved. */
  lemma RevokedLocksOut(previous: map<string, string>, next: map<string, string>)
    requires forall k | k in previous :: previous[k] != ""
    requires forall k | k in next :: next[k] != ""
    ensures Revoked(previous, next) <==> exists id :: Admits(previous, id) && !Admits(next, id)
  {
    if Revoked(previous, next) {
      var k :| k in previous && (k !in next || (previous[k] != "" && next[k] != "" && previous[k] != next[k]));
      var id := Identity(k, previous[k]);
      assert Admits(previous, id) && !Admits(next, id);
    } else {
      UnrevokedKeepsIff(previous, next);
    }
  }
}
