/** Versioned objects as the operator's client sees them, and how they may change. */
module Cluster {

  datatype Kind = EngineKind | RuleSetKind | RuleSourceKind | RuleDataKind

  datatype ObjectKey = ObjectKey(kind: Kind, namespace: string, name: string)

  datatype Spec =
    | RuleSetSpec(sources: seq<string>, data: seq<string>, emptyRulesPolicy: string)
    | RuleSourceSpec(rules: string)
    | RuleDataSpec(files: map<string, string>)
    | EngineSpec(ruleSet: string, failurePolicy: string, observability: bool, url: string, sha: string)

  /** The API server raises the generation of an object with every change of its spec; status
      changes leave it. */
  datatype Object = Object(uid: string, generation: nat, spec: Spec, status: string)

  type World = map<ObjectKey, Object>

  ghost predicate NeverUsed(h: seq<World>, n: nat, uid: string)
    requires n <= |h|
  {
    forall t, k | 0 <= t < n && k in h[t] :: h[t][k].uid != uid
  }

  /** The object under k at instant t, against the instant before: still the same object, whose spec
      changes only with its generation, or a new object under a UID never used before. */
  ghost predicate Follows(h: seq<World>, t: nat, k: ObjectKey)
    requires 0 < t < |h| && k in h[t]
  {
    if k in h[t - 1] && h[t - 1][k].uid == h[t][k].uid
    then h[t - 1][k].generation <= h[t][k].generation
      && (h[t - 1][k].generation == h[t][k].generation ==> h[t - 1][k].spec == h[t][k].spec)
    else NeverUsed(h, t, h[t][k].uid)
  }

  /** What writers can do between two instants: any number of creations, deletions, spec updates and
      status updates. */
  ghost predicate Evolves(h: seq<World>) {
    forall t, k | 0 < t < |h| && k in h[t] :: Follows(h, t, k)
  }

  predicate SameVersion(a: Object, b: Object) { a.uid == b.uid && a.generation == b.generation }

  /** An object seen at two instants under one UID was there in between, with a generation that did
      not fall. */
  lemma {:induction false} SameUid(h: seq<World>, k: ObjectKey, a: nat, t: nat, b: nat)
    requires Evolves(h) && a <= t <= b < |h| && k in h[a] && k in h[b] && h[a][k].uid == h[b][k].uid
    ensures k in h[t] && h[t][k].uid == h[b][k].uid && h[t][k].generation <= h[b][k].generation
    decreases b - t
  {
    if t < b {
      SameUid(h, k, a, t + 1, b);
      assert Follows(h, t + 1, k);
      assert h[a][k].uid == h[t + 1][k].uid;
    }
  }

  lemma Successor(h: seq<World>, k: ObjectKey, t: nat)
    requires Evolves(h) && 0 < t < |h| && k in h[t - 1] && k in h[t] && h[t - 1][k].uid == h[t][k].uid
    ensures h[t - 1][k].generation <= h[t][k].generation
    ensures h[t - 1][k].generation == h[t][k].generation ==> h[t - 1][k].spec == h[t][k].spec
  {
    assert Follows(h, t, k);
  }

  /** Between two sightings of one version the object's spec never changed. */
  lemma {:induction false} SameSpec(h: seq<World>, k: ObjectKey, a: nat, t: nat, b: nat)
    requires Evolves(h) && a <= t <= b < |h| && k in h[a] && k in h[b] && SameVersion(h[a][k], h[b][k])
    ensures k in h[t] && SameVersion(h[t][k], h[a][k]) && h[t][k].spec == h[a][k].spec
    decreases t - a
  {
    SameUid(h, k, a, t, b);
    if a < t {
      SameSpec(h, k, a, t - 1, b);
      Successor(h, k, t);
    }
  }
}
