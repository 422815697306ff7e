/** Keys shared by the store, the authorization index and the server: Engine keys, ECDS
    resource names, proxy cache keys and retry-budget keys. */
module Names {
  import opened Strings

  /** types.NamespacedName.String() */
  function Key(namespace: string, name: string): string {
    namespace + "/" + name
  }

  /** render.ResourceName */
  function ResourceName(namespace: string, engine: string, uid: string): string {
    "coraza.waf." + namespace + "." + engine + "." + uid
  }

  /** Kubernetes guarantees: a namespace is a DNS label, a UID has no dot, no name holds NUL. */
  predicate Wellformed(namespace: string, engine: string, uid: string) {
    && '/' !in namespace && '.' !in namespace && '.' !in uid
    && '\0' !in namespace && '\0' !in engine
  }

  lemma KeyInjective(ns1: string, n1: string, ns2: string, n2: string)
    requires '/' !in ns1 && '/' !in ns2
    requires Key(ns1, n1) == Key(ns2, n2)
    ensures ns1 == ns2 && n1 == n2
  {
    CutFirst(ns1, ns2, n1, n2, '/');
  }

  /** Engine names may contain dots; the name is still unambiguous. */
  lemma ResourceNameInjective(ns1: string, e1: string, u1: string, ns2: string, e2: string, u2: string)
    requires '.' !in ns1 && '.' !in ns2 && '.' !in u1 && '.' !in u2
    requires ResourceName(ns1, e1, u1) == ResourceName(ns2, e2, u2)
    ensures ns1 == ns2 && e1 == e2 && u1 == u2
  {
    var p := "coraza.waf.";
    var a, b := ns1 + "." + e1, ns2 + "." + e2;
    assert ResourceName(ns1, e1, u1) == (p + a) + ['.'] + u1;
    assert ResourceName(ns2, e2, u2) == (p + b) + ['.'] + u2;
    CutLast(p + a, p + b, u1, u2, '.');
    assert a == (p + a)[|p|..] && b == (p + b)[|p|..];
    CutFirst(ns1, ns2, e1, e2, '.');
  }

  /** proxyCacheKey: sha stands for the hex SHA-256 of its argument. */
  function ProxyKey(sha: string -> string, engineKey: string, identityKey: string, uid: string, proxyId: string): string
  {
    var id := if proxyId == "" then identityKey + "/" + uid else proxyId;
    engineKey + "\0" + "proxy:" + sha(engineKey + "\0" + identityKey + "\0" + uid + "\0" + id)
  }

  predicate IsProxyKey(k: string) { '\0' in k }

  lemma ProxyKeyIsProxyKey(sha: string -> string, engineKey: string, identityKey: string, uid: string, proxyId: string)
    ensures IsProxyKey(ProxyKey(sha, engineKey, identityKey, uid, proxyId))
  {
    assert ProxyKey(sha, engineKey, identityKey, uid, proxyId)[|engineKey|] == '\0';
  }

  /** A proxy key names its Engine, whatever the hash does. */
  lemma ProxyKeyDeterminesEngine(sha: string -> string, e1: string, i1: string, u1: string, p1: string,
                                 e2: string, i2: string, u2: string, p2: string)
    requires '\0' !in e1 && '\0' !in e2
    requires ProxyKey(sha, e1, i1, u1, p1) == ProxyKey(sha, e2, i2, u2, p2)
    ensures e1 == e2
  {
    var k1, k2 := ProxyKey(sha, e1, i1, u1, p1), ProxyKey(sha, e2, i2, u2, p2);
    assert k1 == e1 + ['\0'] + k1[|e1| + 1..];
    assert k2 == e2 + ['\0'] + k2[|e2| + 1..];
    CutFirst(e1, e2, k1[|e1| + 1..], k2[|e2| + 1..], '\0');
  }

  ghost predicate NoCollisions(sha: string -> string) { forall a, b :: sha(a) == sha(b) ==> a == b }

  /** What tells the proxies of an identity apart: the id a proxy gives, or the identity itself. */
  function ProxyName(identityKey: string, uid: string, proxyId: string): string {
    if proxyId != "" then proxyId else identityKey + "/" + uid
  }

  /** Streams share a proxy key if and only if they are of one Engine, one identity with one UID, and one
      proxy name. */
  lemma ProxyKeyIff(sha: string -> string, e1: string, i1: string, u1: string, p1: string,
                    e2: string, i2: string, u2: string, p2: string)
    requires NoCollisions(sha) && '\0' !in e1 + i1 + u1 && '\0' !in e2 + i2 + u2
    ensures ProxyKey(sha, e1, i1, u1, p1) == ProxyKey(sha, e2, i2, u2, p2) <==>
      e1 == e2 && i1 == i2 && u1 == u2 && ProxyName(i1, u1, p1) == ProxyName(i2, u2, p2)
  {
    if ProxyKey(sha, e1, i1, u1, p1) == ProxyKey(sha, e2, i2, u2, p2) {
      forall c | c in e1 || c in i1 || c in u1 ensures c in e1 + i1 + u1 { }
      forall c | c in e2 || c in i2 || c in u2 ensures c in e2 + i2 + u2 { }
      ProxyKeyDeterminesEngine(sha, e1, i1, u1, p1, e2, i2, u2, p2);
      var n1, n2 := ProxyName(i1, u1, p1), ProxyName(i2, u2, p2);
      var h1, h2 := e1 + "\0" + i1 + "\0" + u1 + "\0" + n1, e2 + "\0" + i2 + "\0" + u2 + "\0" + n2;
      HashedEqual(sha, e1, h1, h2);
      HashedParts(e1, i1, u1, n1, i2, u2, n2);
    }
  }

  lemma HashedEqual(sha: string -> string, e: string, a: string, b: string)
    requires NoCollisions(sha) && e + "\0" + "proxy:" + sha(a) == e + "\0" + "proxy:" + sha(b)
    ensures a == b
  {
    var p := e + "\0" + "proxy:";
    assert sha(a) == (p + sha(a))[|p|..] == (p + sha(b))[|p|..] == sha(b);
  }

  lemma HashedParts(e: string, i1: string, u1: string, n1: string, i2: string, u2: string, n2: string)
    requires '\0' !in e && '\0' !in i1 && '\0' !in u1 && '\0' !in i2 && '\0' !in u2
    requires e + "\0" + i1 + "\0" + u1 + "\0" + n1 == e + "\0" + i2 + "\0" + u2 + "\0" + n2
    ensures i1 == i2 && u1 == u2 && n1 == n2
  {
    var r1, r2 := u1 + ['\0'] + n1, u2 + ['\0'] + n2;
    var t1, t2 := i1 + ['\0'] + r1, i2 + ['\0'] + r2;
    assert e + "\0" + i1 + "\0" + u1 + "\0" + n1 == e + ['\0'] + t1;
    assert e + "\0" + i2 + "\0" + u2 + "\0" + n2 == e + ['\0'] + t2;
    CutFirst(e, e, t1, t2, '\0');
    CutFirst(i1, i2, r1, r2, '\0');
    CutFirst(u1, u2, n1, n2, '\0');
  }

  /** nackKey */
  function NackKey(resourceName: string, session: nat): string {
    resourceName + "/" + Itoa(session)
  }

  lemma NackKeyDeterminesSession(r1: string, s1: nat, r2: string, s2: nat)
    requires NackKey(r1, s1) == NackKey(r2, s2)
    ensures r1 == r2 && s1 == s2
  {
    assert forall c | c in Itoa(s1) :: IsDigit(c);
    assert forall c | c in Itoa(s2) :: IsDigit(c);
    CutLast(r1, r2, Itoa(s1), Itoa(s2), '/');
    ItoaInjective(s1, s2);
  }
}
