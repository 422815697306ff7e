/** The Include guard: a worklist over the rule text and the data files it includes, against plain
    reachability. Includes may form cycles. */
module Includes {
  import opened Sets

  datatype Node = Root | File(name: string)

  /** One scan: whether a text passes, the names it includes, and how a name in a file resolves
      (path.Join of the file's directory and the name; the root's directory for the root). */
  datatype Scanner = Scanner(passes: string -> bool, includes: string -> seq<string>, resolve: (Node, string) -> string)

  datatype Rules = Rules(text: string, files: map<string, string>)

  predicate Known(r: Rules, n: Node) { n.Root? || n.name in r.files }

  function TextOf(r: Rules, n: Node): string
    requires Known(r, n)
  {
    if n.Root? then r.text else r.files[n.name]
  }

  /** The files a node includes, as far as they are provided. */
  function Targets(s: Scanner, r: Rules, n: Node): set<string>
    requires Known(r, n)
  {
    set x | x in s.includes(TextOf(r, n)) && s.resolve(n, x) in r.files :: s.resolve(n, x)
  }

  /** The text of the node has an include that resolves, from the node's place, to the provided file. */
  predicate IncludesFile(s: Scanner, r: Rules, n: Node, name: string)
    requires Known(r, n)
  {
    && name in r.files
    && exists x | x in s.includes(if n == Root then r.text else r.files[n.name]) :: s.resolve(n, x) == name
  }

  lemma TargetsAre(s: Scanner, r: Rules, n: Node)
    requires Known(r, n)
    ensures forall name :: name in Targets(s, r, n) <==> IncludesFile(s, r, n, name)
  {
  }

  /** A chain of includes from the root. */
  ghost predicate Chain(s: Scanner, r: Rules, p: seq<string>) {
    && p != [] && (forall i | 0 <= i < |p| :: p[i] in r.files)
    && IncludesFile(s, r, Root, p[0])
    && forall i | 0 < i < |p| :: IncludesFile(s, r, File(p[i - 1]), p[i])
  }

  ghost predicate Reachable(s: Scanner, r: Rules, name: string) {
    exists p :: Chain(s, r, p) && p[|p| - 1] == name
  }

  /** The contract: the root and every reachable file pass. */
  ghost predicate AllPass(s: Scanner, r: Rules) {
    s.passes(r.text) && forall name | name in r.files && Reachable(s, r, name) :: s.passes(r.files[name])
  }

  lemma ReachableFromRoot(s: Scanner, r: Rules, name: string)
    requires name in Targets(s, r, Root)
    ensures name in r.files && Reachable(s, r, name)
  {
    TargetsAre(s, r, Root);
    assert Chain(s, r, [name]);
  }

  lemma ReachableFromFile(s: Scanner, r: Rules, from: string, name: string)
    requires from in r.files && Reachable(s, r, from) && name in Targets(s, r, File(from))
    ensures name in r.files && Reachable(s, r, name)
  {
    var p :| Chain(s, r, p) && p[|p| - 1] == from;
    TargetsAre(s, r, File(from));
    var q := p + [name];
    assert Chain(s, r, q) && q[|q| - 1] == name;
  }

  /** A set that holds the root's targets and is closed under includes holds everything reachable. */
  lemma {:induction false} ClosedHoldsChain(s: Scanner, r: Rules, names: set<string>, p: seq<string>, i: nat)
    requires Targets(s, r, Root) <= names
    requires forall n | n in names && n in r.files :: Targets(s, r, File(n)) <= names
    requires Chain(s, r, p) && i < |p|
    ensures p[i] in names
  {
    if i > 0 {
      ClosedHoldsChain(s, r, names, p, i - 1);
      TargetsAre(s, r, File(p[i - 1]));
    } else {
      TargetsAre(s, r, Root);
    }
  }

  // ----- The worklist -----

  /** The inner loop: provided targets not scanned yet join the queue, once each. */
  method Enqueue(s: Scanner, r: Rules, n: Node, scanned: set<string>) returns (added: seq<string>)
    requires Known(r, n)
    ensures Distinct(added) && forall x | x in added :: x !in scanned && x in Targets(s, r, n)
    ensures forall x | x in Targets(s, r, n) :: x in scanned || x in added
  {
    var names := s.includes(TextOf(r, n));
    added := [];
    for i := 0 to |names|
      invariant Distinct(added) && forall x | x in added :: x !in scanned && x in Targets(s, r, n)
      invariant forall j | 0 <= j < i && s.resolve(n, names[j]) in r.files ::
        s.resolve(n, names[j]) in scanned || s.resolve(n, names[j]) in added
    {
      var name := s.resolve(n, names[i]);
      if name in scanned || name in added { continue; }
      if name !in r.files { continue; }
      added := added + [name];
    }
  }

  /** Where the worklist stands: done was scanned and passed, queue waits, scanned was ever queued. */
  ghost predicate Standing(s: Scanner, r: Rules, done: seq<Node>, queue: seq<Node>, scanned: set<string>) {
    && Distinct(done + queue)
    && (forall n :: n in done + queue <==> n == Root || (n.File? && n.name in scanned))
    && (forall x | x in scanned :: x in r.files && Reachable(s, r, x))
    && (forall n | n in done :: Known(r, n) && s.passes(TextOf(r, n)) && Targets(s, r, n) <= scanned)
  }

  function Files(names: seq<string>): seq<Node> {
    seq(|names|, i requires 0 <= i < |names| => File(names[i]))
  }

  lemma DistinctAppend(all: seq<Node>, scanned: set<string>, added: seq<string>)
    requires Distinct(all) && Distinct(added) && forall x | x in added :: x !in scanned
    requires forall n | n in all :: n == Root || n.name in scanned
    ensures Distinct(all + Files(added))
  {
    var all' := all + Files(added);
    forall i, j | 0 <= i < j < |all'| ensures all'[i] != all'[j] {
      if j >= |all| {
        assert all'[j] == File(added[j - |all|]) && added[j - |all|] in added;
        if i < |all| { assert all[i] in all; } else { assert all'[i] == File(added[i - |all|]); }
      }
    }
  }

  lemma MembersAppend(all: seq<Node>, scanned: set<string>, added: seq<string>)
    requires forall n :: n in all <==> n == Root || (n.File? && n.name in scanned)
    ensures forall n :: n in all + Files(added) <==> n == Root || (n.File? && n.name in scanned + Elements(added))
  {
    forall n ensures n in all + Files(added) <==> n == Root || (n.File? && n.name in scanned + Elements(added)) {
      assert n in all + Files(added) <==> n in all || n in Files(added);
      if n.File? && n.name in added {
        var i :| 0 <= i < |added| && added[i] == n.name;
        assert Files(added)[i] == n;
      }
    }
  }

  lemma StandingStep(s: Scanner, r: Rules, done: seq<Node>, queue: seq<Node>, scanned: set<string>, added: seq<string>)
    requires Standing(s, r, done, queue, scanned) && queue != [] && Known(r, queue[0]) && s.passes(TextOf(r, queue[0]))
    requires Distinct(added) && forall x | x in added :: x !in scanned && x in Targets(s, r, queue[0])
    requires forall x | x in Targets(s, r, queue[0]) :: x in scanned || x in added
    ensures Standing(s, r, done + [queue[0]], queue[1..] + Files(added), scanned + Elements(added))
  {
    var n, all := queue[0], done + queue;
    assert n in all;
    DistinctAppend(all, scanned, added);
    MembersAppend(all, scanned, added);
    assert done + [n] + (queue[1..] + Files(added)) == all + Files(added);
    forall x | x in added ensures x in r.files && Reachable(s, r, x) {
      if n.Root? { ReachableFromRoot(s, r, x); } else { ReachableFromFile(s, r, n.name, x); }
    }
  }

  /** When the queue is empty what was scanned passed, and is closed under includes. */
  lemma StandingCloses(s: Scanner, r: Rules, done: seq<Node>, scanned: set<string>)
    requires Standing(s, r, done, [], scanned)
    ensures s.passes(r.text) && Targets(s, r, Root) <= scanned
    ensures forall n | n in scanned :: n in r.files && Targets(s, r, File(n)) <= scanned && s.passes(r.files[n])
  {
    assert done + [] == done;
    assert Root in done;
    forall n | n in scanned ensures n in r.files && Targets(s, r, File(n)) <= scanned && s.passes(r.files[n]) {
      assert File(n) in done;
    }
  }

  /** So everything reachable was scanned and passed. */
  lemma StandingDone(s: Scanner, r: Rules, done: seq<Node>, scanned: set<string>)
    requires Standing(s, r, done, [], scanned)
    ensures AllPass(s, r)
    ensures forall x :: x in scanned <==> Reachable(s, r, x)
  {
    StandingCloses(s, r, done, scanned);
    forall x | Reachable(s, r, x) ensures x in scanned {
      var p :| Chain(s, r, p) && p[|p| - 1] == x;
      ClosedHoldsChain(s, r, scanned, p, |p| - 1);
    }
  }

  lemma StandingFails(s: Scanner, r: Rules, done: seq<Node>, queue: seq<Node>, scanned: set<string>)
    requires Standing(s, r, done, queue, scanned) && queue != [] && Known(r, queue[0]) && !s.passes(TextOf(r, queue[0]))
    ensures !AllPass(s, r)
  {
    assert queue[0] in done + queue;
  }

  lemma AddedCount(scanned: set<string>, added: seq<string>)
    requires Distinct(added) && forall x | x in added :: x !in scanned
    ensures |scanned + Elements(added)| == |scanned| + |added|
  {
    DistinctCardinal(added);
    assert scanned !! Elements(added);
    assert |scanned + Elements(added)| == |scanned| + |Elements(added)|;
  }

  /** The loop both guards share. It ends on every input, scans each text at most once, and accepts
      exactly when the root and every reachable file pass. */
  method Scan(s: Scanner, r: Rules) returns (ok: bool, visited: seq<Node>)
    ensures ok <==> AllPass(s, r)
    ensures Distinct(visited)
    ensures ok ==> forall n :: n in visited <==> n == Root || (n.File? && Reachable(s, r, n.name))
  {
    var queue, scanned := [Root], {};
    visited := [];
    assert Standing(s, r, visited, queue, scanned);
    while queue != []
      invariant Standing(s, r, visited, queue, scanned)
      decreases |r.files.Keys| - |scanned| + |queue|
    {
      var n := queue[0];
      assert n in visited + queue;
      if !s.passes(TextOf(r, n)) {
        StandingFails(s, r, visited, queue, scanned);
        ghost var seen := visited + [n];
        assert seen == (visited + queue)[..|visited| + 1];
        return false, visited + [n];
      }
      var added := Enqueue(s, r, n, scanned);
      StandingStep(s, r, visited, queue, scanned, added);
      AddedCount(scanned, added);
      Cardinal(scanned + Elements(added), r.files.Keys);
      visited := visited + [n];
      queue := queue[1..] + Files(added);
      scanned := scanned + Elements(added);
    }
    StandingDone(s, r, visited, scanned);
    assert visited + [] == visited;
    return true, visited;
  }

  /** ValidateIncludes: first the renderer's include contract, then the directive guard. */
  method ValidateIncludes(contract: Scanner, guard: Scanner, r: Rules) returns (ok: bool)
    ensures ok <==> AllPass(contract, r) && AllPass(guard, r)
  {
    var visited;
    ok, visited := Scan(contract, r);
    if !ok { return; }
    ok, visited := Scan(guard, r);
  }
}
