/** Chains of SecRules and their deletion: a chain is dropped as a whole or not at all. */
module RuleChains {
  import opened Strings
  import opened RuleBlocks

  /** What the grouping sees of a block: blank or a comment, another directive, a SecRule with the
      chain action, a SecRule without. */
  datatype Kind = Skipped | Other | Chained | Single

  predicate IsRule(k: Kind) { k.Chained? || k.Single? }

  /** SecRules i <= j are linked when every SecRule from i up to j has the chain action and no other
      directive stands between them. */
  predicate Linked(kinds: seq<Kind>, i: nat, j: nat) {
    && i <= j < |kinds| && IsRule(kinds[i]) && IsRule(kinds[j])
    && forall m | i <= m < j :: kinds[m].Chained? || kinds[m].Skipped?
  }

  predicate SameChain(kinds: seq<Kind>, i: nat, j: nat) { if i <= j then Linked(kinds, i, j) else Linked(kinds, j, i) }

  function RuleIndices(kinds: seq<Kind>, n: nat): seq<nat>
    requires n <= |kinds|
  {
    if n == 0 then [] else RuleIndices(kinds, n - 1) + if IsRule(kinds[n - 1]) then [n - 1] else []
  }

  lemma {:induction false} RuleIndicesAre(kinds: seq<Kind>, n: nat)
    requires n <= |kinds|
    ensures forall x: nat :: x in RuleIndices(kinds, n) <==> x < n && IsRule(kinds[x])
    ensures forall a, b | 0 <= a < b < |RuleIndices(kinds, n)| :: RuleIndices(kinds, n)[a] < RuleIndices(kinds, n)[b]
  {
    if n > 0 {
      RuleIndicesAre(kinds, n - 1);
      var before := RuleIndices(kinds, n - 1);
      assert forall a | 0 <= a < |before| :: before[a] in before;
    }
  }

  function Flat(groups: seq<seq<nat>>): seq<nat> {
    if groups == [] then [] else Flat(groups[..|groups| - 1]) + groups[|groups| - 1]
  }

  /** A group: SecRules in order, each linked to all later ones. */
  predicate WellLinked(kinds: seq<Kind>, g: seq<nat>) {
    && g != [] && (forall a | 0 <= a < |g| :: g[a] < |kinds| && IsRule(kinds[g[a]]))
    && forall a, b | 0 <= a < b < |g| :: g[a] < g[b] && Linked(kinds, g[a], g[b])
  }

  function Last(g: seq<nat>): nat
    requires g != []
  {
    g[|g| - 1]
  }

  /** The chain that ends in SecRule l cannot go on at or after n. */
  predicate Ended(kinds: seq<Kind>, l: nat, n: nat)
    requires l < n <= |kinds|
  {
    kinds[l].Single? || exists m | l < m < n :: kinds[m].Other?
  }

  lemma EndedUnlinked(kinds: seq<Kind>, l: nat, n: nat, j: nat)
    requires l < n <= |kinds| && Ended(kinds, l, n) && n <= j
    ensures !Linked(kinds, l, j)
  {
  }

  /** The chain is still open at n: its last SecRule has the chain action and only skipped blocks follow. */
  predicate Going(kinds: seq<Kind>, l: nat, n: nat)
    requires l < n <= |kinds|
  {
    kinds[l].Chained? && forall m | l < m < n :: kinds[m].Skipped?
  }

  /** Groups are well linked, and each ended before the next began. */
  ghost predicate Apart(kinds: seq<Kind>, groups: seq<seq<nat>>) {
    && (forall a | 0 <= a < |groups| :: WellLinked(kinds, groups[a]))
    && (forall a | 0 <= a < |groups| - 1 :: After(kinds, Last(groups[a]), groups[a + 1]))
  }

  /** The open chain after n blocks. */
  ghost predicate OpenChain(kinds: seq<Kind>, n: nat, cur: seq<nat>) {
    n <= |kinds| && (cur != [] ==> WellLinked(kinds, cur) && Last(cur) < n && Going(kinds, Last(cur), n))
  }

  /** The last closed group against what follows it. */
  ghost predicate LastClosed(kinds: seq<Kind>, n: nat, groups: seq<seq<nat>>, cur: seq<nat>)
    requires n <= |kinds|
  {
    groups != [] && groups[|groups| - 1] != [] ==> var l := Last(groups[|groups| - 1]);
      l < n && if cur != [] then After(kinds, l, cur) else Ended(kinds, l, n)
  }

  /** Where the grouping loop stands after n blocks. */
  ghost predicate Standing(kinds: seq<Kind>, n: nat, groups: seq<seq<nat>>, cur: seq<nat>) {
    && Apart(kinds, groups) && OpenChain(kinds, n, cur) && LastClosed(kinds, n, groups, cur)
    && Flat(groups) + cur == RuleIndices(kinds, n)
  }

  lemma FlatSnoc(groups: seq<seq<nat>>, g: seq<nat>)
    ensures Flat(groups + [g]) == Flat(groups) + g
  {
    assert (groups + [g])[..|groups|] == groups;
  }

  /** A linked SecRule joins the open chain. */
  lemma Joins(kinds: seq<Kind>, n: nat, cur: seq<nat>)
    requires n < |kinds| && IsRule(kinds[n]) && WellLinked(kinds, cur) && Last(cur) < n && Going(kinds, Last(cur), n)
    ensures WellLinked(kinds, cur + [n])
  {
    var g := cur + [n];
    forall a, b | 0 <= a < b < |g| ensures g[a] < g[b] && Linked(kinds, g[a], g[b]) {
      if b == |cur| && a < |cur| - 1 {
        assert Linked(kinds, cur[a], Last(cur));
      }
    }
  }

  /** g comes after l and is not linked to it. */
  predicate After(kinds: seq<Kind>, l: nat, g: seq<nat>)
    requires g != []
  {
    l < g[0] && !Linked(kinds, l, g[0])
  }

  lemma Closes(kinds: seq<Kind>, groups: seq<seq<nat>>, g: seq<nat>)
    requires Apart(kinds, groups) && WellLinked(kinds, g)
    requires groups != [] ==> After(kinds, Last(groups[|groups| - 1]), g)
    ensures Apart(kinds, groups + [g]) && Flat(groups + [g]) == Flat(groups) + g
  {
    FlatSnoc(groups, g);
    var all := groups + [g];
    forall a | 0 <= a < |all| ensures WellLinked(kinds, all[a]) {
      if a < |groups| { assert all[a] == groups[a]; }
    }
    forall a | 0 <= a < |all| - 1 ensures After(kinds, Last(all[a]), all[a + 1]) {
      assert all[a] == groups[a];
      if a < |groups| - 1 { assert all[a + 1] == groups[a + 1]; }
    }
  }

  /** A chain that can be closed after n blocks: nothing before it links to it. */
  lemma ClosesStanding(kinds: seq<Kind>, n: nat, groups: seq<seq<nat>>, g: seq<nat>)
    requires n <= |kinds| && Apart(kinds, groups) && WellLinked(kinds, g) && LastClosed(kinds, n, groups, g)
    requires Last(g) < n && Ended(kinds, Last(g), n) && Flat(groups) + g == RuleIndices(kinds, n)
    ensures Standing(kinds, n, groups + [g], [])
  {
    Closes(kinds, groups, g);
    assert Flat(groups + [g]) + [] == Flat(groups + [g]);
  }

  lemma SkippedStep(kinds: seq<Kind>, n: nat, groups: seq<seq<nat>>, cur: seq<nat>)
    requires n < |kinds| && kinds[n].Skipped? && Standing(kinds, n, groups, cur)
    ensures Standing(kinds, n + 1, groups, cur)
  {
  }

  lemma OtherIdle(kinds: seq<Kind>, n: nat, groups: seq<seq<nat>>)
    requires n < |kinds| && kinds[n].Other? && Standing(kinds, n, groups, [])
    ensures Standing(kinds, n + 1, groups, [])
  {
  }

  lemma OtherCloses(kinds: seq<Kind>, n: nat, groups: seq<seq<nat>>, cur: seq<nat>)
    requires n < |kinds| && kinds[n].Other? && cur != [] && Standing(kinds, n, groups, cur)
    ensures Standing(kinds, n + 1, groups + [cur], [])
  {
    assert Ended(kinds, Last(cur), n + 1);
    assert RuleIndices(kinds, n) + [] == RuleIndices(kinds, n);
    ClosesStanding(kinds, n + 1, groups, cur);
  }

  lemma OtherStep(kinds: seq<Kind>, n: nat, groups: seq<seq<nat>>, cur: seq<nat>)
    requires n < |kinds| && kinds[n].Other? && Standing(kinds, n, groups, cur)
    ensures Standing(kinds, n + 1, if cur != [] then groups + [cur] else groups, [])
  {
    if cur != [] { OtherCloses(kinds, n, groups, cur); } else { OtherIdle(kinds, n, groups); }
  }

  /** A SecRule extends the open chain, or starts one. */
  lemma Extends(kinds: seq<Kind>, n: nat, groups: seq<seq<nat>>, cur: seq<nat>)
    requires n < |kinds| && IsRule(kinds[n]) && Standing(kinds, n, groups, cur)
    ensures WellLinked(kinds, cur + [n]) && LastClosed(kinds, n + 1, groups, cur + [n])
    ensures Flat(groups) + (cur + [n]) == RuleIndices(kinds, n + 1)
  {
    assert Flat(groups) + (cur + [n]) == Flat(groups) + cur + [n];
    if cur != [] {
      Joins(kinds, n, cur);
    } else {
      assert Linked(kinds, n, n) && cur + [n] == [n];
      if groups != [] { EndedUnlinked(kinds, Last(groups[|groups| - 1]), n, n); }
    }
  }

  lemma ChainedStep(kinds: seq<Kind>, n: nat, groups: seq<seq<nat>>, cur: seq<nat>)
    requires n < |kinds| && kinds[n].Chained? && Standing(kinds, n, groups, cur)
    ensures Standing(kinds, n + 1, groups, cur + [n])
  {
    Extends(kinds, n, groups, cur);
  }

  lemma SingleStep(kinds: seq<Kind>, n: nat, groups: seq<seq<nat>>, cur: seq<nat>)
    requires n < |kinds| && kinds[n].Single? && Standing(kinds, n, groups, cur)
    ensures Standing(kinds, n + 1, groups + [cur + [n]], [])
  {
    Extends(kinds, n, groups, cur);
    ClosesStanding(kinds, n + 1, groups, cur + [n]);
  }

  /** One turn of the grouping loop. */
  method GroupBlock(kinds: seq<Kind>, n: nat, groups: seq<seq<nat>>, cur: seq<nat>)
    returns (groups': seq<seq<nat>>, cur': seq<nat>)
    requires n < |kinds| && Standing(kinds, n, groups, cur)
    ensures Standing(kinds, n + 1, groups', cur')
  {
    match kinds[n]
    case Skipped =>
      SkippedStep(kinds, n, groups, cur);
      return groups, cur;
    case Other =>
      OtherStep(kinds, n, groups, cur);
      return if cur != [] then groups + [cur] else groups, [];
    case Chained =>
      ChainedStep(kinds, n, groups, cur);
      return groups, cur + [n];
    case Single =>
      SingleStep(kinds, n, groups, cur);
      return groups + [cur + [n]], [];
  }

  /** chainSecRuleGroups: the groups list the SecRule blocks in order, each exactly once; the rules of a
      group are linked and neighbouring groups are not. */
  method ChainSecRuleGroups(kinds: seq<Kind>) returns (groups: seq<seq<nat>>)
    ensures Apart(kinds, groups) && Flat(groups) == RuleIndices(kinds, |kinds|)
  {
    groups := [];
    var cur: seq<nat> := [];
    for n := 0 to |kinds|
      invariant Standing(kinds, n, groups, cur)
    {
      groups, cur := GroupBlock(kinds, n, groups, cur);
    }
    if cur != [] {
      Closes(kinds, groups, cur);
      groups := groups + [cur];
    }
  }

  // ----- Groups are chains -----

  lemma {:induction false} FlatMember(groups: seq<seq<nat>>, x: nat)
    ensures x in Flat(groups) <==> exists a | 0 <= a < |groups| :: x in groups[a]
  {
    if groups != [] {
      var n := |groups| - 1;
      FlatMember(groups[..n], x);
      assert forall a | 0 <= a < n :: groups[..n][a] == groups[a];
    }
  }

  lemma {:induction false} FirstAfter(kinds: seq<Kind>, groups: seq<seq<nat>>, a: nat, b: nat)
    requires Apart(kinds, groups) && a < b < |groups|
    ensures Last(groups[a]) < groups[a + 1][0] <= groups[b][0]
  {
    if a + 1 < b {
      FirstAfter(kinds, groups, a, b - 1);
      assert Last(groups[b - 1]) < groups[b - 1 + 1][0];
      assert WellLinked(kinds, groups[b - 1]);
    }
  }

  lemma LinkedWithin(kinds: seq<Kind>, i: nat, l: nat, f: nat, j: nat)
    requires i <= l < f <= j && f < |kinds| && IsRule(kinds[l]) && IsRule(kinds[f])
    ensures Linked(kinds, i, j) ==> Linked(kinds, l, f)
  {
  }

  /** SecRules of different groups are never linked. */
  lemma Separated(kinds: seq<Kind>, groups: seq<seq<nat>>, a: nat, b: nat, i: nat, j: nat)
    requires Apart(kinds, groups) && a < b < |groups| && i in groups[a] && j in groups[b]
    ensures i < j && !Linked(kinds, i, j)
  {
    FirstAfter(kinds, groups, a, b);
    var l, f := Last(groups[a]), groups[a + 1][0];
    assert WellLinked(kinds, groups[a]) && WellLinked(kinds, groups[a + 1]) && WellLinked(kinds, groups[b]);
    assert i <= l < f <= groups[b][0] <= j;
    LinkedWithin(kinds, i, l, f, j);
  }

  lemma InOneGroup(kinds: seq<Kind>, g: seq<nat>, i: nat, j: nat)
    requires WellLinked(kinds, g) && i in g && j in g
    ensures SameChain(kinds, i, j)
  {
    var p :| 0 <= p < |g| && g[p] == i;
    var q :| 0 <= q < |g| && g[q] == j;
  }

  lemma OneGroup(kinds: seq<Kind>, groups: seq<seq<nat>>, a: nat, b: nat, i: nat, j: nat)
    requires Apart(kinds, groups) && a < |groups| && b < |groups| && i in groups[a] && j in groups[b]
    requires SameChain(kinds, i, j)
    ensures a == b
  {
    if a < b { Separated(kinds, groups, a, b, i, j); }
    if b < a { Separated(kinds, groups, b, a, j, i); }
  }

  /** Two blocks are in one group. */
  ghost predicate Together(groups: seq<seq<nat>>, i: nat, j: nat) {
    exists a :: 0 <= a < |groups| && i in groups[a] && j in groups[a]
  }

  lemma RuleHasGroup(kinds: seq<Kind>, groups: seq<seq<nat>>, i: nat) returns (a: nat)
    requires Flat(groups) == RuleIndices(kinds, |kinds|) && i < |kinds| && IsRule(kinds[i])
    ensures a < |groups| && i in groups[a]
  {
    RuleIndicesAre(kinds, |kinds|);
    FlatMember(groups, i);
    a :| 0 <= a < |groups| && i in groups[a];
  }

  /** Two SecRules are in one group exactly when they belong to one chain. */
  lemma GroupsAreChains(kinds: seq<Kind>, groups: seq<seq<nat>>, i: nat, j: nat)
    requires Apart(kinds, groups) && Flat(groups) == RuleIndices(kinds, |kinds|)
    ensures SameChain(kinds, i, j) <==> Together(groups, i, j)
  {
    if SameChain(kinds, i, j) {
      var a := RuleHasGroup(kinds, groups, i);
      var b := RuleHasGroup(kinds, groups, j);
      OneGroup(kinds, groups, a, b, i, j);
    } else if Together(groups, i, j) {
      var a :| 0 <= a < |groups| && i in groups[a] && j in groups[a];
      InOneGroup(kinds, groups[a], i, j);
    }
  }

  // ----- Deletion -----

  method AnyWished(g: seq<nat>, wish: seq<bool>) returns (found: bool)
    requires forall x | x in g :: x < |wish|
    ensures found <==> exists x | x in g :: wish[x]
  {
    for p := 0 to |g|
      invariant forall q | 0 <= q < p :: g[q] < |wish| && !wish[g[q]]
    {
      assert g[p] in g;
      if wish[g[p]] { return true; }
    }
    return false;
  }

  method MarkAll(g: seq<nat>, drop: seq<bool>) returns (marked: seq<bool>)
    requires forall x | x in g :: x < |drop|
    ensures |marked| == |drop| && forall i | 0 <= i < |drop| :: marked[i] == (drop[i] || i in g)
  {
    marked := drop;
    for p := 0 to |g|
      invariant |marked| == |drop| && forall i | 0 <= i < |drop| :: marked[i] == (drop[i] || i in g[..p])
    {
      assert g[p] in g;
      marked := marked[g[p] := true];
    }
    assert g[..|g|] == g;
  }

  /** The group holds the block and something wished away. */
  predicate Condemned(g: seq<nat>, wish: seq<bool>, i: nat)
    requires forall x | x in g :: x < |wish|
  {
    i in g && exists x | x in g :: wish[x]
  }

  method MarkDrops(groups: seq<seq<nat>>, wish: seq<bool>) returns (drop: seq<bool>)
    requires forall a, x | 0 <= a < |groups| && x in groups[a] :: x < |wish|
    ensures |drop| == |wish|
    ensures forall i | 0 <= i < |wish| :: drop[i] <==> wish[i] || AnyCondemns(groups, wish, i)
  {
    drop := wish;
    for n := 0 to |groups|
      invariant |drop| == |wish|
      invariant forall i | 0 <= i < |wish| :: drop[i] <==>
        wish[i] || exists a | 0 <= a < n :: Condemned(groups[a], wish, i)
    {
      var g := groups[n];
      var found := AnyWished(g, wish);
      ghost var was := drop;
      if |g| > 1 && found {
        drop := MarkAll(g, drop);
      }
      assert |g| <= 1 && found ==> forall i | i in g :: wish[i];
      assert forall i | 0 <= i < |wish| :: Condemned(g, wish, i) <==> found && i in g;
    }
    assert forall i | 0 <= i < |wish| ::
      AnyCondemns(groups, wish, i) <==> exists a | 0 <= a < |groups| :: Condemned(groups[a], wish, i);
  }

  ghost predicate AnyCondemns(groups: seq<seq<nat>>, wish: seq<bool>, i: nat)
    requires forall a, x | 0 <= a < |groups| && x in groups[a] :: x < |wish|
  {
    exists a :: 0 <= a < |groups| && Condemned(groups[a], wish, i)
  }

  ghost predicate ChainWished(kinds: seq<Kind>, wish: seq<bool>, i: nat)
    requires |wish| == |kinds|
  {
    exists j :: 0 <= j < |kinds| && SameChain(kinds, i, j) && wish[j]
  }

  lemma GroupsInRange(kinds: seq<Kind>, groups: seq<seq<nat>>)
    requires Flat(groups) == RuleIndices(kinds, |kinds|)
    ensures forall a, x | 0 <= a < |groups| && x in groups[a] :: x < |kinds|
  {
    RuleIndicesAre(kinds, |kinds|);
    forall a, x | 0 <= a < |groups| && x in groups[a] ensures x < |kinds| {
      FlatMember(groups, x);
    }
  }

  /** A block is dropped exactly when some SecRule of its chain was wished away; so blocks that are not
      SecRules stay, and a chain goes as a whole. */
  lemma DropsAreChains(kinds: seq<Kind>, groups: seq<seq<nat>>, wish: seq<bool>, i: nat)
    requires Apart(kinds, groups) && Flat(groups) == RuleIndices(kinds, |kinds|) && |wish| == |kinds| && i < |kinds|
    requires forall x | 0 <= x < |wish| && wish[x] :: IsRule(kinds[x])
    requires forall a, x | 0 <= a < |groups| && x in groups[a] :: x < |wish|
    ensures wish[i] || AnyCondemns(groups, wish, i) <==> ChainWished(kinds, wish, i)
  {
    if wish[i] {
      assert SameChain(kinds, i, i);
    }
    if AnyCondemns(groups, wish, i) {
      var a :| 0 <= a < |groups| && Condemned(groups[a], wish, i);
      var j :| j in groups[a] && wish[j];
      InOneGroup(kinds, groups[a], i, j);
    }
    if ChainWished(kinds, wish, i) {
      var j :| 0 <= j < |kinds| && SameChain(kinds, i, j) && wish[j];
      GroupsAreChains(kinds, groups, i, j);
      var a :| 0 <= a < |groups| && i in groups[a] && j in groups[a];
      assert Condemned(groups[a], wish, i);
    }
  }

  // ----- A whole file -----

  /** The patterns the tool matches blocks with. */
  datatype Patterns = Patterns(directive: string -> bool, trim: string -> string, chains: string -> bool,
                               ruleId: string -> string)

  function KindOf(p: Patterns, block: string): Kind {
    var t := p.trim(block);
    if t == "" || "#" <= t then Skipped
    else if !("SecRule" <= t) then Other
    else if p.chains(block) then Chained else Single
  }

  /** Whether the options ask for the block to go. */
  predicate Wished(p: Patterns, ignore: set<string>, ignorePm: bool, block: string) {
    IsRule(KindOf(p, block)) && ((ignorePm && Contains(block, "@pmFromFile")) || p.ruleId(block) in ignore)
  }

  function Kinds(p: Patterns, blocks: seq<string>): seq<Kind> {
    seq(|blocks|, i requires 0 <= i < |blocks| => KindOf(p, blocks[i]))
  }

  /** The chain of block i has a member the options ask to go. */
  ghost predicate Dropped(p: Patterns, ignore: set<string>, ignorePm: bool, blocks: seq<string>, i: nat) {
    exists j | 0 <= j < |blocks| :: SameChain(Kinds(p, blocks), i, j) && Wished(p, ignore, ignorePm, blocks[j])
  }

  predicate SecRule(p: Patterns, block: string) { "SecRule" <= p.trim(block) }

  /** Blocks that a chain passes over. */
  predicate Comment(p: Patterns, block: string) { p.trim(block) == "" || p.trim(block)[0] == '#' }

  /** Block i is a SecRule whose chain reaches the SecRule j: every SecRule from i up to j has the chain
      action, and between them stand only comments and blanks. */
  predicate ChainReaches(p: Patterns, blocks: seq<string>, i: nat, j: nat) {
    && i <= j < |blocks| && SecRule(p, blocks[i]) && SecRule(p, blocks[j])
    && forall m | i <= m < j :: Comment(p, blocks[m]) || (SecRule(p, blocks[m]) && p.chains(blocks[m]))
  }

  predicate OneChain(p: Patterns, blocks: seq<string>, i: nat, j: nat) {
    ChainReaches(p, blocks, i, j) || ChainReaches(p, blocks, j, i)
  }

  predicate Ignored(p: Patterns, ignore: set<string>, ignorePm: bool, block: string) {
    p.ruleId(block) in ignore || (ignorePm && Contains(block, "@pmFromFile"))
  }

  lemma KindText(p: Patterns, block: string)
    ensures IsRule(KindOf(p, block)) <==> SecRule(p, block)
    ensures KindOf(p, block).Skipped? <==> Comment(p, block)
    ensures KindOf(p, block).Chained? <==> SecRule(p, block) && p.chains(block)
  {
    var t := p.trim(block);
    assert "SecRule" <= t ==> t[0] == "SecRule"[0] == 'S';
    assert "#" <= t <==> t != "" && t[0] == '#';
  }

  lemma LinkedText(p: Patterns, blocks: seq<string>, i: nat, j: nat)
    ensures Linked(Kinds(p, blocks), i, j) <==> ChainReaches(p, blocks, i, j)
  {
    forall m | 0 <= m < |blocks|
      ensures IsRule(Kinds(p, blocks)[m]) <==> SecRule(p, blocks[m])
      ensures Kinds(p, blocks)[m].Skipped? <==> Comment(p, blocks[m])
      ensures Kinds(p, blocks)[m].Chained? <==> SecRule(p, blocks[m]) && p.chains(blocks[m])
    {
      KindText(p, blocks[m]);
    }
  }

  /** In terms of the text: a block goes exactly when it is in a chain with a SecRule that has an ignored
      id or, on request, reads a phrase file. */
  lemma DroppedIff(p: Patterns, ignore: set<string>, ignorePm: bool, blocks: seq<string>, i: nat)
    requires i < |blocks|
    ensures Dropped(p, ignore, ignorePm, blocks, i) <==>
      exists j | 0 <= j < |blocks| ::
        OneChain(p, blocks, i, j) && Ignored(p, ignore, ignorePm, blocks[j])
  {
    forall a: nat, b: nat ensures Linked(Kinds(p, blocks), a, b) <==> ChainReaches(p, blocks, a, b) {
      LinkedText(p, blocks, a, b);
    }
    if j :| 0 <= j < |blocks| && SameChain(Kinds(p, blocks), i, j) && Wished(p, ignore, ignorePm, blocks[j]) {
      assert OneChain(p, blocks, i, j) && Ignored(p, ignore, ignorePm, blocks[j]);
    }
    if j :| 0 <= j < |blocks| && OneChain(p, blocks, i, j) && Ignored(p, ignore, ignorePm, blocks[j]) {
      KindText(p, blocks[j]);
      assert SameChain(Kinds(p, blocks), i, j) && Wished(p, ignore, ignorePm, blocks[j]);
    }
  }

  predicate NoneWished(p: Patterns, ignore: set<string>, ignorePm: bool, blocks: seq<string>) {
    forall i | 0 <= i < |blocks| :: !Wished(p, ignore, ignorePm, blocks[i])
  }

  function Remaining(blocks: seq<string>, drop: seq<bool>): seq<string>
    requires |drop| == |blocks|
  {
    if blocks == [] then []
    else Remaining(blocks[..|blocks| - 1], drop[..|blocks| - 1])
         + if drop[|blocks| - 1] then [] else [blocks[|blocks| - 1]]
  }

  /** What remains is what is not dropped, block by block and in order. */
  lemma {:induction false} RemainingAppend(a: seq<string>, b: seq<string>, da: seq<bool>, db: seq<bool>)
    requires |da| == |a| && |db| == |b|
    ensures Remaining(a + b, da + db) == Remaining(a, da) + Remaining(b, db)
  {
    if b == [] {
      assert a + b == a && da + db == da;
    } else {
      var n := |b| - 1;
      assert (a + b)[..|a + b| - 1] == a + b[..n] && (da + db)[..|a + b| - 1] == da + db[..n];
      RemainingAppend(a, b[..n], da, db[..n]);
    }
  }

  lemma RemainingOne(block: string, drop: bool)
    ensures Remaining([block], [drop]) == if drop then [] else [block]
  {
    assert [block][..0] == [] && [drop][..0] == [];
  }

  lemma {:induction false} NoneDropped(blocks: seq<string>, drop: seq<bool>)
    requires |drop| == |blocks| && forall i | 0 <= i < |drop| :: !drop[i]
    ensures Remaining(blocks, drop) == blocks
  {
    if blocks != [] { NoneDropped(blocks[..|blocks| - 1], drop[..|blocks| - 1]); }
  }

  method Filter(blocks: seq<string>, drop: seq<bool>) returns (kept: seq<string>)
    requires |drop| == |blocks|
    ensures kept == Remaining(blocks, drop)
  {
    kept := [];
    for i := 0 to |blocks|
      invariant kept == Remaining(blocks[..i], drop[..i])
    {
      assert blocks[..i + 1][..i] == blocks[..i] && drop[..i + 1][..i] == drop[..i];
      if !drop[i] { kept := kept + [blocks[i]]; }
    }
    assert blocks[..|blocks|] == blocks && drop[..|blocks|] == drop;
  }

  /** Which blocks go: exactly those whose chain has a member the options ask to go. */
  method DecideDrops(p: Patterns, ignore: set<string>, ignorePm: bool, blocks: seq<string>) returns (drop: seq<bool>)
    ensures |drop| == |blocks|
    ensures forall i | 0 <= i < |blocks| :: drop[i] <==> Dropped(p, ignore, ignorePm, blocks, i)
  {
    var kinds := Kinds(p, blocks);
    var wish := seq(|blocks|, i requires 0 <= i < |blocks| => Wished(p, ignore, ignorePm, blocks[i]));
    var groups := ChainSecRuleGroups(kinds);
    GroupsInRange(kinds, groups);
    drop := MarkDrops(groups, wish);
    forall i | 0 <= i < |blocks| ensures drop[i] <==> Dropped(p, ignore, ignorePm, blocks, i) {
      DropsAreChains(kinds, groups, wish, i);
      WishedChain(p, ignore, ignorePm, blocks, wish, i);
    }
  }

  lemma WishedChain(p: Patterns, ignore: set<string>, ignorePm: bool, blocks: seq<string>, wish: seq<bool>, i: nat)
    requires |wish| == |blocks| && i < |blocks|
    requires forall j | 0 <= j < |blocks| :: wish[j] == Wished(p, ignore, ignorePm, blocks[j])
    ensures ChainWished(Kinds(p, blocks), wish, i) <==> Dropped(p, ignore, ignorePm, blocks, i)
  {
  }

  /** processFileContent on text that has been read and trimmed at its end. Out is the blocks that stay,
      joined; drop says which go. */
  method ProcessContent(p: Patterns, content: string, ignore: set<string>, ignorePm: bool)
    returns (out: string, blocks: seq<string>, drop: seq<bool>)
    ensures blocks == Blocks(p.directive, Split(content)) && |drop| == |blocks|
    ensures forall i | 0 <= i < |blocks| :: drop[i] <==> Dropped(p, ignore, ignorePm, blocks, i)
    ensures out ==
      if Contains(content, "SecRule") || Contains(content, "SecAction") then Join(Remaining(blocks, drop)) else ""
    ensures NoneWished(p, ignore, ignorePm, blocks) && (Contains(content, "SecRule") || Contains(content, "SecAction"))
      ==> out == content
  {
    blocks := SplitIntoRules(p.directive, content);
    drop := DecideDrops(p, ignore, ignorePm, blocks);
    var kept := Filter(blocks, drop);
    if NoneWished(p, ignore, ignorePm, blocks) { NoneDropped(blocks, drop); }
    out := if Contains(content, "SecRule") || Contains(content, "SecAction") then Join(kept) else "";
  }
}
