/** The versioned rule cache: incremental accounting and the two prunings. */
module RuleCache {
  import opened Strings
  import opened MapSums

  datatype Entry = Entry(uuid: string, timestamp: int, rules: string, files: map<string, string>)

  /** Revisions of one instance, oldest first. */
  datatype Revisions = Revisions(latest: string, entries: seq<Entry>)

  ghost function FileSize(name: string, content: string): nat { |name| + |content| }

  ghost function Size(e: Entry): nat { |e.rules| + Sum(e.files, FileSize) }

  ghost function Sizes(entries: seq<Entry>): nat {
    if entries == [] then 0 else Sizes(entries[..|entries| - 1]) + Size(entries[|entries| - 1])
  }

  ghost function RevisionsSize(instance: string, r: Revisions): nat { Sizes(r.entries) }
  ghost function RevisionsCount(instance: string, r: Revisions): nat { |r.entries| }

  /** entrySize, whatever the map order. */
  method EntrySize(e: Entry) returns (size: nat)
    ensures size == Size(e)
  {
    size := |e.rules|;
    var todo := e.files;
    while todo.Keys != {}
      invariant forall k | k in todo :: k in e.files
      invariant size + Sum(todo, FileSize) == Size(e)
      decreases |todo.Keys|
    {
      var k :| k in todo;
      SumPick(todo, FileSize, k);
      Shrinks(todo, k);
      size := size + |k| + |todo[k]|;
      todo := todo - {k};
    }
  }

  /** An entry is as big as its rules and, file by file, its names and contents. */
  lemma SizeOf(e: Entry, name: string)
    ensures e.files == map[] ==> Size(e) == |e.rules|
    ensures name in e.files ==> Size(e) == Size(e.(files := e.files - {name})) + |name| + |e.files[name]|
  {
    if name in e.files { SumPick(e.files, FileSize, name); }
  }

  lemma {:induction false} SizesAppend(a: seq<Entry>, b: seq<Entry>)
    ensures Sizes(a + b) == Sizes(a) + Sizes(b)
  {
    if b == [] {
      assert a + b == a;
    } else {
      var n := |b| - 1;
      assert (a + b)[..|a + b| - 1] == a + b[..n];
      SizesAppend(a, b[..n]);
    }
  }

  // ----- The latest revision -----

  ghost predicate DistinctIds(entries: seq<Entry>) {
    forall i, j | 0 <= i < j < |entries| :: entries[i].uuid != entries[j].uuid
  }

  /** UUIDs are distinct and the newest revision is the latest. */
  ghost predicate Wellformed(r: Revisions) {
    r.entries != [] && r.entries[|r.entries| - 1].uuid == r.latest && DistinctIds(r.entries)
  }

  function Newest(r: Revisions): Entry
    requires r.entries != []
  {
    r.entries[|r.entries| - 1]
  }

  // ----- What pruning keeps -----

  /** The revisions of an instance that are young enough, and the latest. */
  function Young(entries: seq<Entry>, latest: string, now: int, maxAge: int): seq<Entry> {
    if entries == [] then []
    else
      var e := entries[|entries| - 1];
      Young(entries[..|entries| - 1], latest, now, maxAge)
      + if e.uuid == latest || now - e.timestamp <= maxAge then [e] else []
  }

  /** Pruned keeps some of the entries, in their order. */
  ghost predicate Subsequence(kept: seq<Entry>, entries: seq<Entry>)
    decreases |entries|
  {
    if entries == [] then kept == []
    else
      var n := |entries| - 1;
      Subsequence(kept, entries[..n])
      || (kept != [] && kept[|kept| - 1] == entries[n] && Subsequence(kept[..|kept| - 1], entries[..n]))
  }

  lemma {:induction false} YoungIsSubsequence(entries: seq<Entry>, latest: string, now: int, maxAge: int)
    ensures Subsequence(Young(entries, latest, now, maxAge), entries)
  {
    if entries != [] {
      var n := |entries| - 1;
      var front, all := Young(entries[..n], latest, now, maxAge), Young(entries, latest, now, maxAge);
      YoungIsSubsequence(entries[..n], latest, now, maxAge);
      if all != front {
        assert all == front + [entries[n]];
        assert all[..|all| - 1] == front;
      }
    }
  }

  lemma {:induction false} YoungMembers(entries: seq<Entry>, latest: string, now: int, maxAge: int)
    ensures forall e :: e in Young(entries, latest, now, maxAge) <==>
      e in entries && (e.uuid == latest || now - e.timestamp <= maxAge)
  {
    if entries != [] {
      var n := |entries| - 1;
      YoungMembers(entries[..n], latest, now, maxAge);
      assert entries == entries[..n] + [entries[n]];
    }
  }

  lemma {:induction false} YoungDistinct(entries: seq<Entry>, latest: string, now: int, maxAge: int)
    requires DistinctIds(entries)
    ensures DistinctIds(Young(entries, latest, now, maxAge))
  {
    if entries != [] {
      var n := |entries| - 1;
      var front := Young(entries[..n], latest, now, maxAge);
      YoungDistinct(entries[..n], latest, now, maxAge);
      YoungMembers(entries[..n], latest, now, maxAge);
      forall i | 0 <= i < |front| ensures front[i].uuid != entries[n].uuid {
        assert front[i] in front;
        var k :| 0 <= k < n && entries[..n][k] == front[i];
        assert entries[k].uuid != entries[n].uuid;
      }
      DistinctAppend(front, entries[n]);
      assert front + [] == front;
    }
  }

  lemma DistinctAppend(front: seq<Entry>, e: Entry)
    requires DistinctIds(front) && forall i | 0 <= i < |front| :: front[i].uuid != e.uuid
    ensures DistinctIds(front + [e])
  {
  }

  /** Pruning by age keeps the instance well formed and its latest revision where it is. */
  lemma YoungKeepsLatest(r: Revisions, now: int, maxAge: int)
    requires Wellformed(r)
    ensures var y := Revisions(r.latest, Young(r.entries, r.latest, now, maxAge));
      Wellformed(y) && Newest(y) == Newest(r)
  {
    YoungDistinct(r.entries, r.latest, now, maxAge);
  }

  /** Dropping the oldest n revisions keeps the instance well formed and its latest revision. */
  lemma DropOldest(r: Revisions, n: nat)
    requires Wellformed(r) && n < |r.entries|
    ensures var d := Revisions(r.latest, r.entries[n..]); Wellformed(d) && Newest(d) == Newest(r)
    ensures Sizes(r.entries) == Sizes(r.entries[..n]) + Sizes(r.entries[n..])
  {
    assert r.entries == r.entries[..n] + r.entries[n..];
    SizesAppend(r.entries[..n], r.entries[n..]);
  }

  // ----- Totals -----

  ghost function TotalSize(m: map<string, Revisions>): nat { Sum(m, RevisionsSize) }
  ghost function TotalEntries(m: map<string, Revisions>): nat { Sum(m, RevisionsCount) }

  lemma TotalsPut(m: map<string, Revisions>, k: string, r: Revisions)
    ensures TotalSize(m[k := r]) == TotalSize(m) + Sizes(r.entries) - if k in m then Sizes(m[k].entries) else 0
    ensures TotalEntries(m[k := r]) == TotalEntries(m) + |r.entries| - if k in m then |m[k].entries| else 0
  {
    SumPut(m, RevisionsSize, k, r);
    SumPut(m, RevisionsCount, k, r);
  }

  lemma TotalsRemove(m: map<string, Revisions>, k: string)
    requires k in m
    ensures TotalSize(m - {k}) == TotalSize(m) - Sizes(m[k].entries)
    ensures TotalEntries(m - {k}) == TotalEntries(m) - |m[k].entries|
  {
    SumRemove(m, RevisionsSize, k);
    SumRemove(m, RevisionsCount, k);
  }

  ghost predicate AllWellformed(m: map<string, Revisions>) { forall k | k in m :: Wellformed(m[k]) }

  /** latestEntryLocked finds the newest revision. */
  method Latest(r: Revisions) returns (found: Option<Entry>)
    ensures Wellformed(r) ==> found == Some(Newest(r))
  {
    for i := 0 to |r.entries|
      invariant forall j | 0 <= j < i :: r.entries[j].uuid != r.latest
    {
      if r.entries[i].uuid == r.latest { return Some(r.entries[i]); }
    }
    return None;
  }

  // ----- Pruning one instance -----

  /** The inner loop of Prune: what is kept, and the size and number of what is not. */
  method PruneOld(r: Revisions, now: int, maxAge: int) returns (kept: seq<Entry>, size: nat, count: nat)
    ensures kept == Young(r.entries, r.latest, now, maxAge)
    ensures size + Sizes(kept) == Sizes(r.entries) && count + |kept| == |r.entries|
  {
    kept, size, count := [], 0, 0;
    for i := 0 to |r.entries|
      invariant kept == Young(r.entries[..i], r.latest, now, maxAge)
      invariant size + Sizes(kept) == Sizes(r.entries[..i]) && count + |kept| == i
    {
      var e := r.entries[i];
      assert r.entries[..i + 1][..i] == r.entries[..i];
      if e.uuid == r.latest || now - e.timestamp <= maxAge {
        assert (kept + [e])[..|kept|] == kept;
        kept := kept + [e];
      } else {
        var n := EntrySize(e);
        size, count := size + n, count + 1;
      }
    }
    assert r.entries[..|r.entries|] == r.entries;
  }

  lemma OnlyNewestIsLatest(r: Revisions, i: nat)
    requires Wellformed(r) && i < |r.entries|
    ensures r.entries[i].uuid == r.latest <==> i == |r.entries| - 1
  {
  }

  lemma SizesNext(entries: seq<Entry>, i: nat)
    requires i < |entries|
    ensures Sizes(entries[..i + 1]) == Sizes(entries[..i]) + Size(entries[i])
  {
    assert entries[..i + 1][..i] == entries[..i];
  }

  lemma SliceNext(entries: seq<Entry>, n: nat, i: nat)
    requires n <= i < |entries|
    ensures entries[n..i] + [entries[i]] == entries[n..i + 1] && entries[i + 1..i + 1] == []
  {
  }

  /** After i revisions: count of them went, the rest of them stay, and none went once the cache fit. */
  ghost predicate Cut(r: Revisions, total: int, maxSize: int, i: nat, kept: seq<Entry>, size: nat, count: nat) {
    && count <= i <= |r.entries| && count < |r.entries| && kept == r.entries[count..i]
    && size == Sizes(r.entries[..count])
    && (total - size > maxSize ==> count == if i == |r.entries| then i - 1 else i)
    && (count > 0 ==> total - Sizes(r.entries[..count - 1]) > maxSize)
  }

  lemma CutKeeps(r: Revisions, total: int, maxSize: int, i: nat, kept: seq<Entry>, size: nat, count: nat)
    requires i < |r.entries| && Cut(r, total, maxSize, i, kept, size, count)
    requires total - size <= maxSize || i == |r.entries| - 1
    ensures Cut(r, total, maxSize, i + 1, kept + [r.entries[i]], size, count)
  {
    SliceNext(r.entries, count, i);
  }

  lemma CutDrops(r: Revisions, total: int, maxSize: int, i: nat, kept: seq<Entry>, size: nat, count: nat)
    requires i < |r.entries| - 1 && Cut(r, total, maxSize, i, kept, size, count) && total - size > maxSize
    ensures Cut(r, total, maxSize, i + 1, kept, size + Size(r.entries[i]), count + 1)
  {
    SizesNext(r.entries, i);
  }

  /** The inner loop of PruneBySize: the oldest revisions go while the cache is too big, never the
      latest, and nothing goes once it fits. */
  method PruneBig(r: Revisions, total: int, maxSize: int) returns (kept: seq<Entry>, size: nat, count: nat)
    requires Wellformed(r)
    ensures count < |r.entries| && kept == r.entries[count..]
    ensures size == Sizes(r.entries[..count])
    ensures total - size <= maxSize || count == |r.entries| - 1
    ensures count > 0 ==> total - Sizes(r.entries[..count - 1]) > maxSize
  {
    kept, size, count := [], 0, 0;
    for i := 0 to |r.entries|
      invariant Cut(r, total, maxSize, i, kept, size, count)
    {
      var e := r.entries[i];
      OnlyNewestIsLatest(r, i);
      if e.uuid == r.latest || total - size <= maxSize {
        CutKeeps(r, total, maxSize, i, kept, size, count);
        kept := kept + [e];
      } else {
        CutDrops(r, total, maxSize, i, kept, size, count);
        var n := EntrySize(e);
        size, count := size + n, count + 1;
      }
    }
    assert r.entries[count..|r.entries|] == r.entries[count..];
  }

  // ----- The cache -----

  /** What a pruning may do: instances stay, each keeps its latest revision and loses some others. */
  ghost predicate Pruned(was: map<string, Revisions>, now: map<string, Revisions>) {
    && now.Keys == was.Keys
    && forall k | k in was ::
      && now[k].latest == was[k].latest && Subsequence(now[k].entries, was[k].entries)
      && Wellformed(was[k]) && Wellformed(now[k]) && Newest(now[k]) == Newest(was[k])
  }

  /** Prune half way: the instances in todo are still to come. */
  ghost predicate AgePruned(was: map<string, Revisions>, cur: map<string, Revisions>, todo: set<string>, now: int,
                            maxAge: int)
  {
    && cur.Keys == was.Keys
    && forall k | k in was ::
      cur[k] == if k in todo then was[k]
                else Revisions(was[k].latest, Young(was[k].entries, was[k].latest, now, maxAge))
  }

  lemma AgePrunedStep(was: map<string, Revisions>, cur: map<string, Revisions>, todo: set<string>,
                      now: int, maxAge: int, k: string)
    requires AgePruned(was, cur, todo, now, maxAge) && k in todo && k in was
    ensures cur[k] == was[k]
    ensures AgePruned(was, cur[k := Revisions(cur[k].latest, Young(cur[k].entries, cur[k].latest, now, maxAge))],
                      todo - {k}, now, maxAge)
  {
  }

  lemma AgePrunedAll(was: map<string, Revisions>, cur: map<string, Revisions>, now: int, maxAge: int)
    requires AllWellformed(was) && AgePruned(was, cur, {}, now, maxAge)
    ensures AllWellformed(cur) && Pruned(was, cur)
  {
    forall k | k in was
      ensures Wellformed(cur[k]) && Subsequence(cur[k].entries, was[k].entries) && Newest(cur[k]) == Newest(was[k])
    {
      assert Wellformed(was[k]);
      YoungIsSubsequence(was[k].entries, was[k].latest, now, maxAge);
      YoungKeepsLatest(was[k], now, maxAge);
    }
  }

  /** PruneBySize half way: instances not in todo lost their oldest revisions. */
  ghost predicate SizePruned(was: map<string, Revisions>, cur: map<string, Revisions>, todo: set<string>) {
    && cur.Keys == was.Keys
    && forall k | k in was :: if k in todo then cur[k] == was[k] else LostOldest(was[k], cur[k])
  }

  ghost predicate LostOldest(was: Revisions, cur: Revisions) {
    exists n :: 0 <= n < |was.entries| && cur == Revisions(was.latest, was.entries[n..])
  }

  lemma SizePrunedStep(was: map<string, Revisions>, cur: map<string, Revisions>, todo: set<string>, k: string, n: nat)
    requires SizePruned(was, cur, todo) && k in todo && k in was && n < |was[k].entries|
    ensures cur[k] == was[k]
    ensures SizePruned(was, cur[k := Revisions(cur[k].latest, cur[k].entries[n..])], todo - {k})
  {
    assert LostOldest(was[k], Revisions(was[k].latest, was[k].entries[n..]));
  }

  /** Everything done so far is down to its latest revision. */
  ghost predicate Exhausted(cur: map<string, Revisions>, todo: set<string>) {
    forall k | k in cur && k !in todo :: |cur[k].entries| == 1
  }

  lemma ExhaustedStep(cur: map<string, Revisions>, todo: set<string>, k: string, r: Revisions)
    requires Exhausted(cur, todo) && |r.entries| == 1
    ensures Exhausted(cur[k := r], todo - {k})
  {
  }

  lemma SizePrunedLost(was: map<string, Revisions>, cur: map<string, Revisions>, todo: set<string>)
    requires AllWellformed(was) && SizePruned(was, cur, todo)
    ensures forall k | k in was :: LostOldest(was[k], cur[k])
  {
    forall k | k in was ensures LostOldest(was[k], cur[k]) {
      if k in todo { assert Wellformed(was[k]) && was[k].entries[0..] == was[k].entries; }
    }
  }

  lemma {:induction false} SuffixIsSubsequence(entries: seq<Entry>, n: nat)
    requires n <= |entries|
    ensures Subsequence(entries[n..], entries)
  {
    if n < |entries| {
      var m := |entries| - 1;
      SuffixIsSubsequence(entries[..m], n);
      assert entries[n..][..m - n] == entries[..m][n..];
    } else {
      EmptyIsSubsequence(entries);
    }
  }

  lemma {:induction false} EmptyIsSubsequence(entries: seq<Entry>)
    ensures Subsequence([], entries)
  {
    if entries != [] { EmptyIsSubsequence(entries[..|entries| - 1]); }
  }

  lemma SizePrunedAll(was: map<string, Revisions>, cur: map<string, Revisions>, todo: set<string>)
    requires AllWellformed(was) && SizePruned(was, cur, todo)
    ensures AllWellformed(cur) && Pruned(was, cur)
  {
    forall k | k in was
      ensures Wellformed(cur[k]) && cur[k].latest == was[k].latest && Subsequence(cur[k].entries, was[k].entries)
        && Newest(cur[k]) == Newest(was[k])
    {
      assert Wellformed(was[k]);
      var n: nat :| n < |was[k].entries| && (cur[k] == Revisions(was[k].latest, was[k].entries[n..]));
      DropOldest(was[k], n);
      SuffixIsSubsequence(was[k].entries, n);
    }
  }

  class RuleSetCache {
    var entries: map<string, Revisions>
    var totalSize: int
    var totalEntries: int

    /** The totals are the true sums, and every instance has its latest revision last. */
    ghost predicate Valid()
      reads this
    {
      AllWellformed(entries) && totalSize == TotalSize(entries) && totalEntries == TotalEntries(entries)
    }

    constructor ()
      ensures Valid() && entries == map[]
    {
      entries, totalSize, totalEntries := map[], 0, 0;
    }

    method Get(instance: string) returns (found: Option<Entry>)
      requires Valid()
      ensures found == if instance in entries then Some(Newest(entries[instance])) else None
    {
      if instance !in entries { return None; }
      found := Latest(entries[instance]);
    }

    /** Whether storing the content again would change what Get returns. */
    method EntryMatches(instance: string, rules: string, files: map<string, string>) returns (same: bool)
      requires Valid()
      ensures same <==>
        instance in entries && Newest(entries[instance]).rules == rules && Newest(entries[instance]).files == files
    {
      var found := Get(instance);
      if found.None? || found.value.rules != rules { return false; }
      same := DataFilesEqual(found.value.files, files);
    }

    /** A new revision under an unused UUID becomes the latest. */
    method Put(instance: string, rules: string, files: map<string, string>, uuid: string, now: int)
      requires Valid() && (instance in entries ==> forall e | e in entries[instance].entries :: e.uuid != uuid)
      modifies this
      ensures Valid()
      ensures var before := if instance in old(entries) then old(entries)[instance].entries else [];
        entries == old(entries)[instance := Revisions(uuid, before + [Entry(uuid, now, rules, files)])]
    {
      var e := Entry(uuid, now, rules, files);
      var size := EntrySize(e);
      var before := if instance in entries then entries[instance].entries else [];
      var r := Revisions(uuid, before + [e]);
      PutGrows(before, e);
      TotalsPut(entries, instance, r);
      entries := entries[instance := r];
      totalSize := totalSize + size;
      totalEntries := totalEntries + 1;
    }

    method Delete(instance: string) returns (existed: bool)
      requires Valid()
      modifies this
      ensures Valid() && existed == (instance in old(entries)) && entries == old(entries) - {instance}
    {
      if instance !in entries { return false; }
      var size, count := MeasureAll(entries[instance].entries);
      TotalsRemove(entries, instance);
      totalSize, totalEntries := totalSize - size, totalEntries - count;
      entries := entries - {instance};
      return true;
    }

    /** Prune: in any map order, every instance keeps its latest and its young revisions. */
    method Prune(now: int, maxAge: int) returns (pruned: nat)
      requires Valid()
      modifies this
      ensures Valid() && Pruned(old(entries), entries)
      ensures forall k | k in entries ::
        entries[k].entries == Young(old(entries)[k].entries, entries[k].latest, now, maxAge)
      ensures pruned == old(totalEntries) - totalEntries
    {
      pruned := 0;
      ghost var was := entries;
      var todo := entries.Keys;
      while todo != {}
        invariant todo <= was.Keys && AgePruned(was, entries, todo, now, maxAge)
        invariant totalSize == TotalSize(entries) && totalEntries == TotalEntries(entries)
        invariant pruned == old(totalEntries) - totalEntries
        decreases |todo|
      {
        var k :| k in todo;
        AgePrunedStep(was, entries, todo, now, maxAge, k);
        var kept, size, count := PruneOld(entries[k], now, maxAge);
        todo := todo - {k};
        Keep(k, kept, size, count);
        pruned := pruned + count;
      }
      AgePrunedAll(was, entries, now, maxAge);
    }

    /** PruneBySize: in any map order, only the oldest revisions of an instance go, never its latest;
        afterwards the cache fits or nothing more can go. */
    method PruneBySize(maxSize: int) returns (pruned: nat)
      requires Valid()
      modifies this
      ensures Valid() && Pruned(old(entries), entries)
      ensures forall k | k in entries :: LostOldest(old(entries)[k], entries[k])
      ensures totalSize <= maxSize || forall k | k in entries :: |entries[k].entries| == 1
      ensures old(totalSize) <= maxSize ==> entries == old(entries)
      ensures pruned == old(totalEntries) - totalEntries
    {
      pruned := 0;
      ghost var was := entries;
      var todo := entries.Keys;
      while todo != {} && totalSize > maxSize
        invariant todo <= was.Keys && SizePruned(was, entries, todo)
        invariant totalSize == TotalSize(entries) && totalEntries == TotalEntries(entries)
        invariant totalSize <= maxSize || Exhausted(entries, todo)
        invariant old(totalSize) <= maxSize ==> entries == was
        invariant pruned == old(totalEntries) - totalEntries
        decreases |todo|
      {
        var k :| k in todo;
        ghost var before := entries;
        assert entries[k] == was[k] && Wellformed(was[k]);
        var count := PruneInstance(k, maxSize);
        SizePrunedStep(was, before, todo, k, count);
        if totalSize > maxSize { ExhaustedStep(before, todo, k, entries[k]); }
        todo := todo - {k};
        pruned := pruned + count;
      }
      SizePrunedAll(was, entries, todo);
      SizePrunedLost(was, entries, todo);
    }

    method PruneInstance(k: string, maxSize: int) returns (count: nat)
      requires k in entries && Wellformed(entries[k])
      requires totalSize == TotalSize(entries) && totalEntries == TotalEntries(entries)
      modifies this
      ensures count < |old(entries)[k].entries|
      ensures entries == old(entries)[k := Revisions(old(entries)[k].latest, old(entries)[k].entries[count..])]
      ensures totalSize == TotalSize(entries) && totalEntries == TotalEntries(entries) == old(totalEntries) - count
      ensures totalSize <= maxSize || count == |old(entries)[k].entries| - 1
    {
      var kept, size;
      kept, size, count := PruneBig(entries[k], totalSize, maxSize);
      DropOldest(entries[k], count);
      Keep(k, kept, size, count);
    }

    /** Replaces the revisions of one instance and takes what was removed off the totals. */
    method Keep(k: string, kept: seq<Entry>, size: nat, count: nat)
      requires k in entries && size + Sizes(kept) == Sizes(entries[k].entries) && count + |kept| == |entries[k].entries|
      requires totalSize == TotalSize(entries) && totalEntries == TotalEntries(entries)
      modifies this
      ensures entries == old(entries)[k := Revisions(old(entries)[k].latest, kept)]
      ensures totalSize == TotalSize(entries) == old(totalSize) - size
      ensures totalEntries == TotalEntries(entries) == old(totalEntries) - count
    {
      var r := Revisions(entries[k].latest, kept);
      TotalsPut(entries, k, r);
      entries := entries[k := r];
      totalSize, totalEntries := totalSize - size, totalEntries - count;
    }
  }

  method DataFilesEqual(a: map<string, string>, b: map<string, string>) returns (same: bool)
    ensures same == (a == b)
  {
    if |a| != |b| { return false; }
    var todo := a.Keys;
    while todo != {}
      invariant todo <= a.Keys && forall k | k in a && k !in todo :: k in b && a[k] == b[k]
      decreases |todo|
    {
      var k :| k in todo;
      todo := todo - {k};
      if k !in b || a[k] != b[k] { return false; }
    }
    SameKeys(a, b);
    return true;
  }

  lemma SameKeys(a: map<string, string>, b: map<string, string>)
    requires |a| == |b| && a.Keys <= b.Keys
    ensures a.Keys == b.Keys
  {
    assert |a.Keys| == |a| && |b.Keys| == |b|;
    assert b.Keys == a.Keys + (b.Keys - a.Keys);
    assert |b.Keys| == |a.Keys| + |b.Keys - a.Keys|;
    assert b.Keys - a.Keys == {};
  }

  lemma PutGrows(before: seq<Entry>, e: Entry)
    ensures Sizes(before + [e]) == Sizes(before) + Size(e)
  {
    assert (before + [e])[..|before|] == before;
  }

  method MeasureAll(entries: seq<Entry>) returns (size: nat, count: nat)
    ensures size == Sizes(entries) && count == |entries|
  {
    size, count := 0, 0;
    for i := 0 to |entries|
      invariant size == Sizes(entries[..i]) && count == i
    {
      assert entries[..i + 1][..i] == entries[..i];
      var n := EntrySize(entries[i]);
      size, count := size + n, count + 1;
    }
    assert entries[..|entries|] == entries;
  }
}
