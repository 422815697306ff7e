/** The content hash of a RuleSet: a digest of its rules and its data files in name order. */
module ContentHash {
  import opened Sorting

  datatype Content = Content(rules: string, files: map<string, string>)

  datatype File = File(name: string, content: string)

  /** The JSON document that is hashed. */
  datatype ContentDoc = ContentDoc(rules: string, files: seq<File>)

  ghost predicate Lists(keys: set<string>, names: seq<string>) {
    && (forall i, j | 0 <= i < j < |names| :: names[i] != names[j])
    && keys == set i | 0 <= i < |names| :: names[i]
  }

  /** The names of a map in sorted order. */
  ghost function Names(keys: set<string>): (names: seq<string>)
    ensures Lists(keys, names)
  {
    if keys == {} then [] else
      var k :| k in keys;
      var rest := Names(keys - {k});
      ListsInsert(keys, k, rest);
      Insert(StringLe, k, rest)
  }

  lemma ListsMultiset(keys: set<string>, names: seq<string>)
    requires Lists(keys, names)
    ensures multiset(names) == multiset(keys)
  {
    forall x ensures multiset(names)[x] == multiset(keys)[x] {
      CountOnce(names, x);
      assert x in names <==> x in keys;
    }
  }

  lemma {:induction false} CountOnce(names: seq<string>, x: string)
    requires forall i, j | 0 <= i < j < |names| :: names[i] != names[j]
    ensures multiset(names)[x] == if x in names then 1 else 0
  {
    if names != [] {
      assert names == [names[0]] + names[1..];
      CountOnce(names[1..], x);
    }
  }

  lemma MultisetLists(keys: set<string>, names: seq<string>)
    requires multiset(names) == multiset(keys)
    ensures Lists(keys, names)
  {
    forall i, j | 0 <= i < j < |names| ensures names[i] != names[j] {
      var x := names[i];
      assert names == names[..i] + [x] + names[i + 1..];
      assert names[i + 1..][j - i - 1] == names[j];
      assert multiset(names)[x] == multiset(names[..i])[x] + 1 + multiset(names[i + 1..])[x];
      assert multiset(keys)[x] <= 1;
      assert names[j] in multiset(names[i + 1..]);
    }
    forall x ensures x in keys <==> x in names {
      assert x in names <==> x in multiset(names);
    }
  }

  lemma ListsInsert(keys: set<string>, k: string, rest: seq<string>)
    requires k in keys && Lists(keys - {k}, rest)
    ensures Lists(keys, Insert(StringLe, k, rest))
  {
    ListsMultiset(keys - {k}, rest);
    assert multiset(keys) == multiset{k} + multiset(keys - {k});
    MultisetLists(keys, Insert(StringLe, k, rest));
  }

  lemma {:induction false} NamesSorted(keys: set<string>)
    ensures Sorted(StringLe, Names(keys))
    decreases keys
  {
    StringOrder();
    if keys != {} {
      forall k | k in keys ensures Sorted(StringLe, Insert(StringLe, k, Names(keys - {k}))) {
        NamesSorted(keys - {k});
        InsertSorted(StringLe, k, Names(keys - {k}));
      }
    }
  }

  /** Sorting any listing of a map's names gives the same sequence. */
  lemma SortedListing(keys: set<string>, listing: seq<string>)
    requires Lists(keys, listing)
    ensures Sort(StringLe, listing) == Names(keys)
  {
    StringOrder();
    SortSorted(StringLe, listing);
    NamesSorted(keys);
    ListsMultiset(keys, listing);
    ListsMultiset(keys, Names(keys));
    SortedUnique(StringLe, Sort(StringLe, listing), Names(keys));
  }

  ghost function DocOf(content: Content): ContentDoc {
    var names := Names(content.files.Keys);
    ContentDoc(content.rules, seq(|names|, i requires 0 <= i < |names| => File(names[i], content.files[names[i]])))
  }

  /** Different contents have different documents. */
  lemma DocInjective(a: Content, b: Content)
    requires DocOf(a) == DocOf(b)
    ensures a == b
  {
    var m, n := Names(a.files.Keys), Names(b.files.Keys);
    assert |m| == |n|;
    forall i | 0 <= i < |m| ensures m[i] == n[i] && a.files[m[i]] == b.files[n[i]] {
      assert DocOf(a).files[i] == DocOf(b).files[i];
    }
    assert m == n;
    assert a.files.Keys == b.files.Keys;
  }

  /** RuleSetContentHash: whatever order the map is walked in, the hash is the digest of the document. */
  method RuleSetContentHash(digest: ContentDoc -> string, content: Content) returns (hash: string)
    ensures hash == digest(DocOf(content))
  {
    var names := CollectNames(content.files);
    SortedListing(content.files.Keys, names);
    names := Sort(StringLe, names);
    assert forall i | 0 <= i < |names| :: names[i] in content.files;
    var files := CollectFiles(content.files, names);
    assert files == DocOf(content).files;
    hash := digest(ContentDoc(content.rules, files));
  }

  method CollectFiles(all: map<string, string>, names: seq<string>) returns (files: seq<File>)
    requires forall i | 0 <= i < |names| :: names[i] in all
    ensures |files| == |names| && forall i | 0 <= i < |names| :: files[i] == File(names[i], all[names[i]])
  {
    files := [];
    for i := 0 to |names|
      invariant |files| == i
      invariant forall j | 0 <= j < i :: files[j] == File(names[j], all[names[j]])
    {
      files := files + [File(names[i], all[names[i]])];
    }
  }

  method CollectNames(files: map<string, string>) returns (names: seq<string>)
    ensures Lists(files.Keys, names)
  {
    names := [];
    var todo := files.Keys;
    while todo != {}
      invariant todo <= files.Keys && Lists(files.Keys - todo, names)
      decreases |todo|
    {
      var k :| k in todo;
      ListsAppend(files.Keys - todo, names, k);
      todo := todo - {k};
      names := names + [k];
      assert files.Keys - todo == (files.Keys - (todo + {k})) + {k};
    }
    assert files.Keys - todo == files.Keys;
  }

  lemma ListsAppend(keys: set<string>, names: seq<string>, k: string)
    requires Lists(keys, names) && k !in keys
    ensures Lists(keys + {k}, names + [k])
  {
    var all := names + [k];
    assert forall i | 0 <= i < |names| :: names[i] in keys && all[i] == names[i];
    assert all[|names|] == k;
    forall x ensures x in keys + {k} <==> x in (set i | 0 <= i < |all| :: all[i]) {
      if x in keys {
        var i :| 0 <= i < |names| && names[i] == x;
        assert all[i] == x;
      }
    }
  }
}
