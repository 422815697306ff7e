/** Assembling the content of a RuleSet from its resolved inputs. */
module Assembly {
  import opened Sets
  import opened ContentHash
  import opened DoubleCollect

  /** Checks on rule text and file names that are not modelled further: the io/fs path rule, the
      @pmFromFile references, and whether a text is blank. */
  datatype Checks = Checks(validPath: string -> bool, references: (string, map<string, string>) -> bool,
                           blank: string -> bool)

  const MAX_FILE_NAME := 253

  /** Files the plugin serves itself, and its include aliases. */
  const EMBEDDED := {"coraza.conf-recommended.conf", "coraza-demo.conf", "ftw-config.conf", "crs-setup.conf.example",
                     "@recommended-conf", "@demo-conf", "@ftw-conf", "@crs-setup-conf", "@owasp_crs"}

  predicate ValidName(c: Checks, name: string) {
    name != "." && |name| <= MAX_FILE_NAME && '/' !in name && c.validPath(name)
  }

  predicate Shadows(name: string) {
    name in EMBEDDED || name == "crs" || "crs/" <= name || "@owasp_crs/" <= name
  }

  function SourceNames(sources: seq<SourceInput>): seq<string> {
    seq(|sources|, i requires 0 <= i < |sources| => sources[i].name)
  }

  function DataNames(data: seq<DataInput>): seq<string> {
    seq(|data|, i requires 0 <= i < |data| => data[i].name)
  }

  /** validateReferences */
  predicate Referable(c: Checks, inputs: Inputs) {
    && Distinct(SourceNames(inputs.sources)) && Distinct(DataNames(inputs.data))
    && forall i, name | 0 <= i < |inputs.data| && name in inputs.data[i].files :: ValidName(c, name) && !Shadows(name)
  }

  function Joined(sources: seq<SourceInput>): string {
    if sources == [] then "" else if |sources| == 1 then sources[0].rules
    else Joined(sources[..|sources| - 1]) + "\n" + sources[|sources| - 1].rules
  }

  function Merged(data: seq<DataInput>): map<string, string> {
    if data == [] then map[] else Merged(data[..|data| - 1]) + data[|data| - 1].files
  }

  /** The last listed RuleData that has a file provides it. */
  lemma {:induction false} LastListedWins(data: seq<DataInput>, name: string)
    ensures name in Merged(data) <==> exists i | 0 <= i < |data| :: name in data[i].files
    ensures forall i | 0 <= i < |data| && name in data[i].files
                       && (forall j | i < j < |data| :: name !in data[j].files) ::
      name in Merged(data) && Merged(data)[name] == data[i].files[name]
  {
    if data != [] {
      var front := data[..|data| - 1];
      LastListedWins(front, name);
      if name !in data[|data| - 1].files {
        assert forall i | 0 <= i < |front| :: front[i] == data[i];
      }
    }
  }

  datatype Outcome = Built(content: Content) | BadReferences | BadData | EmptyRules | UnknownPolicy

  function Assembled(c: Checks, inputs: Inputs): Outcome {
    if !Referable(c, inputs) then BadReferences
    else
      var content := Content(Joined(inputs.sources), Merged(inputs.data));
      if !c.references(content.rules, content.files) then BadData
      else if inputs.emptyRulesPolicy == "" || inputs.emptyRulesPolicy == "Reject"
        then if c.blank(content.rules) then EmptyRules else Built(content)
      else if inputs.emptyRulesPolicy == "Allow" then Built(content)
      else UnknownPolicy
  }

  // ----- What is assembled -----

  /** The sources' rules in order, with a line break between each two. */
  lemma {:induction false} JoinedAppend(a: seq<SourceInput>, b: seq<SourceInput>)
    requires a != [] && b != []
    ensures Joined(a + b) == Joined(a) + "\n" + Joined(b)
  {
    var n := |b| - 1;
    assert (a + b)[..|a + b| - 1] == a + b[..n] && (a + b)[|a + b| - 1] == b[n];
    if n == 0 {
      assert a + b[..n] == a;
    } else {
      JoinedAppend(a, b[..n]);
      assert Joined(a) + "\n" + Joined(b[..n]) + "\n" + b[n].rules
          == Joined(a) + "\n" + (Joined(b[..n]) + "\n" + b[n].rules);
    }
  }

  lemma JoinedOne(source: SourceInput)
    ensures Joined([]) == "" && Joined([source]) == source.rules
  {
  }

  /** A file name the plugin can load and does not serve itself. */
  predicate Loadable(c: Checks, name: string) {
    && name != "." && |name| <= 253 && (forall i | 0 <= i < |name| :: name[i] != '/') && c.validPath(name)
    && name !in {"crs", "@owasp_crs", "coraza.conf-recommended.conf", "coraza-demo.conf", "ftw-config.conf",
                 "crs-setup.conf.example", "@recommended-conf", "@demo-conf", "@ftw-conf", "@crs-setup-conf"}
  }

  /** References are distinct and every merged file is loadable. */
  ghost predicate WellReferenced(c: Checks, inputs: Inputs) {
    && (forall i, j | 0 <= i < j < |inputs.sources| :: inputs.sources[i].name != inputs.sources[j].name)
    && (forall i, j | 0 <= i < j < |inputs.data| :: inputs.data[i].name != inputs.data[j].name)
    && (forall name | name in Merged(inputs.data) :: Loadable(c, name))
  }

  lemma LoadableIff(c: Checks, name: string)
    ensures Loadable(c, name) <==> ValidName(c, name) && !Shadows(name)
  {
    if "crs/" <= name { assert name[3] == "crs/"[3] == '/'; }
    if "@owasp_crs/" <= name { assert name[10] == "@owasp_crs/"[10] == '/'; }
  }

  lemma ReferableIff(c: Checks, inputs: Inputs)
    ensures Referable(c, inputs) <==> WellReferenced(c, inputs)
  {
    DistinctNames(inputs);
    forall name
      ensures name in Merged(inputs.data) <==> exists i | 0 <= i < |inputs.data| :: name in inputs.data[i].files
      ensures Loadable(c, name) <==> ValidName(c, name) && !Shadows(name)
    {
      LastListedWins(inputs.data, name);
      LoadableIff(c, name);
    }
  }

  lemma DistinctNames(inputs: Inputs)
    ensures Distinct(SourceNames(inputs.sources)) <==>
      forall i, j | 0 <= i < j < |inputs.sources| :: inputs.sources[i].name != inputs.sources[j].name
    ensures Distinct(DataNames(inputs.data)) <==>
      forall i, j | 0 <= i < j < |inputs.data| :: inputs.data[i].name != inputs.data[j].name
  {
    var ss, ds := SourceNames(inputs.sources), DataNames(inputs.data);
    assert forall i | 0 <= i < |ss| :: ss[i] == inputs.sources[i].name;
    assert forall i | 0 <= i < |ds| :: ds[i] == inputs.data[i].name;
  }

  /** Exactly which inputs are assembled, and what stops the others, in this order. */
  lemma AssembledIff(c: Checks, inputs: Inputs)
    ensures var rules, files, policy := Joined(inputs.sources), Merged(inputs.data), inputs.emptyRulesPolicy;
      var out := Assembled(c, inputs);
      && (out == BadReferences <==> !WellReferenced(c, inputs))
      && (out == BadData <==> WellReferenced(c, inputs) && !c.references(rules, files))
      && (out in {EmptyRules, UnknownPolicy} || out.Built? <==> WellReferenced(c, inputs) && c.references(rules, files))
      && (out == EmptyRules ==> policy in {"", "Reject"} && c.blank(rules))
      && (out == UnknownPolicy ==> policy !in {"", "Reject", "Allow"})
      && (out.Built? ==> out.content == Content(rules, files))
      && (out.Built? ==> policy == "Allow" || (policy in {"", "Reject"} && !c.blank(rules)))
  {
    ReferableIff(c, inputs);
  }

  /** duplicateNames: counts first, then the names counted more than once. */
  method DuplicateNames(names: seq<string>) returns (dups: set<string>)
    ensures dups == set n | n in names && multiset(names)[n] > 1
    ensures dups == {} <==> Distinct(names)
  {
    var seen: map<string, nat> := map[];
    for i := 0 to |names|
      invariant forall n :: n in seen <==> n in names[..i]
      invariant forall n | n in seen :: seen[n] == multiset(names[..i])[n]
    {
      assert names[..i + 1] == names[..i] + [names[i]];
      assert names[i] !in names[..i] ==> multiset(names[..i])[names[i]] == 0;
      seen := seen[names[i] := (if names[i] in seen then seen[names[i]] else 0) + 1];
    }
    assert names[..|names|] == names;
    dups := {};
    var todo := seen.Keys;
    while todo != {}
      invariant todo <= seen.Keys
      invariant dups == set n | n in seen && n !in todo && seen[n] > 1
      decreases |todo|
    {
      var n :| n in todo;
      todo := todo - {n};
      if seen[n] > 1 { dups := dups + {n}; }
    }
    CountedTwice(names);
    if dups == {} {
      forall n | n in names ensures multiset(names)[n] <= 1 { assert n !in dups; }
    } else {
      var n :| n in dups;
      assert n in names && multiset(names)[n] > 1;
    }
  }

  lemma CountedTwice(names: seq<string>)
    ensures Distinct(names) <==> forall n | n in names :: multiset(names)[n] <= 1
  {
    if Distinct(names) {
      forall n | n in names ensures multiset(names)[n] <= 1 { CountOnce(names, n); }
    } else {
      var i, j :| 0 <= i < j < |names| && names[i] == names[j];
      assert names == names[..j] + [names[j]] + names[j + 1..];
      assert names[..j][i] == names[j] && names[j] in multiset(names[..j]);
      assert multiset(names)[names[j]] >= 2;
      assert names[j] in names;
    }
  }

  method JoinRules(sources: seq<SourceInput>) returns (rules: string)
    ensures rules == Joined(sources)
  {
    rules := "";
    for i := 0 to |sources|
      invariant rules == if i == 0 then "" else if i < |sources| then Joined(sources[..i]) + "\n" else Joined(sources)
    {
      assert sources[..i + 1][..i] == sources[..i];
      assert i + 1 == |sources| ==> sources[..i + 1] == sources;
      rules := rules + sources[i].rules;
      if i < |sources| - 1 { rules := rules + "\n"; }
    }
  }

  method MergeData(data: seq<DataInput>) returns (files: map<string, string>)
    ensures files == Merged(data)
  {
    files := map[];
    for i := 0 to |data|
      invariant files == Merged(data[..i])
    {
      files := CopyFiles(files, data[i].files);
      assert data[..i + 1][..i] == data[..i];
    }
    assert data[..|data|] == data;
  }

  method CopyFiles(into: map<string, string>, from: map<string, string>) returns (files: map<string, string>)
    ensures files == into + from
  {
    files := into;
    var todo := from.Keys;
    while todo != {}
      invariant todo <= from.Keys && files.Keys == into.Keys + (from.Keys - todo)
      invariant forall n | n in files :: files[n] == if n in from && n !in todo then from[n] else into[n]
      decreases |todo|
    {
      var n :| n in todo;
      todo := todo - {n};
      files := files[n := from[n]];
    }
  }

  /** The file names of one RuleData: none invalid, none shadowing an embedded file. */
  method CheckFileNames(c: Checks, files: map<string, string>) returns (ok: bool)
    ensures ok <==> forall name | name in files :: ValidName(c, name) && !Shadows(name)
  {
    ok := true;
    var todo := files.Keys;
    while todo != {}
      invariant todo <= files.Keys
      invariant ok <==> forall name | name in files && name !in todo :: ValidName(c, name) && !Shadows(name)
      decreases |todo|
    {
      var name :| name in todo;
      todo := todo - {name};
      if !ValidName(c, name) || Shadows(name) { ok := false; }
    }
  }

  method ValidateReferences(c: Checks, inputs: Inputs) returns (ok: bool)
    ensures ok == Referable(c, inputs)
  {
    var dupSources := DuplicateNames(SourceNames(inputs.sources));
    var dupData := DuplicateNames(DataNames(inputs.data));
    ok := dupSources == {} && dupData == {};
    ghost var distinct := ok;
    for i := 0 to |inputs.data|
      invariant ok <==>
        distinct && forall j, name | 0 <= j < i && name in inputs.data[j].files :: ValidName(c, name) && !Shadows(name)
    {
      var named := CheckFileNames(c, inputs.data[i].files);
      ok := ok && named;
    }
  }

  method Assemble(c: Checks, inputs: Inputs) returns (out: Outcome)
    ensures out == Assembled(c, inputs)
  {
    var referable := ValidateReferences(c, inputs);
    if !referable { return BadReferences; }
    var rules := JoinRules(inputs.sources);
    var files := MergeData(inputs.data);
    if !c.references(rules, files) { return BadData; }
    if inputs.emptyRulesPolicy in {"", "Reject"} {
      if c.blank(rules) { return EmptyRules; }
    } else if inputs.emptyRulesPolicy != "Allow" {
      return UnknownPolicy;
    }
    return Built(Content(rules, files));
  }
}
