/** Splitting a rule file into directive blocks and joining blocks again. */
module RuleBlocks {

  function Split(s: string): (lines: seq<string>)
    ensures lines != []
  {
    if s == "" then [""]
    else
      var rest := Split(s[1..]);
      if s[0] == '\n' then [""] + rest else [[s[0]] + rest[0]] + rest[1..]
  }

  function Join(parts: seq<string>): string {
    if parts == [] then "" else if |parts| == 1 then parts[0] else parts[0] + "\n" + Join(parts[1..])
  }

  lemma {:induction false} JoinSplit(s: string)
    ensures Join(Split(s)) == s
  {
    if s != "" {
      var rest := Split(s[1..]);
      JoinSplit(s[1..]);
      if s[0] == '\n' {
        assert ([""] + rest)[1..] == rest;
        assert s == "\n" + s[1..];
      } else {
        var lines := [[s[0]] + rest[0]] + rest[1..];
        assert lines[1..] == rest[1..];
        assert Join(lines) == [s[0]] + Join(rest);
      }
    }
  }

  /** No line holds a line break, so the lines are the only way to cut the text. */
  lemma {:induction false} SplitIntoLines(s: string)
    ensures forall line | line in Split(s) :: '\n' !in line
  {
    if s != "" {
      SplitIntoLines(s[1..]);
      var rest := Split(s[1..]);
      assert rest[0] in rest;
      forall line | line in Split(s) ensures '\n' !in line {
        if s[0] != '\n' && line == [s[0]] + rest[0] {
          assert forall c | c in line :: c == s[0] || c in rest[0];
        } else {
          assert line == "" || line in rest;
        }
      }
    }
  }

  lemma {:induction false} JoinAppend(a: seq<string>, b: seq<string>)
    requires a != [] && b != []
    ensures Join(a + b) == Join(a) + "\n" + Join(b)
  {
    if |a| == 1 {
      assert (a + b)[1..] == b;
    } else {
      assert (a + b)[1..] == a[1..] + b;
      JoinAppend(a[1..], b);
      assert a[0] + "\n" + (Join(a[1..]) + "\n" + Join(b)) == (a[0] + "\n" + Join(a[1..])) + "\n" + Join(b);
    }
  }

  // ----- Blocks -----

  /** trimLineEnd */
  function TrimLineEnd(line: string): string {
    if line != "" && line[|line| - 1] in " \t\r\n" then TrimLineEnd(line[..|line| - 1]) else line
  }

  predicate Continued(line: string) {
    var t := TrimLineEnd(line);
    t != "" && t[|t| - 1] == '\\'
  }

  predicate Blank(c: char) { c == ' ' || c == '\t' || c == '\r' || c == '\n' }

  /** Trimming drops the blanks at the end and nothing else. */
  lemma {:induction false} TrimIs(line: string)
    ensures var t := TrimLineEnd(line);
      && t <= line && (t == "" || !Blank(t[|t| - 1]))
      && forall i | |t| <= i < |line| :: Blank(line[i])
  {
    if line != "" && line[|line| - 1] in " \t\r\n" { TrimIs(line[..|line| - 1]); }
  }

  /** The line ends in a backslash but for blanks. */
  predicate EndsInBackslash(line: string) {
    exists n | 0 <= n < |line| :: line[n] == '\\' && forall i | n < i < |line| :: Blank(line[i])
  }

  lemma ContinuedIff(line: string)
    ensures Continued(line) <==> EndsInBackslash(line)
  {
    TrimIs(line);
    var t := TrimLineEnd(line);
    if Continued(line) {
      assert line[|t| - 1] == '\\';
    }
    if EndsInBackslash(line) {
      var n :| 0 <= n < |line| && line[n] == '\\' && forall i | n < i < |line| :: Blank(line[i]);
      assert |t| == n + 1;
    }
  }

  /** A line that starts a directive; directive stands for the SecRule, SecAction, SecMarker pattern. */
  predicate Starts(directive: string -> bool, line: string) {
    var t := TrimLineEnd(line);
    !("#" <= t) && directive(t)
  }

  /** How many lines a continued directive still takes: up to the first line that is not continued. */
  function Rest(lines: seq<string>): (n: nat)
    ensures n <= |lines| && (lines != [] ==> n > 0)
  {
    if lines == [] then 0 else if !Continued(lines[0]) then 1 else 1 + Rest(lines[1..])
  }

  function BlockLength(directive: string -> bool, lines: seq<string>): (n: nat)
    requires lines != []
    ensures 0 < n <= |lines|
  {
    if Starts(directive, lines[0]) then Rest(lines) else 1
  }

  /** A directive with its continuation lines is one block; every other line is one. */
  function Blocks(directive: string -> bool, lines: seq<string>): seq<string>
    decreases |lines|
  {
    if lines == [] then []
    else
      var n := BlockLength(directive, lines);
      [Join(lines[..n])] + Blocks(directive, lines[n..])
  }

  /** Lines a up to b are one block: a directive with its continuation lines, up to the first line that
      does not end in a backslash, or else a single line. */
  predicate IsBlock(directive: string -> bool, lines: seq<string>, a: nat, b: nat) {
    && a < b <= |lines|
    && var t := TrimLineEnd(lines[a]);
       if directive(t) && (t == "" || t[0] != '#')
       then (forall i | a <= i < b - 1 :: EndsInBackslash(lines[i])) && (b == |lines| || !EndsInBackslash(lines[b - 1]))
       else b == a + 1
  }

  lemma {:induction false} RestIs(lines: seq<string>)
    requires lines != []
    ensures var n := Rest(lines);
      && (forall i | 0 <= i < n - 1 :: Continued(lines[i])) && (n == |lines| || !Continued(lines[n - 1]))
  {
    if Continued(lines[0]) && |lines| > 1 {
      RestIs(lines[1..]);
      var n := Rest(lines);
      forall i | 0 <= i < n - 1 ensures Continued(lines[i]) {
        if i > 0 { assert lines[i] == lines[1..][i - 1]; }
      }
    }
  }

  lemma FirstIsBlock(directive: string -> bool, lines: seq<string>)
    requires lines != []
    ensures IsBlock(directive, lines, 0, BlockLength(directive, lines))
  {
    RestIs(lines);
    forall i | 0 <= i < |lines| ensures Continued(lines[i]) <==> EndsInBackslash(lines[i]) { ContinuedIff(lines[i]); }
  }

  lemma LaterBlock(directive: string -> bool, lines: seq<string>, n: nat, a: nat, b: nat)
    requires n <= |lines| && IsBlock(directive, lines[n..], a, b)
    ensures IsBlock(directive, lines, a + n, b + n)
  {
    assert lines[n..][a] == lines[a + n];
    forall i | a + n <= i < b + n ensures lines[i] == lines[n..][i - n] { }
  }

  function Next(directive: string -> bool, lines: seq<string>, from: nat): (to: nat)
    requires from < |lines|
    ensures from < to <= |lines|
  {
    from + BlockLength(directive, lines[from..])
  }

  /** Where the blocks begin, and the end. */
  function Cuts(directive: string -> bool, lines: seq<string>, from: nat): (cuts: seq<nat>)
    requires from <= |lines|
    ensures cuts != [] && cuts[0] == from
    decreases |lines| - from
  {
    if from == |lines| then [from]
    else [from] + Cuts(directive, lines, Next(directive, lines, from))
  }

  /** The blocks are the stretches of lines between the cuts, each a block, up to the last line. */
  predicate CutInto(directive: string -> bool, lines: seq<string>, cuts: seq<nat>, blocks: seq<string>) {
    && |cuts| == |blocks| + 1 && cuts[|blocks|] == |lines|
    && forall i | 0 <= i < |blocks| :: CutAt(directive, lines, cuts[i], cuts[i + 1], blocks[i])
  }

  predicate CutAt(directive: string -> bool, lines: seq<string>, a: nat, b: nat, block: string) {
    IsBlock(directive, lines, a, b) && block == Join(lines[a..b])
  }

  lemma CutFirst(directive: string -> bool, lines: seq<string>, a: nat, block: string, cuts: seq<nat>,
                 blocks: seq<string>)
    requires CutInto(directive, lines, cuts, blocks) && CutAt(directive, lines, a, cuts[0], block)
    ensures CutInto(directive, lines, [a] + cuts, [block] + blocks)
  {
    var all, bs := [a] + cuts, [block] + blocks;
    forall i | 0 <= i < |bs| ensures CutAt(directive, lines, all[i], all[i + 1], bs[i]) {
      if i > 0 { assert all[i] == cuts[i - 1] && all[i + 1] == cuts[i - 1 + 1] && bs[i] == blocks[i - 1]; }
    }
  }

  lemma Slices<T>(xs: seq<T>, from: nat, n: nat)
    requires from + n <= |xs|
    ensures xs[from..][n..] == xs[from + n..] && xs[from..][..n] == xs[from..from + n]
  {
  }

  lemma NextCut(directive: string -> bool, lines: seq<string>, from: nat)
    requires from < |lines|
    ensures IsBlock(directive, lines, from, Next(directive, lines, from))
  {
    FirstIsBlock(directive, lines[from..]);
    LaterBlock(directive, lines, from, 0, BlockLength(directive, lines[from..]));
  }

  lemma NextBlock(directive: string -> bool, lines: seq<string>, from: nat)
    requires from < |lines|
    ensures var to := Next(directive, lines, from);
      Blocks(directive, lines[from..]) == [Join(lines[from..to])] + Blocks(directive, lines[to..])
  {
    Slices(lines, from, BlockLength(directive, lines[from..]));
  }

  /** The blocks of a text cut all its lines, from the first on, into directives with their continuation
      lines and single other lines. */
  lemma {:induction false} BlocksAre(directive: string -> bool, lines: seq<string>, from: nat)
    requires from <= |lines|
    ensures CutInto(directive, lines, Cuts(directive, lines, from), Blocks(directive, lines[from..]))
    decreases |lines| - from
  {
    if from < |lines| {
      var to := Next(directive, lines, from);
      NextCut(directive, lines, from);
      NextBlock(directive, lines, from);
      BlocksAre(directive, lines, to);
      CutFirst(directive, lines, from, Join(lines[from..to]), Cuts(directive, lines, to),
               Blocks(directive, lines[to..]));
    } else {
      assert lines[from..] == [];
    }
  }

  lemma {:induction false} JoinBlocks(directive: string -> bool, lines: seq<string>)
    ensures Join(Blocks(directive, lines)) == Join(lines)
    ensures lines != [] ==> Blocks(directive, lines) != []
    decreases |lines|
  {
    if lines != [] {
      var n := BlockLength(directive, lines);
      var rest := Blocks(directive, lines[n..]);
      JoinBlocks(directive, lines[n..]);
      assert lines == lines[..n] + lines[n..];
      if n < |lines| {
        JoinAppend(lines[..n], lines[n..]);
        assert ([Join(lines[..n])] + rest)[1..] == rest;
      } else {
        assert lines[..n] == lines;
      }
    }
  }

  /** What is still to come while a directive is open. */
  function Open(directive: string -> bool, current: seq<string>, lines: seq<string>): seq<string> {
    var n := Rest(lines);
    [Join(current + lines[..n])] + Blocks(directive, lines[n..])
  }

  lemma OpenStart(directive: string -> bool, lines: seq<string>)
    requires lines != [] && Starts(directive, lines[0]) && Continued(lines[0])
    ensures Blocks(directive, lines) == Open(directive, [lines[0]], lines[1..])
  {
    var n := Rest(lines);
    assert lines[..n] == [lines[0]] + lines[1..][..n - 1];
    assert lines[n..] == lines[1..][n - 1..];
  }

  lemma OpenContinues(directive: string -> bool, current: seq<string>, lines: seq<string>)
    requires lines != [] && Continued(lines[0])
    ensures Open(directive, current, lines) == Open(directive, current + [lines[0]], lines[1..])
  {
    var n := Rest(lines);
    assert current + lines[..n] == current + [lines[0]] + lines[1..][..n - 1];
    assert lines[n..] == lines[1..][n - 1..];
  }

  lemma OpenEnds(directive: string -> bool, current: seq<string>, lines: seq<string>)
    requires lines != [] && !Continued(lines[0])
    ensures Open(directive, current, lines) == [Join(current + [lines[0]])] + Blocks(directive, lines[1..])
  {
    assert lines[..1] == [lines[0]];
  }

  /** The blocks still to come; current holds the lines of an open directive. */
  function ToCome(directive: string -> bool, current: seq<string>, lines: seq<string>): seq<string> {
    if current == [] then Blocks(directive, lines) else Open(directive, current, lines)
  }

  /** The lines of the open directive after one more line, and the blocks that line completes. */
  function Carried(directive: string -> bool, current: seq<string>, line: string): seq<string> {
    if Continued(line) && (current != [] || Starts(directive, line)) then current + [line] else []
  }

  function Completed(directive: string -> bool, current: seq<string>, line: string): seq<string> {
    if Carried(directive, current, line) != [] then [] else [Join(current + [line])]
  }

  lemma OneLine(directive: string -> bool, current: seq<string>, lines: seq<string>)
    requires lines != []
    ensures ToCome(directive, current, lines) ==
      Completed(directive, current, lines[0]) + ToCome(directive, Carried(directive, current, lines[0]), lines[1..])
  {
    if current != [] {
      if Continued(lines[0]) { OpenContinues(directive, current, lines); } else { OpenEnds(directive, current, lines); }
    } else if Starts(directive, lines[0]) && Continued(lines[0]) {
      OpenStart(directive, lines);
      assert [] + [lines[0]] == [lines[0]];
    } else {
      assert BlockLength(directive, lines) == 1;
      assert lines[..1] == [lines[0]] == [] + [lines[0]];
    }
  }

  /** splitIntoRules: the split loses nothing, and the blocks are the directives with their
      continuations. */
  method SplitIntoRules(directive: string -> bool, content: string) returns (blocks: seq<string>)
    ensures blocks == Blocks(directive, Split(content))
    ensures Join(blocks) == content
  {
    var lines := Split(content);
    blocks := SplitLines(directive, lines);
    JoinBlocks(directive, lines);
    JoinSplit(content);
  }

  lemma NothingLeft(directive: string -> bool, current: seq<string>)
    ensures ToCome(directive, current, []) == if current == [] then [] else [Join(current)]
  {
    assert current + [] == current;
  }

  /** One turn of the loop: a line extends or ends the open directive, opens one, or stands alone. */
  method TakeLine(directive: string -> bool, open: seq<string>, line: string)
    returns (block: seq<string>, current: seq<string>)
    ensures block == Completed(directive, open, line) && current == Carried(directive, open, line)
  {
    block, current := [], open;
    if current != [] {
      current := current + [line];
      if !Continued(line) {
        block, current := [Join(current)], [];
      }
    } else if Starts(directive, line) {
      current := [line];
      assert [] + [line] == [line];
      if !Continued(line) {
        block, current := [Join(current)], [];
      }
    } else {
      block := [line];
      assert [] + [line] == [line];
    }
  }

  /** After i lines: the blocks so far and those still to come are all the blocks. */
  ghost predicate Progress(directive: string -> bool, lines: seq<string>, i: nat, blocks: seq<string>,
                           current: seq<string>)
    requires i <= |lines|
  {
    Blocks(directive, lines) == blocks + ToCome(directive, current, lines[i..])
  }

  lemma Reassociate<T>(a: seq<T>, b: seq<T>, c: seq<T>)
    ensures a + (b + c) == a + b + c
  {
  }

  lemma OneMoreLine(directive: string -> bool, all: seq<string>, blocks: seq<string>, current: seq<string>,
                    lines: seq<string>)
    requires lines != [] && all == blocks + ToCome(directive, current, lines)
    ensures all == blocks + Completed(directive, current, lines[0])
                   + ToCome(directive, Carried(directive, current, lines[0]), lines[1..])
  {
    OneLine(directive, current, lines);
    Reassociate(blocks, Completed(directive, current, lines[0]),
                ToCome(directive, Carried(directive, current, lines[0]), lines[1..]));
  }

  lemma ProgressLine(directive: string -> bool, lines: seq<string>, i: nat, blocks: seq<string>, current: seq<string>)
    requires i < |lines| && Progress(directive, lines, i, blocks, current)
    ensures Progress(directive, lines, i + 1, blocks + Completed(directive, current, lines[i]),
                     Carried(directive, current, lines[i]))
  {
    var rest := lines[i..];
    assert rest[0] == lines[i] && rest[1..] == lines[i + 1..];
    OneMoreLine(directive, Blocks(directive, lines), blocks, current, rest);
  }

  lemma ProgressDone(directive: string -> bool, lines: seq<string>, blocks: seq<string>, current: seq<string>)
    requires Progress(directive, lines, |lines|, blocks, current)
    ensures Blocks(directive, lines) == blocks + if current == [] then [] else [Join(current)]
  {
    assert lines[|lines|..] == [];
    NothingLeft(directive, current);
  }

  method SplitLines(directive: string -> bool, lines: seq<string>) returns (blocks: seq<string>)
    ensures blocks == Blocks(directive, lines)
  {
    blocks := [];
    var current: seq<string> := [];
    assert lines[0..] == lines;
    for i := 0 to |lines|
      invariant Progress(directive, lines, i, blocks, current)
    {
      ProgressLine(directive, lines, i, blocks, current);
      var block;
      block, current := TakeLine(directive, current, lines[i]);
      blocks := blocks + block;
    }
    ProgressDone(directive, lines, blocks, current);
    if current != [] { blocks := blocks + [Join(current)]; }
  }
}
