/** Reading `git worktree list --porcelain`. */
module WorktreeList {
  import opened Basics

  datatype Tree = Tree(path: string, branch: Option<string>)

  const WORKTREE: string := "worktree "
  const BRANCH: string := "branch "
  const HEADS: string := "refs/heads/"

  // ---------------------------------------------------------------- lines

  function Before(s: string): (line: string)
    ensures |line| <= |s| && '\n' !in line && s[..|line|] == line && (|line| < |s| ==> s[|line|] == '\n')
  {
    if s == "" || s[0] == '\n' then "" else [s[0]] + Before(s[1..])
  }

  function StripReturn(line: string): string {
    if line != "" && line[|line| - 1] == '\r' then line[..|line| - 1] else line
  }

  /** `s.lines()`: a line end is a newline, or a carriage return and a newline. */
  function Lines(s: string): seq<string>
    decreases |s|
  {
    if s == "" then []
    else
      var line := Before(s);
      if |line| == |s| then [line] else [StripReturn(line)] + Lines(s[|line| + 1..])
  }

  function Strip(line: string, prefix: string): Option<string> {
    if prefix <= line then Some(line[|prefix|..]) else None
  }

  /** `trim_start_matches("refs/heads/")`: every leading occurrence goes. */
  function TrimHeads(s: string): string
    decreases |s|
  {
    if HEADS <= s then TrimHeads(s[|HEADS|..]) else s
  }

  // ---------------------------------------------------------------- the accumulator

  /** The finished entries and the one being read. */
  datatype Reading = Reading(trees: seq<Tree>, current: Option<Tree>)

  function Flush(r: Reading): seq<Tree> {
    if r.current.Some? then r.trees + [r.current.value] else r.trees
  }

  function Feed(r: Reading, line: string): Reading {
    match Strip(line, WORKTREE)
    case Some(path) => Reading(Flush(r), Some(Tree(path, None)))
    case None =>
      match Strip(line, BRANCH)
      case Some(branch) =>
        if r.current.None? then r
        else r.(current := Some(r.current.value.(branch := Some(TrimHeads(branch)))))
      case None => r
  }

  function FeedAll(r: Reading, lines: seq<string>): Reading {
    if lines == [] then r else Feed(FeedAll(r, lines[..|lines| - 1]), lines[|lines| - 1])
  }

  method GitWorktreeList(raw: string) returns (trees: seq<Tree>)
    ensures trees == Flush(FeedAll(Reading([], None), Lines(raw)))
  {
    trees := [];
    var current: Option<Tree> := None;
    var lines := Lines(raw);
    for i := 0 to |lines|
      invariant Reading(trees, current) == FeedAll(Reading([], None), lines[..i])
    {
      var line := lines[i];
      assert lines[..i + 1][..i] == lines[..i];
      if WORKTREE <= line {
        if current.Some? {
          trees := trees + [current.value];
        }
        current := Some(Tree(line[|WORKTREE|..], None));
      } else if BRANCH <= line {
        if current.Some? {
          current := Some(current.value.(branch := Some(TrimHeads(line[|BRANCH|..]))));
        }
      }
    }
    assert lines[..|lines|] == lines;
    if current.Some? {
      trees := trees + [current.value];
    }
  }

  // ---------------------------------------------------------------- the porcelain text

  /** An entry and the other attribute lines git prints with it, before and after the branch. */
  datatype Record = Record(path: string, branch: Option<string>, before: seq<string>, after: seq<string>)

  predicate OneLine(s: string) {
    '\n' !in s
  }

  /** A line of some other attribute, or an empty one. */
  predicate Other(line: string) {
    OneLine(line) && !(WORKTREE <= StripReturn(line)) && !(BRANCH <= StripReturn(line))
  }

  predicate Printable(r: Record) {
    && OneLine(r.path) && (r.branch.Some? ==> OneLine(r.branch.value))
    && (forall i :: 0 <= i < |r.before| ==> Other(r.before[i]))
       && (forall i :: 0 <= i < |r.after| ==> Other(r.after[i]))
  }

  function RecordLines(r: Record): seq<string> {
    ["worktree " + r.path] + r.before + BranchLines(r.branch) + r.after
  }

  function AllLines(records: seq<Record>): seq<string> {
    if records == [] then [] else AllLines(records[..|records| - 1]) + RecordLines(records[|records| - 1])
  }

  function Text(lines: seq<string>): string {
    if lines == [] then "" else lines[0] + "\n" + Text(lines[1..])
  }

  /** What is read back of an entry. */
  function Read(r: Record): Tree {
    Tree(StripReturn(WORKTREE + r.path)[|WORKTREE|..],
         if r.branch.Some? then Some(TrimHeads(StripReturn(BRANCH + HEADS + r.branch.value)[|BRANCH|..])) else None)
  }

  function ReadAll(records: seq<Record>): seq<Tree> {
    if records == [] then [] else ReadAll(records[..|records| - 1]) + [Read(records[|records| - 1])]
  }

  function Stripped(lines: seq<string>): seq<string> {
    seq(|lines|, i requires 0 <= i < |lines| => StripReturn(lines[i]))
  }

  lemma {:induction false} BeforeLine(line: string, rest: string)
    requires OneLine(line)
    ensures Before(line + "\n" + rest) == line
  {
    var s := line + "\n" + rest;
    if line != "" {
      assert s[1..] == line[1..] + "\n" + rest;
      BeforeLine(line[1..], rest);
    }
  }

  lemma {:induction false} LinesOfText(lines: seq<string>)
    requires forall i :: 0 <= i < |lines| ==> OneLine(lines[i])
    ensures Lines(Text(lines)) == Stripped(lines)
  {
    if lines != [] {
      var s := Text(lines);
      BeforeLine(lines[0], Text(lines[1..]));
      assert s[|lines[0]| + 1..] == Text(lines[1..]);
      LinesOfText(lines[1..]);
      assert Stripped(lines) == [StripReturn(lines[0])] + Stripped(lines[1..]);
    }
  }

  lemma {:induction false} FeedAppend(r: Reading, a: seq<string>, b: seq<string>)
    ensures FeedAll(r, a + b) == FeedAll(FeedAll(r, a), b)
    decreases |b|
  {
    if b == [] {
      assert a + b == a;
    } else {
      var n := |b| - 1;
      assert (a + b)[..|a + b| - 1] == a + b[..n];
      FeedAppend(r, a, b[..n]);
    }
  }

  lemma {:induction false} OthersIgnored(r: Reading, lines: seq<string>)
    requires forall i :: 0 <= i < |lines| ==> Other(lines[i])
    ensures FeedAll(r, Stripped(lines)) == r
    decreases |lines|
  {
    if lines != [] {
      var n := |lines| - 1;
      assert Stripped(lines)[..n] == Stripped(lines[..n]);
      OthersIgnored(r, lines[..n]);
    }
  }

  lemma {:induction false} StrippedAppend(a: seq<string>, b: seq<string>)
    ensures Stripped(a + b) == Stripped(a) + Stripped(b)
  {
  }

  /** Feeding one line, already stripped. */
  lemma {:induction false} FeedOne(r: Reading, line: string)
    ensures FeedAll(r, Stripped([line])) == Feed(r, StripReturn(line))
  {
    assert Stripped([line])[..0] == [];
    assert FeedAll(r, Stripped([line])[..0]) == r;
  }

  lemma {:induction false} FeedBlocks(r: Reading, a: seq<string>, b: seq<string>)
    ensures FeedAll(r, Stripped(a + b)) == FeedAll(FeedAll(r, Stripped(a)), Stripped(b))
  {
    StrippedAppend(a, b);
    FeedAppend(r, Stripped(a), Stripped(b));
  }

  function BranchLines(branch: Option<string>): seq<string> {
    if branch.Some? then ["branch " + "refs/heads/" + branch.value] else []
  }

  function Opened(r: Reading, path: string): Reading {
    Reading(Flush(r), Some(Tree(StripReturn(WORKTREE + path)[|WORKTREE|..], None)))
  }

  lemma {:induction false} PathRead(r: Reading, path: string)
    ensures FeedAll(r, Stripped([WORKTREE + path])) == Opened(r, path)
  {
    FeedOne(r, WORKTREE + path);
    PrefixStays(WORKTREE, path);
  }

  lemma {:induction false} BranchRead(r: Reading, record: Record)
    ensures FeedAll(Opened(r, record.path), Stripped(BranchLines(record.branch)))
            == Reading(Flush(r), Some(Read(record)))
  {
    if record.branch.Some? {
      var line := BRANCH + HEADS + record.branch.value;
      FeedOne(Opened(r, record.path), line);
      assert line == BRANCH + (HEADS + record.branch.value);
      PrefixStays(BRANCH, HEADS + record.branch.value);
      assert StripReturn(line)[0] == 'b';
    } else {
      assert Stripped(BranchLines(record.branch)) == [];
    }
  }

  /** The lines of an entry finish the entry before it and leave this one being read. */
  lemma {:induction false} RecordRead(r: Reading, record: Record)
    requires Printable(record)
    ensures FeedAll(r, Stripped(RecordLines(record))) == Reading(Flush(r), Some(Read(record)))
  {
    var first, branch := [WORKTREE + record.path], BranchLines(record.branch);
    FeedBlocks(r, first + record.before + branch, record.after);
    FeedBlocks(r, first + record.before, branch);
    FeedBlocks(r, first, record.before);
    PathRead(r, record.path);
    OthersIgnored(Opened(r, record.path), record.before);
    BranchRead(r, record);
    OthersIgnored(Reading(Flush(r), Some(Read(record))), record.after);
  }

  /** Stripping a carriage return never cuts into a prefix that does not end in one. */
  lemma {:induction false} PrefixStays(prefix: string, rest: string)
    requires prefix != "" && prefix[|prefix| - 1] != '\r'
    ensures prefix <= StripReturn(prefix + rest)
  {
    assert rest == "" ==> prefix + rest == prefix;
  }

  lemma {:induction false} RecordsRead(records: seq<Record>)
    requires forall i :: 0 <= i < |records| ==> Printable(records[i])
    ensures Flush(FeedAll(Reading([], None), Stripped(AllLines(records)))) == ReadAll(records)
    decreases |records|
  {
    if records != [] {
      var n := |records| - 1;
      RecordsRead(records[..n]);
      StrippedAppend(AllLines(records[..n]), RecordLines(records[n]));
      FeedAppend(Reading([], None), Stripped(AllLines(records[..n])), Stripped(RecordLines(records[n])));
      RecordRead(FeedAll(Reading([], None), Stripped(AllLines(records[..n]))), records[n]);
    }
  }

  lemma {:induction false} RecordOneLines(records: seq<Record>)
    requires forall i :: 0 <= i < |records| ==> Printable(records[i])
    ensures forall i :: 0 <= i < |AllLines(records)| ==> OneLine(AllLines(records)[i])
    decreases |records|
  {
    if records != [] {
      var n := |records| - 1;
      RecordOneLines(records[..n]);
      forall i | 0 <= i < |RecordLines(records[n])| ensures OneLine(RecordLines(records[n])[i]) {
        var line := RecordLines(records[n])[i];
        assert line == WORKTREE + records[n].path || line in records[n].before || line in records[n].after
               || (records[n].branch.Some? && line == BRANCH + HEADS + records[n].branch.value);
      }
    }
  }

  /** The list is read back entry by entry, in order and including the last one, whatever
      other lines stand between; of each entry what `Read` says. */
  lemma {:induction false} WorktreeRoundTrip(records: seq<Record>)
    requires forall i :: 0 <= i < |records| ==> Printable(records[i])
    ensures Flush(FeedAll(Reading([], None), Lines(Text(AllLines(records))))) == ReadAll(records)
  {
    RecordOneLines(records);
    LinesOfText(AllLines(records));
    RecordsRead(records);
  }

  predicate EndsInReturn(s: string) {
    s != "" && s[|s| - 1] == '\r'
  }

  /** An entry comes back unchanged exactly if its path and branch do not end in a carriage
      return and its branch does not itself begin with the prefix that is removed. */
  lemma {:induction false} ReadExactly(r: Record)
    ensures Read(r) == Tree(r.path, r.branch) <==>
            && !EndsInReturn(r.path)
            && (r.branch.Some? ==> !EndsInReturn(r.branch.value) && !(HEADS <= r.branch.value))
  {
    var line := WORKTREE + r.path;
    assert line[|WORKTREE|..] == r.path;
    assert r.path != "" ==> line[|line| - 1] == r.path[|r.path| - 1];
    assert |StripReturn(line)[|WORKTREE|..]| <= |r.path|;
    if r.branch.Some? {
      BranchReadExactly(r.branch.value);
    }
  }

  lemma {:induction false} TrimShortens(s: string)
    ensures |TrimHeads(s)| <= |s| && (HEADS <= s ==> |TrimHeads(s)| + |HEADS| <= |s|)
    decreases |s|
  {
    if HEADS <= s {
      TrimShortens(s[|HEADS|..]);
    }
  }

  lemma {:induction false} BranchReadExactly(b: string)
    ensures TrimHeads(StripReturn(BRANCH + HEADS + b)[|BRANCH|..]) == b <==>
            (b == "" || b[|b| - 1] != '\r') && !(HEADS <= b)
  {
    var line := BRANCH + HEADS + b;
    assert b != "" ==> line[|line| - 1] == b[|b| - 1];
    if b != "" && b[|b| - 1] == '\r' {
      var rest := b[..|b| - 1];
      assert StripReturn(line)[|BRANCH|..] == HEADS + rest;
      assert (HEADS + rest)[|HEADS|..] == rest;
      TrimShortens(rest);
    } else {
      assert StripReturn(line)[|BRANCH|..] == HEADS + b;
      assert (HEADS + b)[|HEADS|..] == b;
      TrimShortens(b);
    }
  }
}
