/**
 * The per-repository status model of GitRepositoryStatus.
 *
 * Every git invocation is replaced by its captured standard output, given as
 * a string: a refresh is a deterministic update of the object from six such
 * outputs. The `fetch` issued before reading unpulled commits has no effect
 * on the model; the remote it would fetch is returned instead.
 */
module RepositoryStatus {
  import opened Wrappers
  import opened Strings
  import PathUtil

  // ---------------------------------------------------------------------------
  // Line splitting (ReadLines over StringReader.ReadLine)
  // ---------------------------------------------------------------------------

  predicate IsLineBreak(c: char) {
    c == '\r' || c == '\n'
  }

  predicate HasNoLineBreak(s: string) {
    forall i :: 0 <= i < |s| ==> !IsLineBreak(s[i])
  }

  /** The position of the first '\r' or '\n' at or after `pos`, or the end of the text. */
  function LineEnd(text: string, pos: nat): (end: nat)
    requires pos <= |text|
    ensures pos <= end <= |text|
    decreases |text| - pos
  {
    if pos == |text| || IsLineBreak(text[pos]) then pos else LineEnd(text, pos + 1)
  }

  /** The line that starts at `pos` stops exactly at the first break. */
  lemma {:induction false} LineEndSpec(text: string, pos: nat)
    requires pos <= |text|
    ensures forall j :: pos <= j < LineEnd(text, pos) ==> !IsLineBreak(text[j])
    ensures LineEnd(text, pos) < |text| ==> IsLineBreak(text[LineEnd(text, pos)])
    decreases |text| - pos
  {
    if pos < |text| && !IsLineBreak(text[pos]) {
      LineEndSpec(text, pos + 1);
    }
  }

  /** Number of characters that end the line at `k`: two for "\r\n", one for a lone break, none at the end. */
  function BreakWidth(t: string, k: nat): (w: nat)
    requires k <= |t|
    ensures k + w <= |t|
    ensures k < |t| ==> w > 0
  {
    if k == |t| then 0
    else if t[k] == '\r' && k + 1 < |t| && t[k + 1] == '\n' then 2
    else 1
  }

  /** The lines StringReader.ReadLine yields, in order: a final break does not start an empty line. */
  function Lines(t: string): seq<string>
    decreases |t|
  {
    if t == [] then []
    else
      var end := LineEnd(t, 0);
      [t[..end]] + Lines(t[end + BreakWidth(t, end)..])
  }

  /** No line contains a line break. */
  lemma {:induction false} LinesHaveNoBreak(t: string)
    ensures forall i :: 0 <= i < |Lines(t)| ==> HasNoLineBreak(Lines(t)[i])
    decreases |t|
  {
    if t != [] {
      var end := LineEnd(t, 0);
      LineEndSpec(t, 0);
      LinesHaveNoBreak(t[end + BreakWidth(t, end)..]);
      assert HasNoLineBreak(t[..end]);
    }
  }

  /** The scan of StringReader.ReadLine: the first line break at or after `pos`, or the end. */
  method FindLineEnd(text: string, pos: nat) returns (end: nat)
    requires pos <= |text|
    ensures end == LineEnd(text, pos)
  {
    end := pos;
    while end < |text| && !IsLineBreak(text[end])
      invariant pos <= end <= |text|
      invariant LineEnd(text, end) == LineEnd(text, pos)
    {
      end := end + 1;
    }
  }

  /** ReadLines: splits captured output into lines, handling "\n", "\r\n" and "\r".
      `rest` is the reader's unread input. */
  method ReadLines(text: string) returns (lines: seq<string>)
    ensures lines == Lines(text)
  {
    lines := [];
    var rest := text;
    while rest != []
      invariant lines + Lines(rest) == Lines(text)
      decreases |rest|
    {
      var end := FindLineEnd(rest, 0);
      var next := end;
      if end < |rest| {
        next := if rest[end] == '\r' && end + 1 < |rest| && rest[end + 1] == '\n' then end + 2 else end + 1;
      }
      ShiftSplit(lines, Lines(rest), Lines(text), [rest[..end]], Lines(rest[next..]));
      lines := lines + [rest[..end]];
      rest := rest[next..];
    }
  }

  lemma AppendAssoc<T>(a: seq<T>, b: seq<T>, c: seq<T>)
    ensures (a + b) + c == a + (b + c)
  {
  }

  lemma ShiftSplit<T>(done: seq<T>, rest: seq<T>, all: seq<T>, first: seq<T>, after: seq<T>)
    requires done + rest == all && rest == first + after
    ensures (done + first) + after == all
  {
  }

  /** Output as git writes it: every line followed by the terminator `nl`. */
  function JoinTerminated(lines: seq<string>, nl: string): string {
    if lines == [] then [] else lines[0] + nl + JoinTerminated(lines[1..], nl)
  }

  /** Splitting output that was written line by line gives the lines back. */
  lemma {:induction false} LinesOfJoinTerminated(lines: seq<string>, nl: string)
    requires nl == "\n" || nl == "\r\n"
    requires forall i :: 0 <= i < |lines| ==> HasNoLineBreak(lines[i])
    ensures Lines(JoinTerminated(lines, nl)) == lines
  {
    if lines != [] {
      var rest := JoinTerminated(lines[1..], nl);
      var t := lines[0] + nl + rest;
      var k := |lines[0]|;
      assert t[k] == nl[0];
      assert LineEnd(t, 0) == k by {
        LineEndSpec(t, 0);
      }
      assert t[..k] == lines[0];
      assert BreakWidth(t, k) == |nl|;
      assert t[k + |nl|..] == rest;
      LinesOfJoinTerminated(lines[1..], nl);
    }
  }

  /** The non-blank lines of a list, verbatim and in order. */
  function NonBlank(lines: seq<string>): (r: seq<string>)
    ensures |r| <= |lines|
  {
    if lines == [] then []
    else (if IsBlank(lines[0]) then [] else [lines[0]]) + NonBlank(lines[1..])
  }

  /** The non-blank lines of a command's output. */
  function NonBlankLines(text: string): seq<string> {
    NonBlank(Lines(text))
  }

  /** The loop shared by the stash and log readers: keeps every line that is not
      null-or-whitespace. */
  method KeepNonBlankLines(text: string) returns (kept: seq<string>)
    ensures kept == NonBlankLines(text)
  {
    var lines := ReadLines(text);
    kept := [];
    var i := 0;
    while i < |lines|
      invariant 0 <= i <= |lines|
      invariant kept + NonBlank(lines[i..]) == NonBlank(lines)
    {
      var keep := !IsBlank(lines[i]);
      NonBlankStep(lines, i);
      ShiftSplit(kept, NonBlank(lines[i..]), NonBlank(lines), if keep then [lines[i]] else [], NonBlank(lines[i + 1..]));
      if keep {
        kept := kept + [lines[i]];
      } else {
        assert kept + [] == kept;
      }
      i := i + 1;
    }
  }

  lemma NonBlankStep(lines: seq<string>, i: nat)
    requires i < |lines|
    ensures NonBlank(lines[i..]) == (if IsBlank(lines[i]) then [] else [lines[i]]) + NonBlank(lines[i + 1..])
  {
    assert lines[i..][1..] == lines[i + 1..];
  }

  /** Output written line by line, with no blank line, reads back as exactly those lines. */
  lemma {:induction false} NonBlankLinesRoundTrip(entries: seq<string>, nl: string)
    requires nl == "\n" || nl == "\r\n"
    requires forall i :: 0 <= i < |entries| ==> HasNoLineBreak(entries[i]) && !IsBlank(entries[i])
    ensures NonBlankLines(JoinTerminated(entries, nl)) == entries
  {
    LinesOfJoinTerminated(entries, nl);
    NonBlankKeepsNonBlank(entries);
  }

  lemma {:induction false} NonBlankKeepsNonBlank(lines: seq<string>)
    requires forall i :: 0 <= i < |lines| ==> !IsBlank(lines[i])
    ensures NonBlank(lines) == lines
  {
    if lines != [] {
      NonBlankKeepsNonBlank(lines[1..]);
    }
  }

  // ---------------------------------------------------------------------------
  // git status --porcelain classification
  // ---------------------------------------------------------------------------

  datatype Category = Untracked | Conflicted | Modified | Deleted | Staged | Ignored

  /** The precedence-ordered rule over the index status `x` and the worktree status `y`. */
  function Classify(x: char, y: char): (c: Category)
    ensures c == Untracked <==> x == '?' && y == '?'
    ensures c == Conflicted <==> x == 'U' || y == 'U' || (x == 'A' && y == 'A') || (x == 'D' && y == 'D')
    ensures c == Modified <==> y in "MTRC" && x != 'U'
    ensures c == Deleted <==> y == 'D' && x != 'U' && x != 'D'
    ensures c == Staged <==> x in "MTADRC" && y !in "MTRCDU" && !(x == 'A' && y == 'A')
  {
    if x == '?' && y == '?' then Untracked
    else if x == 'U' || y == 'U' || (x == 'A' && y == 'A') || (x == 'D' && y == 'D') then Conflicted
    else if y in "MTRC" then Modified
    else if y == 'D' then Deleted
    else if x in "MTADRC" then Staged
    else Ignored
  }

  /** The five file lists a porcelain listing fills. */
  datatype FileLists = FileLists(
    untracked: seq<string>,
    modified: seq<string>,
    deleted: seq<string>,
    staged: seq<string>,
    conflicted: seq<string>)
  {
    /** The list a category files into; ignored entries have none. */
    function Of(c: Category): seq<string> {
      match c
      case Untracked => untracked
      case Modified => modified
      case Deleted => deleted
      case Staged => staged
      case Conflicted => conflicted
      case Ignored => []
    }

    function Count(): nat {
      |untracked| + |modified| + |deleted| + |staged| + |conflicted|
    }

    /** Appends `file` to the list of category `c`; an ignored entry is dropped. */
    function Add(c: Category, file: string): (r: FileLists)
      ensures forall d :: r.Of(d) == Of(d) + (if d == c && c != Ignored then [file] else [])
    {
      match c
      case Untracked => this.(untracked := untracked + [file])
      case Modified => this.(modified := modified + [file])
      case Deleted => this.(deleted := deleted + [file])
      case Staged => this.(staged := staged + [file])
      case Conflicted => this.(conflicted := conflicted + [file])
      case Ignored => this
    }
  }

  const NoFiles := FileLists([], [], [], [], [])

  /** The outcome of parsing a listing: the lists, and whether every line was handled.
      A non-blank line shorter than three characters makes the source throw, after the
      lines before it have been filed. */
  datatype Parsed = Parsed(files: FileLists, complete: bool)

  /** The loop of ParseStatusAsync from accumulated lists `acc` over the remaining lines. */
  function ParseLinesFrom(acc: FileLists, lines: seq<string>): Parsed
    decreases |lines|
  {
    if lines == [] then Parsed(acc, true)
    else if IsBlank(lines[0]) then ParseLinesFrom(acc, lines[1..])
    else if |lines[0]| < 3 then Parsed(acc, false)
    else ParseLinesFrom(acc.Add(Classify(lines[0][0], lines[0][1]), lines[0][3..]), lines[1..])
  }

  function ParseStatusOutput(output: string): Parsed {
    ParseLinesFrom(NoFiles, Lines(output))
  }

  /** Every non-blank line is long enough to hold "XY " before its path. */
  predicate WellFormed(lines: seq<string>) {
    forall i :: 0 <= i < |lines| ==> IsBlank(lines[i]) || |lines[i]| >= 3
  }

  /** Reference definition: the paths (text from index 3) of the well-formed non-blank
      lines whose status pair falls in category `c`, in input order. */
  function Selected(lines: seq<string>, c: Category): seq<string> {
    if lines == [] then []
    else
      var l := lines[0];
      (if !IsBlank(l) && |l| >= 3 && Classify(l[0], l[1]) == c then [l[3..]] else [])
      + Selected(lines[1..], c)
  }

  lemma WellFormedCons(lines: seq<string>)
    requires lines != []
    ensures WellFormed(lines) <==> (IsBlank(lines[0]) || |lines[0]| >= 3) && WellFormed(lines[1..])
  {
    var tail := lines[1..];
    if (IsBlank(lines[0]) || |lines[0]| >= 3) && WellFormed(tail) {
      forall i | 0 <= i < |lines| ensures IsBlank(lines[i]) || |lines[i]| >= 3 {
        if i > 0 { assert lines[i] == tail[i - 1]; }
      }
    }
  }

  /** Parsing finishes exactly when every non-blank line is long enough. */
  lemma {:induction false} ParseCompletesIffWellFormed(acc: FileLists, lines: seq<string>)
    ensures ParseLinesFrom(acc, lines).complete <==> WellFormed(lines)
    decreases |lines|
  {
    if lines != [] {
      var l := lines[0];
      WellFormedCons(lines);
      if IsBlank(l) {
        ParseCompletesIffWellFormed(acc, lines[1..]);
      } else if |l| >= 3 {
        ParseCompletesIffWellFormed(acc.Add(Classify(l[0], l[1]), l[3..]), lines[1..]);
      }
    }
  }

  /** A parse that finishes appends to each list exactly the selected entries of its category. */
  lemma {:induction false} ParseLinesFromSelects(acc: FileLists, lines: seq<string>)
    requires ParseLinesFrom(acc, lines).complete
    ensures forall c :: c != Ignored ==> ParseLinesFrom(acc, lines).files.Of(c) == acc.Of(c) + Selected(lines, c)
    decreases |lines|
  {
    if lines != [] {
      var l := lines[0];
      var tail := lines[1..];
      if IsBlank(l) {
        ParseLinesFromSelects(acc, tail);
      } else {
        var acc' := acc.Add(Classify(l[0], l[1]), l[3..]);
        ParseLinesFromSelects(acc', tail);
        forall c | c != Ignored
          ensures ParseLinesFrom(acc, lines).files.Of(c) == acc.Of(c) + Selected(lines, c)
        {
          var entry := if Classify(l[0], l[1]) == c then [l[3..]] else [];
          assert acc'.Of(c) == acc.Of(c) + entry;
          assert Selected(lines, c) == entry + Selected(tail, c);
          AppendAssoc(acc.Of(c), entry, Selected(tail, c));
        }
      }
    }
  }

  /** Classification of a whole listing: each list is the reference selection. */
  lemma ParseStatusCharacterisation(output: string)
    ensures ParseStatusOutput(output).complete <==> WellFormed(Lines(output))
    ensures ParseStatusOutput(output).complete ==>
      var f := ParseStatusOutput(output).files;
      && f.untracked == Selected(Lines(output), Untracked)
      && f.modified == Selected(Lines(output), Modified)
      && f.deleted == Selected(Lines(output), Deleted)
      && f.staged == Selected(Lines(output), Staged)
      && f.conflicted == Selected(Lines(output), Conflicted)
  {
    ParseCompletesIffWellFormed(NoFiles, Lines(output));
    if ParseStatusOutput(output).complete {
      ParseLinesFromSelects(NoFiles, Lines(output));
      var f := ParseStatusOutput(output).files;
      assert f.Of(Untracked) == Selected(Lines(output), Untracked);
      assert f.Of(Modified) == Selected(Lines(output), Modified);
      assert f.Of(Deleted) == Selected(Lines(output), Deleted);
      assert f.Of(Staged) == Selected(Lines(output), Staged);
      assert f.Of(Conflicted) == Selected(Lines(output), Conflicted);
    }
  }

  /** Each non-blank line files at most one entry: the five lists together with the
      ignored entries account for every non-blank line exactly once. */
  lemma {:induction false} EachLineFiledOnce(acc: FileLists, lines: seq<string>)
    requires ParseLinesFrom(acc, lines).complete
    ensures ParseLinesFrom(acc, lines).files.Count() + |Selected(lines, Ignored)| == acc.Count() + |NonBlank(lines)|
    decreases |lines|
  {
    if lines != [] {
      var l := lines[0];
      if IsBlank(l) {
        EachLineFiledOnce(acc, lines[1..]);
      } else {
        var c := Classify(l[0], l[1]);
        var acc' := acc.Add(c, l[3..]);
        assert acc'.Count() == acc.Count() + (if c == Ignored then 0 else 1) by {
          assert acc'.Of(c) == acc.Of(c) + (if c != Ignored then [l[3..]] else []);
        }
        EachLineFiledOnce(acc', lines[1..]);
      }
    }
  }

  /** `line` is a status line for `file` in category `c`, with a non-whitespace character at `k`. */
  predicate FilesLine(line: string, k: nat, c: Category, file: string) {
    && |line| >= 3 && k < |line| && line[k] !in WhiteSpace
    && Classify(line[0], line[1]) == c && line[3..] == file
  }

  /** The four lines of the worked example, read character by character. */
  lemma UntrackedExampleLine()
    ensures FilesLine("?? newfile.txt", 0, Untracked, "newfile.txt")
  {
  }

  lemma ModifiedExampleLine()
    ensures FilesLine(" M changed.go", 1, Modified, "changed.go")
  {
  }

  lemma StagedExampleLine()
    ensures FilesLine("D  removed.go", 0, Staged, "removed.go")
  {
  }

  lemma ConflictedExampleLine()
    ensures FilesLine("UU conflict.md", 0, Conflicted, "conflict.md")
  {
  }

  /** The listing of the worked example: one untracked, one modified in the worktree,
      one staged deletion and one both-modified conflict. */
  lemma WorkedExample()
    ensures ParseLinesFrom(NoFiles, ["?? newfile.txt", " M changed.go", "D  removed.go", "UU conflict.md"])
         == Parsed(FileLists(["newfile.txt"], ["changed.go"], [], ["removed.go"], ["conflict.md"]), true)
  {
    var l0, l1, l2, l3 := "?? newfile.txt", " M changed.go", "D  removed.go", "UU conflict.md";
    var a1 := NoFiles.Add(Untracked, "newfile.txt");
    var a2 := a1.Add(Modified, "changed.go");
    var a3 := a2.Add(Staged, "removed.go");
    UntrackedExampleLine();
    ModifiedExampleLine();
    StagedExampleLine();
    ConflictedExampleLine();
    ParseStep(a3, l3, [], 0, Conflicted, "conflict.md");
    ParseStep(a2, l2, [l3], 0, Staged, "removed.go");
    ParseStep(a1, l1, [l2, l3], 1, Modified, "changed.go");
    ParseStep(NoFiles, l0, [l1, l2, l3], 0, Untracked, "newfile.txt");
  }

  /** One step of the loop over a well-formed line with a non-whitespace character at `k`. */
  lemma ParseStep(acc: FileLists, line: string, rest: seq<string>, k: nat, c: Category, file: string)
    requires FilesLine(line, k, c, file)
    ensures ParseLinesFrom(acc, [line] + rest) == ParseLinesFrom(acc.Add(c, file), rest)
  {
    assert !IsBlank(line);
    assert ([line] + rest)[1..] == rest;
  }

  // ---------------------------------------------------------------------------
  // Snapshot of a repository and the pull predicates
  // ---------------------------------------------------------------------------

  /** The standard output of the six git commands a refresh reads, in the order issued:
      status --porcelain, stash list, rev-parse of HEAD, rev-parse of HEAD's upstream,
      log <upstream>..HEAD and log HEAD..<upstream>. */
  datatype GitOutputs = GitOutputs(
    porcelain: string,
    stashList: string,
    localBranch: string,
    upstream: string,
    unpushedLog: string,
    unpulledLog: string)

  /** The observable state of one GitRepositoryStatus. */
  datatype Status = Status(
    repositoryPath: string,
    name: string,
    files: FileLists,
    stashedFiles: seq<string>,
    unpushedCommits: seq<string>,
    unpulledCommits: seq<string>,
    localBranch: string,
    remoteBranch: string)
  {
    /** Commits on the upstream not yet pulled. */
    predicate HasRemoteUpdates() {
      |unpulledCommits| > 0
    }

    /** Both branches set and nothing local (files, stash, unpushed commits) that a pull could disturb. */
    predicate IsSafeToPull() {
      if IsBlank(localBranch) || IsBlank(remoteBranch) then false
      else
        && |files.untracked| == 0
        && |files.modified| == 0
        && |files.deleted| == 0
        && |files.staged| == 0
        && |files.conflicted| == 0
        && |stashedFiles| == 0
        && |unpushedCommits| == 0
    }

    /** Number of local findings that block a pull. */
    function LocalChanges(): nat {
      files.Count() + |stashedFiles| + |unpushedCommits|
    }
  }

  /** The state a successful refresh leaves, computed from the command outputs alone. */
  function Refreshed(repositoryPath: string, name: string, outs: GitOutputs): Status {
    var remote := Trim(outs.upstream);
    Status(
      repositoryPath, name,
      ParseStatusOutput(outs.porcelain).files,
      NonBlankLines(outs.stashList),
      if IsBlank(remote) then [] else NonBlankLines(outs.unpushedLog),
      if IsBlank(remote) then [] else NonBlankLines(outs.unpulledLog),
      Trim(outs.localBranch),
      remote)
  }

  /** Without an upstream there is no remote branch, no unpushed and no unpulled commit,
      so the repository is neither safe to pull nor behind. */
  lemma NoUpstreamNoCommits(repositoryPath: string, name: string, outs: GitOutputs)
    requires IsBlank(outs.upstream)
    ensures var s := Refreshed(repositoryPath, name, outs);
      s.remoteBranch == [] && s.unpushedCommits == [] && s.unpulledCommits == []
      && !s.IsSafeToPull() && !s.HasRemoteUpdates()
  {
    TrimSpec(outs.upstream);
  }

  /** After a refresh, safety to pull means: both trimmed branch names non-empty and no
      local change of any kind. */
  lemma SafeToPullAfterRefresh(repositoryPath: string, name: string, outs: GitOutputs)
    ensures var s := Refreshed(repositoryPath, name, outs);
      s.IsSafeToPull() <==> s.localBranch != [] && s.remoteBranch != [] && s.LocalChanges() == 0
  {
    TrimmedBlankIsEmpty(outs.localBranch);
    TrimmedBlankIsEmpty(outs.upstream);
  }

  /** Unpulled commits never decide safety: a clean repository is safe however far behind it is. */
  lemma SafeToPullIgnoresUnpulled(s: Status, unpulled: seq<string>)
    ensures s.(unpulledCommits := unpulled).IsSafeToPull() == s.IsSafeToPull()
  {
  }

  /** A clean repository with both branches set and unpulled commits is offered a pull. */
  lemma CleanAndBehindIsPullCandidate(s: Status)
    requires !IsBlank(s.localBranch) && !IsBlank(s.remoteBranch)
    requires s.LocalChanges() == 0 && |s.unpulledCommits| > 0
    ensures s.IsSafeToPull() && s.HasRemoteUpdates()
  {
  }

  // ---------------------------------------------------------------------------
  // Upstream name split (fetch and PullCommitsAsync)
  // ---------------------------------------------------------------------------

  /** RemoteBranch.Split('/')[0]: the text before the first '/'. */
  function RemoteName(remoteBranch: string): (r: string)
    ensures |r| <= |remoteBranch| && r == remoteBranch[..|r|]
    ensures '/' !in r
    ensures |r| < |remoteBranch| ==> remoteBranch[|r|] == '/'
  {
    if remoteBranch == [] || remoteBranch[0] == '/' then [] else [remoteBranch[0]] + RemoteName(remoteBranch[1..])
  }

  /** InvalidOperationException for a blank remote branch; ArgumentOutOfRangeException from
      Substring when the name has no '/'. */
  datatype PullError = NoRemoteBranch | NoSlashInRemoteBranch

  /** The (remote, branch) pair PullCommitsAsync passes to `git pull`. */
  function PullTarget(remoteBranch: string): (r: Result<(string, string), PullError>)
    ensures r == Failure(NoRemoteBranch) <==> IsBlank(remoteBranch)
    ensures r == Failure(NoSlashInRemoteBranch) <==> !IsBlank(remoteBranch) && '/' !in remoteBranch
    ensures r.Success? ==>
      var (remote, branch) := r.value;
      remote + "/" + branch == remoteBranch && '/' !in remote && remote == RemoteName(remoteBranch)
  {
    if IsBlank(remoteBranch) then Failure(NoRemoteBranch)
    else
      var remote := RemoteName(remoteBranch);
      if |remote| + 1 > |remoteBranch| then Failure(NoSlashInRemoteBranch)
      else
        assert remoteBranch == remote + "/" + remoteBranch[|remote| + 1..];
        Success((remote, remoteBranch[|remote| + 1..]))
  }

  // ---------------------------------------------------------------------------
  // The mutable object
  // ---------------------------------------------------------------------------

  class GitRepositoryStatus {
    const repositoryPath: string
    const name: string
    var untrackedFiles: seq<string>
    var modifiedFiles: seq<string>
    var deletedFiles: seq<string>
    var stagedFiles: seq<string>
    var conflictedFiles: seq<string>
    var stashedFiles: seq<string>
    var unpushedCommits: seq<string>
    var unpulledCommits: seq<string>
    var localBranch: string
    var remoteBranch: string

    function Files(): FileLists
      reads this`untrackedFiles, this`modifiedFiles, this`deletedFiles, this`stagedFiles, this`conflictedFiles
    {
      FileLists(untrackedFiles, modifiedFiles, deletedFiles, stagedFiles, conflictedFiles)
    }

    function View(): Status
      reads this
    {
      Status(repositoryPath, name, Files(), stashedFiles, unpushedCommits, unpulledCommits, localBranch, remoteBranch)
    }

    /** A new status: named after the path's last segment, every list and both branches empty. */
    constructor (repoPath: string, sep: char, altSep: char)
      ensures View() == Status(repoPath, PathUtil.LastSegment(repoPath, sep, altSep), NoFiles, [], [], [], "", "")
    {
      repositoryPath := repoPath;
      name := PathUtil.LastSegment(repoPath, sep, altSep);
      untrackedFiles, modifiedFiles, deletedFiles, stagedFiles, conflictedFiles := [], [], [], [], [];
      stashedFiles, unpushedCommits, unpulledCommits := [], [], [];
      localBranch, remoteBranch := "", "";
    }

    /** ParseStatusAsync: clears the five file lists and refills them from the porcelain
        listing. `ok` is false where the source throws on a too-short line; the lines
        before it stay filed. */
    method ParseStatus(output: string) returns (ok: bool)
      modifies this`untrackedFiles, this`modifiedFiles, this`deletedFiles, this`stagedFiles, this`conflictedFiles
      ensures Files() == ParseStatusOutput(output).files
      ensures ok == ParseStatusOutput(output).complete
    {
      untrackedFiles, modifiedFiles, deletedFiles, stagedFiles, conflictedFiles := [], [], [], [], [];
      var lines := ReadLines(output);
      var i := 0;
      while i < |lines|
        invariant 0 <= i <= |lines|
        invariant ParseLinesFrom(Files(), lines[i..]) == ParseStatusOutput(output)
      {
        var line := lines[i];
        assert lines[i..][1..] == lines[i + 1..];
        if !IsBlank(line) {
          if |line| < 3 {
            return false;
          }
          var x, y, file := line[0], line[1], line[3..];
          if x == '?' && y == '?' {
            untrackedFiles := untrackedFiles + [file];
          } else if x == 'U' || y == 'U' || (x == 'A' && y == 'A') || (x == 'D' && y == 'D') {
            conflictedFiles := conflictedFiles + [file];
          } else if y in "MTRC" {
            modifiedFiles := modifiedFiles + [file];
          } else if y == 'D' {
            deletedFiles := deletedFiles + [file];
          } else if x in "MTADRC" {
            stagedFiles := stagedFiles + [file];
          }
        }
        i := i + 1;
      }
      return true;
    }

    /** GetStashedFilesAsync: the stash list is replaced by the non-blank lines of `output`. */
    method GetStashedFiles(output: string)
      modifies this`stashedFiles
      ensures stashedFiles == NonBlankLines(output)
    {
      stashedFiles := [];
      var kept := KeepNonBlankLines(output);
      stashedFiles := stashedFiles + kept;
    }

    /** GetBranchesAsync: both branch names are the trimmed command outputs. */
    method GetBranches(localOutput: string, upstreamOutput: string)
      modifies this`localBranch, this`remoteBranch
      ensures localBranch == Trim(localOutput) && remoteBranch == Trim(upstreamOutput)
    {
      localBranch := Trim(localOutput);
      remoteBranch := Trim(upstreamOutput);
    }

    /** GetUnpushedCommitsAsync: empty without a remote branch, else the non-blank log lines. */
    method GetUnpushedCommits(logOutput: string)
      modifies this`unpushedCommits
      ensures unpushedCommits == if IsBlank(remoteBranch) then [] else NonBlankLines(logOutput)
    {
      unpushedCommits := [];
      if IsBlank(remoteBranch) {
        return;
      }
      var kept := KeepNonBlankLines(logOutput);
      unpushedCommits := unpushedCommits + kept;
    }

    /** GetUnpulledCommitsAsync: empty without a remote branch, else the non-blank log lines.
        `fetched` is the remote the source fetches first (none without a remote branch). */
    method GetUnpulledCommits(logOutput: string) returns (fetched: Option<string>)
      modifies this`unpulledCommits
      ensures unpulledCommits == if IsBlank(remoteBranch) then [] else NonBlankLines(logOutput)
      ensures fetched == if IsBlank(remoteBranch) then None else Some(RemoteName(remoteBranch))
    {
      unpulledCommits := [];
      if IsBlank(remoteBranch) {
        return None;
      }
      var remoteName := RemoteName(remoteBranch);
      fetched := Some(remoteName);
      var kept := KeepNonBlankLines(logOutput);
      unpulledCommits := unpulledCommits + kept;
    }

    /** RefreshStatusAsync: the five steps in order. A successful refresh replaces the whole
        state by a function of the outputs alone; a too-short porcelain line stops it after
        the file lists, leaving everything else as it was. */
    method Refresh(outs: GitOutputs) returns (ok: bool)
      modifies this
      ensures ok == ParseStatusOutput(outs.porcelain).complete
      ensures ok ==> View() == Refreshed(repositoryPath, name, outs)
      ensures !ok ==> View() == old(View()).(files := ParseStatusOutput(outs.porcelain).files)
    {
      ok := ParseStatus(outs.porcelain);
      if !ok {
        return;
      }
      GetStashedFiles(outs.stashList);
      GetBranches(outs.localBranch, outs.upstream);
      GetUnpushedCommits(outs.unpushedLog);
      var _ := GetUnpulledCommits(outs.unpulledLog);
    }
  }
}
