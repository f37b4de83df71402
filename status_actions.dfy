/**
 * GitRepositoryStatusActions.AnalyzeAndReport: the coloured report of one repository,
 * queued on the console writer as a single batch, or nothing when there is nothing to do.
 *
 * Environment.NewLine is the parameter `nl`.
 */
module StatusActions {
  import opened Wrappers
  import opened Strings
  import opened ConsoleOutput
  import opened RepositoryStatus

  /** "Repository: ", the name in white on blue, then " (<path>)" and a line break. */
  function Header(s: Status, nl: string): Batch {
    [Plain("Repository: "), Chunk(s.name, Some(White), Some(Blue)), Plain(" (" + s.repositoryPath + ")" + nl)]
  }

  /** The red line reported when a branch is missing. */
  function MissingBranch(which: string, nl: string): Chunk {
    Chunk(which + " branch is not set or could not be determined." + nl, Some(Red), None)
  }

  /** One entry of a list: indented, prefixed with its tag, in yellow. */
  function ItemLine(item: string, prefix: string, nl: string): Chunk {
    Chunk("    " + prefix + item + nl, Some(Yellow), None)
  }

  /** The entries of a list, one chunk each, in order. */
  function ItemLines(items: seq<string>, prefix: string, nl: string): (r: seq<Chunk>)
    ensures |r| == |items|
    ensures forall i :: 0 <= i < |items| ==> r[i] == ItemLine(items[i], prefix, nl)
  {
    if items == [] then []
    else ItemLines(items[..|items| - 1], prefix, nl) + [ItemLine(items[|items| - 1], prefix, nl)]
  }

  /** AddList's output: nothing for an empty list, otherwise "<caption>: <count>" and the entries. */
  function ListSection(caption: string, items: seq<string>, prefix: string, nl: string): (r: seq<Chunk>)
    ensures r == [] <==> items == []
    ensures items != [] ==> |r| == |items| + 1
  {
    if |items| == 0 then []
    else [Plain(caption + ": " + DecimalString(|items|) + nl)] + ItemLines(items, prefix, nl)
  }

  /** The eight lists in the order AnalyzeAndReport visits them. */
  function Sections(s: Status, nl: string): seq<Chunk> {
    ListSection("Untracked files", s.files.untracked, "[untracked] ", nl)
    + ListSection("Modified files", s.files.modified, "[modified] ", nl)
    + ListSection("Deleted files", s.files.deleted, "[deleted] ", nl)
    + ListSection("Staged files", s.files.staged, "[staged] ", nl)
    + ListSection("Conflicted files", s.files.conflicted, "[conflicted] ", nl)
    + ListSection("Stashed entries", s.stashedFiles, "[stashed] ", nl)
    + ListSection("Unpushed commits", s.unpushedCommits, "[unpushed] ", nl)
    + ListSection("Unpulled commits", s.unpulledCommits, "[unpulled] ", nl)
  }

  /** Whether any of the eight lists has an entry (AnalyzeAndReport's anyActionRequired). */
  predicate AnyActionRequired(s: Status) {
    || s.files.untracked != [] || s.files.modified != [] || s.files.deleted != []
    || s.files.staged != [] || s.files.conflicted != [] || s.stashedFiles != []
    || s.unpushedCommits != [] || s.unpulledCommits != []
  }

  /** The batch AnalyzeAndReport queues for a status, or None when it queues nothing. */
  function Report(s: Status, nl: string): Option<Batch> {
    if IsBlank(s.localBranch) then Some(Header(s, nl) + [MissingBranch("Local", nl)])
    else if IsBlank(s.remoteBranch) then Some(Header(s, nl) + [MissingBranch("Remote", nl)])
    else if !AnyActionRequired(s) then None
    else Some(Header(s, nl)
              + [Plain("Local Branch: " + s.localBranch + nl), Plain("Remote Branch: " + s.remoteBranch + nl)]
              + Sections(s, nl))
  }

  /** A non-empty section opens with "<caption>: " and a count whose digits read back as
      the number of entries, followed by exactly the entry lines. */
  lemma SectionCountReadsBack(caption: string, items: seq<string>, prefix: string, nl: string)
    requires items != []
    ensures var section := ListSection(caption, items, prefix, nl);
      var text := section[0].text;
      && |text| > |caption| + 2 + |nl|
      && text[..|caption| + 2] == caption + ": "
      && text[|text| - |nl|..] == nl
      && IsDigits(text[|caption| + 2..|text| - |nl|])
      && DecimalValue(text[|caption| + 2..|text| - |nl|]) == |items|
      && section[0].fg.None? && section[1..] == ItemLines(items, prefix, nl)
  {
    var digits := DecimalString(|items|);
    var text := caption + ": " + digits + nl;
    assert text[..|caption| + 2] == caption + ": ";
    assert text[|caption| + 2..|text| - |nl|] == digits;
    assert text[|text| - |nl|..] == nl;
    DecimalRoundTrip(|items|);
  }

  /** The sections are empty exactly when no list has an entry. */
  lemma SectionsEmpty(s: Status, nl: string)
    ensures Sections(s, nl) == [] <==> !AnyActionRequired(s)
  {
  }

  /** The report is withheld exactly for a repository that is safe to pull and has nothing
      to pull: every other status, including one with a missing branch, is reported. */
  lemma ReportSilentIffUpToDate(s: Status, nl: string)
    ensures Report(s, nl).None? <==> s.IsSafeToPull() && !s.HasRemoteUpdates()
  {
  }

  /** Every queued report opens with the repository header, and a missing branch makes a
      four-chunk report that ends in the red message for the local branch first. */
  lemma ReportShape(s: Status, nl: string)
    ensures Report(s, nl).Some? ==> |Report(s, nl).value| >= 4 && Report(s, nl).value[..3] == Header(s, nl)
    ensures IsBlank(s.localBranch) || IsBlank(s.remoteBranch)
        ==> Report(s, nl).Some? && |Report(s, nl).value| == 4
            && Report(s, nl).value[3].fg == Some(Red)
            && Report(s, nl).value[3] == MissingBranch(if IsBlank(s.localBranch) then "Local" else "Remote", nl)
  {
    if Report(s, nl).Some? && !IsBlank(s.localBranch) && !IsBlank(s.remoteBranch) {
      SectionsEmpty(s, nl);
    }
  }

  // ---------------------------------------------------------------------------
  // What the reader sees highlighted: the yellow entries
  // ---------------------------------------------------------------------------

  /** The texts of the yellow chunks, in order. */
  function Highlighted(b: seq<Chunk>): seq<string> {
    if b == [] then []
    else (if b[0].fg == Some(Yellow) then [b[0].text] else []) + Highlighted(b[1..])
  }

  lemma {:induction false} HighlightedAppend(a: seq<Chunk>, b: seq<Chunk>)
    ensures Highlighted(a + b) == Highlighted(a) + Highlighted(b)
  {
    if a != [] {
      assert (a + b)[0] == a[0];
      assert (a + b)[1..] == a[1..] + b;
      HighlightedAppend(a[1..], b);
    } else {
      assert a + b == b;
    }
  }

  /** Chunks in any colour but yellow highlight nothing. */
  lemma {:induction false} NothingHighlighted(b: seq<Chunk>)
    requires forall i :: 0 <= i < |b| ==> b[i].fg != Some(Yellow)
    ensures Highlighted(b) == []
  {
    if b != [] {
      NothingHighlighted(b[1..]);
    }
  }

  /** Each entry of a list as the report prints it. */
  function Formatted(items: seq<string>, prefix: string, nl: string): (r: seq<string>)
    ensures |r| == |items|
  {
    seq(|items|, i requires 0 <= i < |items| => "    " + prefix + items[i] + nl)
  }

  lemma {:induction false} HighlightedItemLines(items: seq<string>, prefix: string, nl: string)
    ensures Highlighted(ItemLines(items, prefix, nl)) == Formatted(items, prefix, nl)
  {
    if items != [] {
      var front := items[..|items| - 1];
      HighlightedItemLines(front, prefix, nl);
      HighlightedAppend(ItemLines(front, prefix, nl), [ItemLine(items[|items| - 1], prefix, nl)]);
      assert Highlighted([ItemLine(items[|items| - 1], prefix, nl)]) == ["    " + prefix + items[|items| - 1] + nl];
      assert Formatted(items, prefix, nl) == Formatted(front, prefix, nl) + ["    " + prefix + items[|items| - 1] + nl];
    }
  }

  /** The highlighted text of one section is its entries, formatted, and nothing else. */
  lemma HighlightedSection(caption: string, items: seq<string>, prefix: string, nl: string)
    ensures Highlighted(ListSection(caption, items, prefix, nl)) == Formatted(items, prefix, nl)
  {
    HighlightedItemLines(items, prefix, nl);
    if items != [] {
      var count := Plain(caption + ": " + DecimalString(|items|) + nl);
      HighlightedAppend([count], ItemLines(items, prefix, nl));
      assert Highlighted([count]) == [];
    }
  }

  /** A report for a repository with both branches lists, in yellow, every untracked,
      modified, deleted, staged and conflicted file, every stash entry and every unpushed
      and unpulled commit, each exactly once and in that order, and nothing else. */
  lemma ReportHighlightsEveryEntry(s: Status, nl: string)
    requires Report(s, nl).Some? && !IsBlank(s.localBranch) && !IsBlank(s.remoteBranch)
    ensures Highlighted(Report(s, nl).value)
         == Formatted(s.files.untracked, "[untracked] ", nl)
          + Formatted(s.files.modified, "[modified] ", nl)
          + Formatted(s.files.deleted, "[deleted] ", nl)
          + Formatted(s.files.staged, "[staged] ", nl)
          + Formatted(s.files.conflicted, "[conflicted] ", nl)
          + Formatted(s.stashedFiles, "[stashed] ", nl)
          + Formatted(s.unpushedCommits, "[unpushed] ", nl)
          + Formatted(s.unpulledCommits, "[unpulled] ", nl)
  {
    var s1 := ListSection("Untracked files", s.files.untracked, "[untracked] ", nl);
    var s2 := ListSection("Modified files", s.files.modified, "[modified] ", nl);
    var s3 := ListSection("Deleted files", s.files.deleted, "[deleted] ", nl);
    var s4 := ListSection("Staged files", s.files.staged, "[staged] ", nl);
    var s5 := ListSection("Conflicted files", s.files.conflicted, "[conflicted] ", nl);
    var s6 := ListSection("Stashed entries", s.stashedFiles, "[stashed] ", nl);
    var s7 := ListSection("Unpushed commits", s.unpushedCommits, "[unpushed] ", nl);
    var s8 := ListSection("Unpulled commits", s.unpulledCommits, "[unpulled] ", nl);
    var head := Header(s, nl)
      + [Plain("Local Branch: " + s.localBranch + nl), Plain("Remote Branch: " + s.remoteBranch + nl)];
    NothingHighlighted(head);
    HighlightedSection("Untracked files", s.files.untracked, "[untracked] ", nl);
    HighlightedSection("Modified files", s.files.modified, "[modified] ", nl);
    HighlightedSection("Deleted files", s.files.deleted, "[deleted] ", nl);
    HighlightedSection("Staged files", s.files.staged, "[staged] ", nl);
    HighlightedSection("Conflicted files", s.files.conflicted, "[conflicted] ", nl);
    HighlightedSection("Stashed entries", s.stashedFiles, "[stashed] ", nl);
    HighlightedSection("Unpushed commits", s.unpushedCommits, "[unpushed] ", nl);
    HighlightedSection("Unpulled commits", s.unpulledCommits, "[unpulled] ", nl);
    HighlightedAppend(head, s1 + s2 + s3 + s4 + s5 + s6 + s7 + s8);
    HighlightedAppend(s1 + s2 + s3 + s4 + s5 + s6 + s7, s8);
    HighlightedAppend(s1 + s2 + s3 + s4 + s5 + s6, s7);
    HighlightedAppend(s1 + s2 + s3 + s4 + s5, s6);
    HighlightedAppend(s1 + s2 + s3 + s4, s5);
    HighlightedAppend(s1 + s2 + s3, s4);
    HighlightedAppend(s1 + s2, s3);
    HighlightedAppend(s1, s2);
  }

  // ---------------------------------------------------------------------------
  // The imperative report builder
  // ---------------------------------------------------------------------------

  /** AddList: appends one list's section to the chunks and raises the action flag when
      the list has entries. */
  method AddList(chunks: seq<Chunk>, anyActionRequired: bool, caption: string, items: seq<string>,
                 prefix: string, nl: string)
    returns (chunks': seq<Chunk>, anyActionRequired': bool)
    ensures chunks' == chunks + ListSection(caption, items, prefix, nl)
    ensures anyActionRequired' == (anyActionRequired || items != [])
  {
    chunks', anyActionRequired' := chunks, anyActionRequired;
    if |items| == 0 {
      return;
    }
    anyActionRequired' := true;
    chunks' := chunks' + [Plain(caption + ": " + DecimalString(|items|) + nl)];
    var i := 0;
    while i < |items|
      invariant 0 <= i <= |items|
      invariant chunks' == chunks + [Plain(caption + ": " + DecimalString(|items|) + nl)] + ItemLines(items[..i], prefix, nl)
    {
      assert items[..i + 1][..i] == items[..i];
      chunks' := chunks' + [ItemLine(items[i], prefix, nl)];
      i := i + 1;
    }
    assert items[..|items|] == items;
  }

  /** AnalyzeAndReport: builds the report of the status and queues it as one batch, unless
      there is nothing to report. */
  method AnalyzeAndReport(status: GitRepositoryStatus, writer: ConsoleWriter, nl: string)
    modifies writer
    ensures var r := Report(status.View(), nl);
      writer.batches == old(writer.batches) + (if r.Some? then [r.value] else [])
  {
    ghost var s := status.View();
    var chunks := [Plain("Repository: "), Chunk(status.name, Some(White), Some(Blue)),
                   Plain(" (" + status.repositoryPath + ")" + nl)];
    assert chunks == Header(s, nl);
    var anyActionRequired := false;

    if IsBlank(status.localBranch) {
      chunks := chunks + [MissingBranch("Local", nl)];
      writer.EnqueueChunks(chunks);
      return;
    }
    if IsBlank(status.remoteBranch) {
      chunks := chunks + [MissingBranch("Remote", nl)];
      writer.EnqueueChunks(chunks);
      return;
    }

    chunks := chunks + [Plain("Local Branch: " + status.localBranch + nl)];
    chunks := chunks + [Plain("Remote Branch: " + status.remoteBranch + nl)];
    ghost var head := chunks;
    assert head == Header(s, nl) + [Plain("Local Branch: " + s.localBranch + nl), Plain("Remote Branch: " + s.remoteBranch + nl)];

    chunks, anyActionRequired := AddList(chunks, anyActionRequired, "Untracked files", status.untrackedFiles, "[untracked] ", nl);
    ghost var body := ListSection("Untracked files", s.files.untracked, "[untracked] ", nl);
    ghost var section := ListSection("Modified files", s.files.modified, "[modified] ", nl);
    chunks, anyActionRequired := AddList(chunks, anyActionRequired, "Modified files", status.modifiedFiles, "[modified] ", nl);
    AppendAssoc(head, body, section);
    body := body + section;
    section := ListSection("Deleted files", s.files.deleted, "[deleted] ", nl);
    chunks, anyActionRequired := AddList(chunks, anyActionRequired, "Deleted files", status.deletedFiles, "[deleted] ", nl);
    AppendAssoc(head, body, section);
    body := body + section;
    section := ListSection("Staged files", s.files.staged, "[staged] ", nl);
    chunks, anyActionRequired := AddList(chunks, anyActionRequired, "Staged files", status.stagedFiles, "[staged] ", nl);
    AppendAssoc(head, body, section);
    body := body + section;
    section := ListSection("Conflicted files", s.files.conflicted, "[conflicted] ", nl);
    chunks, anyActionRequired := AddList(chunks, anyActionRequired, "Conflicted files", status.conflictedFiles, "[conflicted] ", nl);
    AppendAssoc(head, body, section);
    body := body + section;
    section := ListSection("Stashed entries", s.stashedFiles, "[stashed] ", nl);
    chunks, anyActionRequired := AddList(chunks, anyActionRequired, "Stashed entries", status.stashedFiles, "[stashed] ", nl);
    AppendAssoc(head, body, section);
    body := body + section;
    section := ListSection("Unpushed commits", s.unpushedCommits, "[unpushed] ", nl);
    chunks, anyActionRequired := AddList(chunks, anyActionRequired, "Unpushed commits", status.unpushedCommits, "[unpushed] ", nl);
    AppendAssoc(head, body, section);
    body := body + section;
    section := ListSection("Unpulled commits", s.unpulledCommits, "[unpulled] ", nl);
    chunks, anyActionRequired := AddList(chunks, anyActionRequired, "Unpulled commits", status.unpulledCommits, "[unpulled] ", nl);
    AppendAssoc(head, body, section);
    body := body + section;

    assert anyActionRequired == AnyActionRequired(s);
    if !anyActionRequired {
      return;
    }
    assert chunks == head + body;
    assert body == Sections(s, nl);
    writer.EnqueueChunks(chunks);
  }
}
