# gitSync repository status, in Dafny

This project models the part of gitSync that decides what state a local git
repository is in and what to report about it:

- **`GitRepositoryStatus`** is a class with the repository path, its name, eight
  string lists and two branch names. A refresh runs five steps against the
  repository:
  - `git status --porcelain` files each changed path into one of five lists
    (untracked, modified, deleted, staged, conflicted);
  - `git stash list` fills the stash list;
  - `git rev-parse` gives the local and upstream branch names;
  - `git log` in both directions gives the unpushed and unpulled commits.

  The two predicates `IsSafeToPull` and `HasRemoteUpdates` decide whether the
  repository may be pulled. `PullCommitsAsync` splits the upstream name into a
  remote and a branch.
- **`GitRepositoryStatusActions.AnalyzeAndReport`** builds a coloured report as a
  list of chunks. It queues the report on the console writer as a single batch,
  or queues nothing when there is nothing to do.
- **`PathUtil.GetRepoNameFromPath`** checks a path and takes its last segment,
  ignoring trailing separators. The constructor names a repository with the same
  expression, without the checks.

Every git command is replaced by its captured standard output, passed in as a
string. The `GitOutputs` datatype holds the six outputs of one refresh. Given
those outputs, a refresh is a deterministic update of the object.

The model is split into these modules:

| Module | File | Contents |
|---|---|---|
| `Wrappers` | `wrappers.dfy` | `Option` and `Result` |
| `Strings` | `strings.dfy` | `Char.IsWhiteSpace` as its fixed set of characters; `string.Trim` and `TrimEnd`; `string.IsNullOrWhiteSpace`; decimal rendering of a count |
| `PathUtil` | `path_util.dfy` | `Path.GetFileName` and `GetRepoNameFromPath` |
| `RepositoryStatus` | `repository_status.dfy` | see below |
| `ConsoleOutput` | `console_output.dfy` | chunks, colours and the writer's queue of batches |
| `StatusActions` | `status_actions.dfy` | see below |

`RepositoryStatus` contains:
- line splitting as `StringReader.ReadLine` performs it;
- the porcelain classification and the reference selection it is proved against;
- the value snapshot `Status` with the two pull predicates;
- the split of the upstream name;
- the class `GitRepositoryStatus` with one method per refresh step.

`StatusActions` contains:
- the report as a function, `Report`;
- the imperative `AnalyzeAndReport` and `AddList`, proved to queue exactly that report;
- lemmas about what the report shows.

Each class method is proved against a specification function:
- `ReadLines` against `Lines`;
- `ParseStatus` against `ParseStatusOutput`;
- the log and stash readers against `NonBlankLines`;
- `Refresh` against `Refreshed`;
- `AnalyzeAndReport` against `Report`.

The lemmas then state what the source promises about those functions.

## Model

| member | source | states |
|---|---|---|
| `Strings.TrimStartSpec` | src/gitSyncApp/GitRepositoryStatus.cs:133-134 | Trim's front half drops a run of whitespace from the front and stops at the first non-whitespace character. |
| `Strings.TrimEndSpec` | src/gitSyncApp/PathUtil.cs:14 | `TrimEnd(chars)` drops trailing characters of the given set, keeps a prefix, and stops at a character outside the set. |
| `Strings.TrimSpec` | src/gitSyncApp/GitRepositoryStatus.cs:133-134 | A trimmed branch name is empty exactly when the output was blank. Otherwise it neither starts nor ends with whitespace, and it is never longer than the output. |
| `Strings.TrimIdempotent` | src/gitSyncApp/GitRepositoryStatus.cs:133-134 | Trimming a trimmed branch name changes nothing. |
| `Strings.TrimmedBlankIsEmpty` | src/gitSyncApp/GitRepositoryStatus.cs:182 | For a trimmed name, `IsNullOrWhiteSpace` is the same as being empty. |
| `Strings.TrimEndIgnoresTrimmedTail` | src/gitSyncApp/PathUtil.cs:14 | Appending characters that `TrimEnd` removes does not change what `TrimEnd` returns. |
| `Strings.DecimalString` | src/gitSyncApp/GitRepositoryStatusActions.cs:46 | A count renders as a non-empty string of digits that starts with '0' only for zero. |
| `Strings.DecimalRoundTrip` | src/gitSyncApp/GitRepositoryStatusActions.cs:46 | Reading the rendered count back as a decimal gives the count. |
| `PathUtil.GetRepoNameFromPath` | src/gitSyncApp/PathUtil.cs:8-15 | A blank path fails with BlankPath. A path that is not blank but not fully qualified fails with NotFullyQualified. The call succeeds exactly when neither check fails, and then returns the last segment of the path once trailing separators are trimmed. |
| `PathUtil.FileNameSpec` | src/gitSyncApp/PathUtil.cs:14 | `Path.GetFileName` is the longest suffix without a separator: a suffix of the path with no separator in it, and either the whole path or preceded by a separator. |
| `PathUtil.LastSegmentSpec` | src/gitSyncApp/PathUtil.cs:14 | The repository name has no separator. It ends the trimmed path, which does not end in a separator, and it starts that path or follows a separator. |
| `PathUtil.TrailingSeparatorsIgnored` | src/gitSyncApp/PathUtil.cs:14 | Appending any number of separators to a valid path, provided the result is still fully qualified, leaves the returned name unchanged. |
| `RepositoryStatus.LineEndSpec` | src/gitSyncApp/GitRepositoryStatus.cs:41-47 | A line that starts at a given position stops exactly at the first '\r' or '\n' at or after it, or at the end of the text. |
| `RepositoryStatus.LinesHaveNoBreak` | src/gitSyncApp/GitRepositoryStatus.cs:41-47 | No line that `ReadLines` yields contains a line break. |
| `RepositoryStatus.FindLineEnd` | src/gitSyncApp/GitRepositoryStatus.cs:45 | The scan for the end of the current line stops at the first break at or after the start position, or at the end of the text. |
| `RepositoryStatus.ReadLines` | src/gitSyncApp/GitRepositoryStatus.cs:41-47 | The loop over `ReadLine` returns exactly `Lines(text)`. "\r\n", "\r" and "\n" each end a line, and a final break does not start an empty line. |
| `RepositoryStatus.LinesOfJoinTerminated` | src/gitSyncApp/GitRepositoryStatus.cs:41-47 | Splitting output that was written one line at a time, each line ending in "\n" or "\r\n", gives back exactly those lines. |
| `RepositoryStatus.KeepNonBlankLines` | src/gitSyncApp/GitRepositoryStatus.cs:118-121 | The loop shared by the stash and log readers keeps every line that is not null or whitespace, verbatim and in order. Its result is `NonBlankLines(text)`. |
| `RepositoryStatus.NonBlankLinesRoundTrip` | src/gitSyncApp/GitRepositoryStatus.cs:118-121 | Output written one entry per line, with no blank entry, reads back as exactly those entries. |
| `RepositoryStatus.Classify` | src/gitSyncApp/GitRepositoryStatus.cs:102-106 | Each category as a closed-form condition on X and Y. Untracked is exactly `??`. Conflicted is a U on either side, `AA` or `DD`. Modified is Y in MTRC without X = U. Deleted is Y = D with X neither U nor D. Staged is X in MTADRC with Y outside MTRCDU and not `AA`. This is the precedence order made explicit, so `DD` is conflicted and `MM` is modified. |
| `RepositoryStatus.FileLists.Add` | src/gitSyncApp/GitRepositoryStatus.cs:102-106 | Filing a path appends it to the list of its category and leaves every other list unchanged. An ignored entry changes nothing. |
| `RepositoryStatus.ParseCompletesIffWellFormed` | src/gitSyncApp/GitRepositoryStatus.cs:96-106 | The loop completes exactly when every non-blank line has at least three characters. |
| `RepositoryStatus.ParseLinesFromSelects` | src/gitSyncApp/GitRepositoryStatus.cs:96-106 | When the loop completes, each list gains exactly the reference selection of its category, in input order. |
| `RepositoryStatus.ParseStatusCharacterisation` | src/gitSyncApp/GitRepositoryStatus.cs:96-106 | For a whole porcelain listing, each of the five lists equals the paths (text from index 3) of the lines of its category, in order. |
| `RepositoryStatus.EachLineFiledOnce` | src/gitSyncApp/GitRepositoryStatus.cs:96-106 | Each non-blank line contributes at most one entry across the five lists. The entries plus the dropped lines account for every non-blank line exactly once. |
| `RepositoryStatus.WorkedExample` | src/gitSyncApp/GitRepositoryStatus.cs:96-106 | The lines `?? newfile.txt`, ` M changed.go`, `D  removed.go` and `UU conflict.md` give untracked [newfile.txt], modified [changed.go], deleted [], staged [removed.go] and conflicted [conflict.md]. |
| `RepositoryStatus.NoUpstreamNoCommits` | src/gitSyncApp/GitRepositoryStatus.cs:141-171 | With blank upstream output, the refreshed status has an empty remote branch and no unpushed and no unpulled commits. It is then neither safe to pull nor behind. |
| `RepositoryStatus.SafeToPullAfterRefresh` | src/gitSyncApp/GitRepositoryStatus.cs:179-196 | After a refresh, a repository is safe to pull exactly when both trimmed branch names are non-empty and there is no local file, stash entry or unpushed commit. |
| `RepositoryStatus.SafeToPullIgnoresUnpulled` | src/gitSyncApp/GitRepositoryStatus.cs:179-196 | Unpulled commits never change whether the repository is safe to pull. |
| `RepositoryStatus.CleanAndBehindIsPullCandidate` | src/gitSyncApp/GitRepositoryStatus.cs:173-196 | With both branches set, no local change and at least one unpulled commit, the repository is safe to pull and has remote updates. |
| `RepositoryStatus.RemoteName` | src/gitSyncApp/GitRepositoryStatus.cs:164 | `Split('/')[0]` is the longest prefix without '/', followed by '/' unless it is the whole name. |
| `RepositoryStatus.PullTarget` | src/gitSyncApp/GitRepositoryStatus.cs:199-206 | A blank remote branch fails with NoRemoteBranch, and only a blank one does. A non-blank name without '/' fails with NoSlashInRemoteBranch, where `Substring` throws. Otherwise remote + "/" + branch rebuilds the name, the remote has no '/', and it is the remote that the fetch uses. |
| `RepositoryStatus.GitRepositoryStatus.constructor` | src/gitSyncApp/GitRepositoryStatus.cs:24-38 | A new status keeps the path and is named by its last segment after trailing separators are trimmed. All eight lists start empty and both branch names are empty. |
| `RepositoryStatus.GitRepositoryStatus.ParseStatus` | src/gitSyncApp/GitRepositoryStatus.cs:88-108 | The five lists are cleared and refilled to exactly `ParseStatusOutput(output).files`. The result is false exactly where the source throws on a short line. No other field changes. |
| `RepositoryStatus.GitRepositoryStatus.GetStashedFiles` | src/gitSyncApp/GitRepositoryStatus.cs:114-122 | The stash list is replaced by the non-blank lines of the output. |
| `RepositoryStatus.GitRepositoryStatus.GetBranches` | src/gitSyncApp/GitRepositoryStatus.cs:131-135 | Both branch names are replaced by the trimmed outputs. |
| `RepositoryStatus.GitRepositoryStatus.GetUnpushedCommits` | src/gitSyncApp/GitRepositoryStatus.cs:141-150 | The unpushed list is cleared, and refilled with the non-blank log lines only when the remote branch is set. |
| `RepositoryStatus.GitRepositoryStatus.GetUnpulledCommits` | src/gitSyncApp/GitRepositoryStatus.cs:160-171 | The same for unpulled commits. The method also returns the remote it fetches from, `Split('/')[0]` of the remote branch, or None without one. |
| `RepositoryStatus.GitRepositoryStatus.Refresh` | src/gitSyncApp/GitRepositoryStatus.cs:67-75 | A refresh replaces rather than merges. A successful refresh leaves the state `Refreshed(path, name, outputs)`, which depends on nothing else. A short porcelain line stops it after the file lists and leaves every other field as it was. |
| `ConsoleOutput.ConsoleWriter.constructor` | src/gitSyncApp/SafeConsoleWriter.cs:32-36 | A new writer has an empty queue. |
| `ConsoleOutput.ConsoleWriter.EnqueueChunks` | src/gitSyncApp/SafeConsoleWriter.cs:39-42 | The batch is queued whole, after the earlier batches. |
| `StatusActions.ItemLines` | src/gitSyncApp/GitRepositoryStatusActions.cs:47-48 | There is one yellow chunk per item, in list order, of the form "    " + prefix + item + newline. |
| `StatusActions.ListSection` | src/gitSyncApp/GitRepositoryStatusActions.cs:43-49 | An empty list contributes no chunk. A non-empty one contributes a count line plus one chunk per item. |
| `StatusActions.SectionCountReadsBack` | src/gitSyncApp/GitRepositoryStatusActions.cs:46-48 | A section opens with an uncoloured "<label>: <count>" line whose digits read back as the number of items. The item lines follow it and nothing else. |
| `StatusActions.SectionsEmpty` | src/gitSyncApp/GitRepositoryStatusActions.cs:43-58 | The eight sections are empty exactly when no list has an entry, that is, when no action is required. |
| `StatusActions.ReportSilentIffUpToDate` | src/gitSyncApp/GitRepositoryStatusActions.cs:27-63 | Nothing is queued exactly when the repository is safe to pull and has no remote updates. A missing branch, any local change or unpulled commits alone cause a report. |
| `StatusActions.ReportShape` | src/gitSyncApp/GitRepositoryStatusActions.cs:19-37 | Every report opens with "Repository: ", the name in white on blue, and " (<path>)". A blank local branch, or otherwise a blank remote branch, gives exactly that header plus one red "... branch is not set or could not be determined." line. |
| `StatusActions.HighlightedItemLines` | src/gitSyncApp/GitRepositoryStatusActions.cs:47-48 | The yellow text of a list's item lines is its items, formatted, in order. |
| `StatusActions.HighlightedSection` | src/gitSyncApp/GitRepositoryStatusActions.cs:43-49 | A section highlights its formatted items and nothing else: the count line is not yellow. |
| `StatusActions.ReportHighlightsEveryEntry` | src/gitSyncApp/GitRepositoryStatusActions.cs:39-58 | With both branches set, the yellow text of the report lists every entry of the eight lists exactly once. The order is untracked, modified, deleted, staged, conflicted, stashed, unpushed, unpulled. |
| `StatusActions.AddList` | src/gitSyncApp/GitRepositoryStatusActions.cs:43-49 | Appends exactly the list's section to the chunks, and sets the action flag when the list is non-empty. |
| `StatusActions.AnalyzeAndReport` | src/gitSyncApp/GitRepositoryStatusActions.cs:13-64 | Queues exactly one batch, `Report(status)`, when there is one, and nothing otherwise. No other batch in the queue changes. |

## Left out

- Running git: process start, asynchronous reads, standard error and exit codes. Each command's standard output is an input string, so a failing command is modelled as the output it leaves, usually empty.
- `git fetch`: the fetch has no effect in the model. `GetUnpulledCommits` returns the remote name it would fetch. The source ignores the fetch's outcome, and so does the model.
- The `git pull` that `PullCommitsAsync` runs, and its output: `PullTarget` stops at the (remote, branch) pair passed to it.
- The `onRefreshed` callback of `RefreshStatusAsync`, which only hands the object to the caller.
- Exceptions as control flow: a non-blank porcelain line shorter than three characters is modelled as `ok == false`, and the remaining refresh steps are skipped. A pull target without '/' is modelled as the `NoSlashInRemoteBranch` error.
- Null strings: every string in the model is non-null, so `IsNullOrWhiteSpace` is `IsBlank`.
- Platform path semantics:
  - the two directory separators and `Path.IsPathFullyQualified` are parameters;
  - the root and volume handling of `Path.GetFileName` (for instance "C:" on Windows) is not modelled.
- `Char.IsWhiteSpace` is the fixed set of 25 characters that .NET accepts. There is no other Unicode processing.
- `Environment.NewLine` is the parameter `nl`. `AnalyzeAndReport` takes the writer as a parameter instead of `SafeConsoleWriter.Default`.
- SafeConsoleWriter's background thread, the console writes and colour restoring, `EnqueueException` and `Dispose`. The model keeps only the queue of batches, in the order they are added. Concurrent producers are not modelled.
- ConsoleColorUtil.cs (raw console colour writes), GitLocator.cs (locating the git executable), AppSettings.cs (configuration loading) and Program.cs (start-up and key-press glue) are not part of this model.
- The scan for repositories under a directory is not part of this model: its source is not among the files modelled.
