/**
 * Repository name from a path (PathUtil.GetRepoNameFromPath) and the
 * unguarded expression that names a GitRepositoryStatus.
 *
 * The platform's directory separators and Path.IsPathFullyQualified are
 * parameters: `sep`/`altSep` stand for Path.DirectorySeparatorChar and
 * Path.AltDirectorySeparatorChar, `isFullyQualified` for the platform test.
 */
module PathUtil {
  import opened Wrappers
  import opened Strings

  /** The ArgumentException cases of GetRepoNameFromPath. */
  datatype PathError = BlankPath | NotFullyQualified

  /** Path.DirectorySeparatorChar and Path.AltDirectorySeparatorChar as a set. */
  function Separators(sep: char, altSep: char): set<char> {
    {sep, altSep}
  }

  /** Path.GetFileName: the text after the last separator (all of it when there is none). */
  function FileName(path: string, seps: set<char>): string {
    if path == [] || path[|path| - 1] in seps then []
    else FileName(path[..|path| - 1], seps) + [path[|path| - 1]]
  }

  /** FileName is the longest suffix of the path free of separators. */
  lemma {:induction false} FileNameSpec(path: string, seps: set<char>)
    ensures var r := FileName(path, seps);
      && |r| <= |path| && r == path[|path| - |r|..]
      && (forall i :: 0 <= i < |r| ==> r[i] !in seps)
      && (|r| < |path| ==> path[|path| - |r| - 1] in seps)
  {
    if path != [] && path[|path| - 1] !in seps {
      FileNameSpec(path[..|path| - 1], seps);
    }
  }

  /** Path.GetFileName(path.TrimEnd(sep, altSep)): the last segment once trailing
      separators are gone. This alone gives GitRepositoryStatus.Name. */
  function LastSegment(path: string, sep: char, altSep: char): string {
    var seps := Separators(sep, altSep);
    FileName(TrimEnd(path, seps), seps)
  }

  /** GetRepoNameFromPath: the guards, then the last path segment. */
  function GetRepoNameFromPath(path: string, sep: char, altSep: char, isFullyQualified: string -> bool)
    : (r: Result<string, PathError>)
    ensures IsBlank(path) ==> r == Failure(BlankPath)
    ensures !IsBlank(path) && !isFullyQualified(path) ==> r == Failure(NotFullyQualified)
    ensures r.Success? <==> !IsBlank(path) && isFullyQualified(path)
    ensures r.Success? ==> r.value == LastSegment(path, sep, altSep)
  {
    if IsBlank(path) then Failure(BlankPath)
    else if !isFullyQualified(path) then Failure(NotFullyQualified)
    else Success(LastSegment(path, sep, altSep))
  }

  /** The name is the last segment of the path once trailing separators are trimmed:
      it holds no separator, ends the trimmed path, and starts it or follows a separator. */
  lemma LastSegmentSpec(path: string, sep: char, altSep: char)
    ensures var seps := Separators(sep, altSep);
      var trimmed, name := TrimEnd(path, seps), LastSegment(path, sep, altSep);
      && (forall i :: 0 <= i < |name| ==> name[i] != sep && name[i] != altSep)
      && |name| <= |trimmed|
      && trimmed == trimmed[..|trimmed| - |name|] + name
      && (|name| == |trimmed| || trimmed[|trimmed| - |name| - 1] in seps)
      && (trimmed == [] || trimmed[|trimmed| - 1] !in seps)
  {
    var seps := Separators(sep, altSep);
    var trimmed := TrimEnd(path, seps);
    assert trimmed == [] || trimmed[|trimmed| - 1] !in seps by {
      TrimEndSpec(path, seps);
    }
    FileNameSplits(trimmed, sep, altSep);
  }

  /** FileName cuts a path into a head that is empty or ends in a separator, and a name free of them. */
  lemma FileNameSplits(p: string, sep: char, altSep: char)
    ensures var name := FileName(p, Separators(sep, altSep));
      && (forall i :: 0 <= i < |name| ==> name[i] != sep && name[i] != altSep)
      && |name| <= |p|
      && p == p[..|p| - |name|] + name
      && (|name| == |p| || p[|p| - |name| - 1] in Separators(sep, altSep))
  {
    var seps := Separators(sep, altSep);
    var name := FileName(p, seps);
    FileNameSpec(p, seps);
    var k := |p| - |name|;
    assert p == p[..k] + p[k..];
    forall i | 0 <= i < |name|
      ensures name[i] != sep && name[i] != altSep
    {
      assert name[i] !in seps;
    }
  }

  /** Appending trailing separators to a valid path does not change its name. */
  lemma TrailingSeparatorsIgnored(path: string, tail: string, sep: char, altSep: char, isFullyQualified: string -> bool)
    requires GetRepoNameFromPath(path, sep, altSep, isFullyQualified).Success?
    requires isFullyQualified(path + tail)
    requires forall i :: 0 <= i < |tail| ==> tail[i] == sep || tail[i] == altSep
    ensures GetRepoNameFromPath(path + tail, sep, altSep, isFullyQualified)
         == GetRepoNameFromPath(path, sep, altSep, isFullyQualified)
  {
    NonBlankPrefix(path, tail);
    TrimEndIgnoresTrimmedTail(path, tail, Separators(sep, altSep));
  }
}
