/**
 * Decomposition of the solution's full path into its folder and file name,
 * and composition of the pre-build targets file path next to it
 * (`Path.GetDirectoryName`, `Path.GetFileName`, `Path.Combine`), modelled as a
 * split at the last directory separator.
 */
module SolutionPath {
  import opened Wrappers

  const DirectorySeparator: char := '\\'

  predicate IsSeparator(c: char) { c == '\\' || c == '/' }

  /** Position of the last directory separator of `p`, if it has one. */
  function LastSeparator(p: string): (r: Option<nat>)
    ensures r.Some? ==> r.value < |p| && IsSeparator(p[r.value])
    ensures r.Some? ==> forall j :: r.value < j < |p| ==> !IsSeparator(p[j])
    ensures r.None? ==> forall j :: 0 <= j < |p| ==> !IsSeparator(p[j])
  {
    if p == [] then None
    else if IsSeparator(p[|p| - 1]) then Some(|p| - 1)
    else LastSeparator(p[..|p| - 1])
  }

  /** `Path.GetFileName`: the text after the last separator (all of `p` if there is none). */
  function FileName(p: string): (r: string)
    ensures |r| <= |p|
    ensures forall j :: 0 <= j < |r| ==> !IsSeparator(r[j])
  {
    match LastSeparator(p)
    case None => p
    case Some(i) => p[i + 1..]
  }

  /**
   * `Path.GetDirectoryName`: the text before the last separator, the empty
   * folder when `p` is a bare file name, and no folder at all (null) when
   * there is no path.
   */
  function DirectoryName(p: string): (r: Option<string>)
    ensures r.None? <==> p == []
    ensures r.Some? ==> |r.value| < |p|
  {
    if p == [] then None
    else match LastSeparator(p)
      case None => Some([])
      case Some(i) => Some(p[..i])
  }

  /** `Path.Combine(folder, name)` for a name that is not itself rooted. */
  function Combine(folder: string, name: string): string
  {
    if folder == [] then name
    else if IsSeparator(folder[|folder| - 1]) then folder + name
    else folder + [DirectorySeparator] + name
  }

  /** Name of the pre-build targets file of a solution: `after.<solution file name>.targets`. */
  function TargetsFileName(solutionFileName: string): string
  {
    "after." + solutionFileName + ".targets"
  }

  /** The file name is what follows the folder and its separator; the targets file name wraps it. */
  lemma SplitPartsOfPath(p: string)
    requires p != []
    ensures FileName(p) == p[|p| - |FileName(p)|..]
    ensures DirectoryName(p).value == p[..|DirectoryName(p).value|]
    ensures LastSeparator(p).Some? ==> |DirectoryName(p).value| + 1 + |FileName(p)| == |p|
    ensures LastSeparator(p).None? ==> DirectoryName(p) == Some([]) && FileName(p) == p
    ensures var t := TargetsFileName(FileName(p)); t[..6] == "after." && t[6..|t| - 8] == FileName(p) && t[|t| - 8..] == ".targets"
  {
  }

  /** A path that is split at its last separator is rebuilt by combining its two halves. */
  lemma SplitThenCombine(p: string, i: nat)
    requires LastSeparator(p) == Some(i)
    requires p[i] == DirectorySeparator && 0 < i && !IsSeparator(p[i - 1])
    ensures DirectoryName(p) == Some(p[..i])
    ensures Combine(p[..i], FileName(p)) == p
  {
    assert p == p[..i] + [p[i]] + p[i + 1..];
  }

  /** Combining a folder with a file name and splitting again gives back the two parts. */
  lemma {:induction false} CombineThenSplit(folder: string, name: string)
    requires folder != [] && !IsSeparator(folder[|folder| - 1])
    requires forall j :: 0 <= j < |name| ==> !IsSeparator(name[j])
    ensures DirectoryName(Combine(folder, name)) == Some(folder)
    ensures FileName(Combine(folder, name)) == name
  {
    var p := Combine(folder, name);
    assert p == folder + [DirectorySeparator] + name;
    LastSeparatorAfter(folder + [DirectorySeparator], name);
    assert p[..|folder|] == folder;
    assert p[|folder| + 1..] == name;
  }

  /** Appending separator-free text after a separator leaves that separator the last one. */
  lemma {:induction false} LastSeparatorAfter(head: string, tail: string)
    requires head != [] && IsSeparator(head[|head| - 1])
    requires forall j :: 0 <= j < |tail| ==> !IsSeparator(tail[j])
    ensures LastSeparator(head + tail) == Some(|head| - 1)
  {
    if tail != [] {
      var p := head + tail;
      assert p[..|p| - 1] == head + tail[..|tail| - 1];
      LastSeparatorAfter(head, tail[..|tail| - 1]);
    } else {
      assert head + tail == head;
    }
  }
}
