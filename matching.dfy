/**
 * Matching an analysed module against SimpleCov's result: the first source
 * file whose name is the project root joined with the module's path gives
 * the coverage; no result or no matching file gives 0.
 */
module Matching {
  import opened Wrappers
  import Paths

  /** A `SimpleCov::SourceFile` as far as the analyser uses it. */
  datatype SourceFile = SourceFile(filename: string, coveredPercent: real)

  /** A `SimpleCov::Result`: its source files, in order. */
  datatype SimpleCovResult = SimpleCovResult(sourceFiles: seq<SourceFile>)

  /** `results.first`: the first element, or nil for an empty list. */
  function First<T>(results: seq<T>): (r: Option<T>)
    ensures r.None? <==> results == []
    ensures r.Some? ==> r.value == results[0]
  {
    if results == [] then None else Some(results[0])
  }

  /** Index `i` holds a file named `needle` and no earlier file does. */
  ghost predicate IsFirstMatch(files: seq<SourceFile>, needle: string, i: int)
  {
    0 <= i < |files| && files[i].filename == needle &&
    forall j :: 0 <= j < i ==> files[j].filename != needle
  }

  /** No file is named `needle`. */
  ghost predicate NoMatch(files: seq<SourceFile>, needle: string)
  {
    forall j :: 0 <= j < |files| ==> files[j].filename != needle
  }

  /** `source_files.detect { |file| file.filename == needle }`, as a position. */
  function FirstMatch(files: seq<SourceFile>, needle: string): (r: Option<nat>)
    ensures r.Some? ==> IsFirstMatch(files, needle, r.value)
    ensures r.None? ==> NoMatch(files, needle)
  {
    if files == [] then None
    else if files[0].filename == needle then Some(0)
    else
      match FirstMatch(files[1..], needle)
      case None => None
      case Some(i) => Some(i + 1)
  }

  /** The file name a module's coverage is looked up under: `File.join(SimpleCov.root, path)`. */
  function Needle(root: string, path: string): (needle: string)
    ensures |needle| == |root| + 1 + |path|
    ensures needle[..|root|] == root && needle[|root|] == '/' && needle[|root| + 1..] == path
  {
    Paths.JoinPath(root, path)
  }

  /** `find_source_file`: nil without a result, else the first file named by the needle. */
  function FindSourceFile(result: Option<SimpleCovResult>, root: string, path: string): (r: Option<SourceFile>)
    ensures result.None? ==> r.None?
    ensures result.Some? && r.None? ==> NoMatch(result.value.sourceFiles, Needle(root, path))
    ensures r.Some? ==> result.Some?
    ensures r.Some? ==> exists i :: IsFirstMatch(result.value.sourceFiles, Needle(root, path), i) && r.value == result.value.sourceFiles[i]
  {
    match result
    case None => None
    case Some(res) =>
      match FirstMatch(res.sourceFiles, Needle(root, path))
      case None => None
      case Some(i) => Some(res.sourceFiles[i])
  }

  /**
   * `find_coverage_percentage`: 0 without a result or a matching file,
   * otherwise the covered percent of the first matching file.
   */
  function FindCoveragePercentage(result: Option<SimpleCovResult>, root: string, path: string): (p: real)
    ensures result.None? ==> p == 0.0
    ensures result.Some? && NoMatch(result.value.sourceFiles, Needle(root, path)) ==> p == 0.0
    ensures result.Some? ==> forall i :: IsFirstMatch(result.value.sourceFiles, Needle(root, path), i) ==>
      p == result.value.sourceFiles[i].coveredPercent
  {
    match FindSourceFile(result, root, path)
    case None => 0.0
    case Some(file) => file.coveredPercent
  }

  /** Every covered percent SimpleCov reports for this result lies in [0, 100]. */
  ghost predicate PercentagesInRange(result: Option<SimpleCovResult>)
  {
    result.Some? ==>
      forall i :: 0 <= i < |result.value.sourceFiles| ==> 0.0 <= result.value.sourceFiles[i].coveredPercent <= 100.0
  }

  /** With no result, every module's coverage is 0. */
  lemma NoResultMeansZero(results: seq<SimpleCovResult>, root: string, path: string)
    requires results == []
    ensures FindCoveragePercentage(First(results), root, path) == 0.0
  {
  }

  /** When SimpleCov's percentages are in [0, 100], so is every assigned coverage. */
  lemma CoverageInRange(result: Option<SimpleCovResult>, root: string, path: string)
    requires PercentagesInRange(result)
    ensures 0.0 <= FindCoveragePercentage(result, root, path) <= 100.0
  {
  }

  /**
   * When several source files carry the module's file name, the earliest
   * decides: files after it, matching or not, make no difference.
   */
  lemma {:induction false} EarliestMatchDecides(files: seq<SourceFile>, later: seq<SourceFile>, needle: string)
    requires !NoMatch(files, needle)
    ensures FirstMatch(files + later, needle) == FirstMatch(files, needle)
  {
    if files[0].filename != needle {
      assert (files + later)[1..] == files[1..] + later;
      var j :| 0 <= j < |files| && files[j].filename == needle;
      assert files[1..][j - 1].filename == needle;
      EarliestMatchDecides(files[1..], later, needle);
    }
  }

  /** Files with other names placed before the module's file do not change its coverage. */
  lemma {:induction false} UnrelatedFilesIgnored(earlier: seq<SourceFile>, files: seq<SourceFile>, needle: string)
    requires NoMatch(earlier, needle)
    ensures FirstMatch(earlier + files, needle) ==
      (match FirstMatch(files, needle) case None => None case Some(i) => Some(i + |earlier|))
  {
    if earlier != [] {
      assert (earlier + files)[1..] == earlier[1..] + files;
      assert (earlier + files)[0] == earlier[0] && earlier[0].filename != needle;
      UnrelatedFilesIgnored(earlier[1..], files, needle);
      match FirstMatch(files, needle)
      case None =>
      case Some(i) =>
        assert FirstMatch(earlier[1..] + files, needle) == Some(i + |earlier| - 1);
    } else {
      assert earlier + files == files;
    }
  }

}
