/**
 * Where the analyser looks for SimpleCov's cache: the resultset file inside
 * the coverage directory, and the lock sentinel next to it.
 */
module Paths {

  /** The cache file's name inside the coverage directory. */
  const ResultsetFilename: string := ".resultset.json"

  /** Appended to the resultset path to name the lock sentinel. */
  const LockSuffix: string := ".lock"

  /**
   * `File.join(dir, name)`, modelled as the two parts with one separator
   * between them (Ruby's collapsing of doubled separators is not modelled).
   */
  function JoinPath(dir: string, name: string): (p: string)
    ensures |p| == |dir| + 1 + |name|
    ensures p[..|dir|] == dir && p[|dir|] == '/' && p[|dir| + 1..] == name
  {
    dir + "/" + name
  }

  /** `resultset_path`: the cache file inside the (configured) coverage directory. */
  function ResultsetPath(coverageDir: string): (p: string)
    ensures |p| == |coverageDir| + 16
    ensures p[..|coverageDir|] == coverageDir && p[|coverageDir|..] == "/.resultset.json"
  {
    JoinPath(coverageDir, ResultsetFilename)
  }

  /** `resultset_writelock`: the resultset path with `.lock` appended. */
  function ResultsetWritelock(coverageDir: string): (p: string)
    ensures |p| == |coverageDir| + 21
    ensures p[..|coverageDir|] == coverageDir && p[|coverageDir|..] == "/.resultset.json.lock"
  {
    ResultsetPath(coverageDir) + LockSuffix
  }

  /** Two modules with different relative paths never look for the same file. */
  lemma JoinPathInjective(dir: string, a: string, b: string)
    ensures JoinPath(dir, a) == JoinPath(dir, b) ==> a == b
  {
  }

  /** The lock path is exactly the resultset path followed by `.lock`. */
  lemma WritelockExtendsResultsetPath(coverageDir: string)
    ensures var r, l := ResultsetPath(coverageDir), ResultsetWritelock(coverageDir);
      |l| == |r| + 5 && l[..|r|] == r && l[|r|..] == ".lock"
  {
  }

  /**
   * No lock sentinel is ever a resultset file, whatever the two coverage
   * directories: one path ends in `.lock`, the other in `.json`.
   */
  lemma SentinelIsNeverResultset(dir1: string, dir2: string)
    ensures ResultsetWritelock(dir1) != ResultsetPath(dir2)
  {
  }

}
