/**
 * The coverage analyser: an object that reads SimpleCov's cache once,
 * under a reentrant lock, and writes a coverage percentage into each
 * analysed module.
 */
module Analyser {
  import opened Wrappers
  import Paths
  import opened Cache
  import opened Matching

  /** An analysed module as the analyser sees it: a fixed path and a coverage it assigns. */
  class AnalysedModule {
    const path: string
    var coverage: real

    constructor (path: string, coverage: real)
      ensures this.path == path && this.coverage == coverage
    {
      this.path := path;
      this.coverage := coverage;
    }
  }

  /**
   * What a block handed to `synchronize_resultset` does: the read in
   * `stored_data`, or a nested call of `synchronize_resultset` with an
   * inner block (the re-entry that the lock flag exists for).
   */
  datatype Block = ReadStoredData | Reenter(inner: Block)

  /** `n` progress marks, one per module processed. */
  function ProgressMarks(n: nat): (marks: seq<string>)
    ensures |marks| == n
    ensures forall k :: 0 <= k < n ==> marks[k] == "."
  {
    if n == 0 then [] else ProgressMarks(n - 1) + ["."]
  }

  /** The lines `parse_resultset` prints: its warning, if any. */
  function WarningLines(warning: Option<string>): (lines: seq<string>)
    ensures |lines| == (if warning.Some? then 1 else 0)
    ensures warning.Some? ==> lines[0] == warning.value
  {
    match warning
    case None => []
    case Some(line) => [line]
  }

  class Coverage {
    const analysedModules: seq<AnalysedModule>
    /** `SimpleCov.root`: the project root that module paths are joined to. */
    const root: string
    /** `SimpleCov.coverage_path`, after any configured coverage directory is applied. */
    const coverageDir: string
    /** `JSON.parse`, which this model does not define. */
    const decode: string -> JsonParse
    /** `SimpleCov::Result.from_hash`, which this model does not define. */
    const fromHash: Resultset -> seq<SimpleCovResult>

    /** The files on disk; the analyser only ever creates or truncates the lock sentinel. */
    var fs: FileSystem
    /** `@resultset_locked`. */
    var resultsetLocked: bool
    /** Whether this analyser holds the exclusive lock on the sentinel. */
    var lockHeld: bool
    /** How many times this analyser has acquired the exclusive lock. */
    var lockAcquisitions: nat
    /** `@resultset`: nil until first loaded. */
    var resultsetMemo: Option<Resultset>
    /** `@result`. */
    var result: Option<SimpleCovResult>
    /** What the analyser printed, one entry per `print` or `puts`. */
    var output: seq<string>

    /** The lock is only ever held inside `with_lock`, which has set the flag. */
    ghost predicate Valid()
      reads this
    {
      lockHeld ==> resultsetLocked
    }

    function CachePath(): string
    {
      Paths.ResultsetPath(coverageDir)
    }

    function LockPath(): string
    {
      Paths.ResultsetWritelock(coverageDir)
    }

    /** `synchronize_resultset` must take the lock: the flag is clear and the sentinel exists. */
    ghost predicate MustLock()
      reads this
    {
      !resultsetLocked && LockPath() in fs
    }

    /**
     * `initialize`: keeps the modules and stores the first SimpleCov result
     * built from the cache, which it loads (and memoises) on the way.
     */
    constructor (analysedModules: seq<AnalysedModule>, root: string, coverageDir: string, fs: FileSystem,
                 decode: string -> JsonParse, fromHash: Resultset -> seq<SimpleCovResult>)
      ensures Valid() && !resultsetLocked && !lockHeld
      ensures this.analysedModules == analysedModules && this.root == root && this.coverageDir == coverageDir
      ensures this.decode == decode && this.fromHash == fromHash
      ensures var parsed := ParseResultset(CacheContent(fs, Paths.ResultsetPath(coverageDir)), decode);
        && resultsetMemo == Some(parsed.resultset)
        && result == First(fromHash(parsed.resultset))
        && output == WarningLines(parsed.warning)
      ensures var locked := Paths.ResultsetWritelock(coverageDir) in fs;
        && lockAcquisitions == (if locked then 1 else 0)
        && this.fs == (if locked then fs[Paths.ResultsetWritelock(coverageDir) := ""] else fs)
    {
      this.analysedModules := analysedModules;
      this.root := root;
      this.coverageDir := coverageDir;
      this.decode := decode;
      this.fromHash := fromHash;
      this.fs := fs;
      resultsetLocked := false;
      lockHeld := false;
      lockAcquisitions := 0;
      resultsetMemo := None;
      result := None;
      output := [];
      new;
      var all := Results();
      result := First(all);
    }

    /**
     * `run`: in order, sets each module's coverage to its percentage under
     * the stored result and prints one progress mark for it, then a newline.
     * Nothing but the modules' coverage and the output changes, and the
     * values depend only on the result and each module's path, so running
     * again leaves the same values.
     */
    method Run()
      modifies analysedModules, this`output
      ensures forall i :: 0 <= i < |analysedModules| ==>
        analysedModules[i].coverage == FindCoveragePercentage(result, root, analysedModules[i].path)
      ensures output == old(output) + ProgressMarks(|analysedModules|) + [""]
    {
      for i := 0 to |analysedModules|
        invariant forall k :: 0 <= k < i ==>
          analysedModules[k].coverage == FindCoveragePercentage(result, root, analysedModules[k].path)
        invariant output == old(output) + ProgressMarks(i)
      {
        var analysedModule := analysedModules[i];
        analysedModule.coverage := FindCoveragePercentage(result, root, analysedModule.path);
        output := output + ["."];
      }
      output := output + [""];
    }

    /** `results`: SimpleCov's results built from the (memoised) resultset. */
    method Results() returns (all: seq<SimpleCovResult>)
      requires Valid()
      modifies this`fs, this`resultsetLocked, this`lockHeld, this`lockAcquisitions, this`resultsetMemo, this`output
      ensures Valid() && resultsetLocked == old(resultsetLocked) && lockHeld == old(lockHeld)
      ensures resultsetMemo.Some? && all == fromHash(resultsetMemo.value)
      ensures old(resultsetMemo).Some? ==> unchanged(this)
      ensures old(resultsetMemo).None? ==>
        var parsed := ParseResultset(CacheContent(old(fs), CachePath()), decode);
        && resultsetMemo == Some(parsed.resultset)
        && output == old(output) + WarningLines(parsed.warning)
        && lockAcquisitions == old(lockAcquisitions) + (if old(MustLock()) then 1 else 0)
        && fs == (if old(MustLock()) then old(fs)[LockPath() := ""] else old(fs))
    {
      var rs := Resultset();
      all := fromHash(rs);
    }

    /**
     * `resultset`: loads and parses the cache on the first call only; every
     * later call returns the memoised value, the empty resultset included.
     */
    method Resultset() returns (rs: Resultset)
      requires Valid()
      modifies this`fs, this`resultsetLocked, this`lockHeld, this`lockAcquisitions, this`resultsetMemo, this`output
      ensures Valid() && resultsetLocked == old(resultsetLocked) && lockHeld == old(lockHeld)
      ensures resultsetMemo == Some(rs)
      ensures old(resultsetMemo).Some? ==> rs == old(resultsetMemo).value && unchanged(this)
      ensures old(resultsetMemo).None? ==>
        var parsed := ParseResultset(CacheContent(old(fs), CachePath()), decode);
        && rs == parsed.resultset
        && output == old(output) + WarningLines(parsed.warning)
        && lockAcquisitions == old(lockAcquisitions) + (if old(MustLock()) then 1 else 0)
        && fs == (if old(MustLock()) then old(fs)[LockPath() := ""] else old(fs))
    {
      if resultsetMemo.Some? {
        rs := resultsetMemo.value;
        return;
      }
      var data := StoredData();
      var parsed := ParseResultset(data, decode);
      output := output + WarningLines(parsed.warning);
      rs := parsed.resultset;
      resultsetMemo := Some(rs);
    }

    /** `stored_data`: the cache content, read under `synchronize_resultset`. */
    method StoredData() returns (data: Option<string>)
      requires Valid()
      modifies this`fs, this`resultsetLocked, this`lockHeld, this`lockAcquisitions
      ensures Valid() && resultsetLocked == old(resultsetLocked) && lockHeld == old(lockHeld)
      ensures data == CacheContent(old(fs), CachePath())
      ensures lockAcquisitions == old(lockAcquisitions) + (if old(MustLock()) then 1 else 0)
      ensures fs == (if old(MustLock()) then old(fs)[LockPath() := ""] else old(fs))
    {
      data := SynchronizeResultset(ReadStoredData);
    }

    /**
     * `synchronize_resultset`: runs the block directly when the flag is
     * already set (re-entry) or the sentinel does not exist, and through
     * `with_lock` otherwise. Either way the block reads what a direct read
     * would, the flag ends as it began, and the lock is taken at most once.
     */
    method SynchronizeResultset(block: Block) returns (data: Option<string>)
      requires Valid()
      modifies this`fs, this`resultsetLocked, this`lockHeld, this`lockAcquisitions
      decreases block, 2
      ensures Valid() && resultsetLocked == old(resultsetLocked) && lockHeld == old(lockHeld)
      ensures data == CacheContent(old(fs), CachePath())
      ensures lockAcquisitions == old(lockAcquisitions) + (if old(MustLock()) then 1 else 0)
      ensures fs == (if old(MustLock()) then old(fs)[LockPath() := ""] else old(fs))
    {
      if resultsetLocked {
        data := RunBlock(block);
        return;
      }
      if LockPath() !in fs {
        data := RunBlock(block);
        return;
      }
      data := WithLock(block);
    }

    /**
     * `with_lock`: sets the flag, opens the sentinel for writing (creating
     * or truncating it), takes the exclusive lock once, runs the block,
     * releases the lock and clears the flag. Taking a lock this analyser
     * already holds would block forever, hence the precondition.
     */
    method WithLock(block: Block) returns (data: Option<string>)
      requires Valid() && !lockHeld
      modifies this`fs, this`resultsetLocked, this`lockHeld, this`lockAcquisitions
      decreases block, 1
      ensures Valid() && !resultsetLocked && !lockHeld
      ensures data == CacheContent(old(fs), CachePath())
      ensures lockAcquisitions == old(lockAcquisitions) + 1
      ensures fs == old(fs)[LockPath() := ""]
    {
      resultsetLocked := true;
      fs := fs[LockPath() := ""];
      Paths.SentinelIsNeverResultset(coverageDir, coverageDir);
      CacheContentIgnoresOtherFiles(old(fs), CachePath(), LockPath(), "");
      lockHeld := true;
      lockAcquisitions := lockAcquisitions + 1;
      data := RunBlock(block);
      lockHeld := false;
      resultsetLocked := false;
    }

    /**
     * Runs a block. The read of `stored_data` returns nothing for a missing
     * file or a content shorter than two characters, else the content; a
     * nested call goes back through `synchronize_resultset`.
     */
    method RunBlock(block: Block) returns (data: Option<string>)
      requires Valid()
      modifies this`fs, this`resultsetLocked, this`lockHeld, this`lockAcquisitions
      decreases block, 0
      ensures Valid() && resultsetLocked == old(resultsetLocked) && lockHeld == old(lockHeld)
      ensures data == CacheContent(old(fs), CachePath())
      ensures var acquired := block.Reenter? && old(MustLock());
        && lockAcquisitions == old(lockAcquisitions) + (if acquired then 1 else 0)
        && fs == (if acquired then old(fs)[LockPath() := ""] else old(fs))
    {
      match block
      case ReadStoredData =>
        if CachePath() !in fs {
          return None;
        }
        var content := fs[CachePath()];
        if |content| < 2 {
          return None;
        }
        data := Some(content);
      case Reenter(inner) =>
        data := SynchronizeResultset(inner);
    }
  }

  /**
   * A cache that is missing or shorter than two characters leaves every
   * module at coverage 0 after `initialize` and `run`, provided SimpleCov
   * builds no result from the empty resultset (`resultset.map` over `{}`
   * is empty).
   */
  method TrivialCacheGivesZeroCoverage(analysedModules: seq<AnalysedModule>, root: string, coverageDir: string,
                                       fs: FileSystem, decode: string -> JsonParse,
                                       fromHash: Resultset -> seq<SimpleCovResult>)
    requires fromHash(map[]) == []
    requires Paths.ResultsetPath(coverageDir) !in fs || |fs[Paths.ResultsetPath(coverageDir)]| < 2
    modifies analysedModules
    ensures forall i :: 0 <= i < |analysedModules| ==> analysedModules[i].coverage == 0.0
  {
    TrivialCacheLoadsEmpty(fs, Paths.ResultsetPath(coverageDir), decode);
    var analyser := new Coverage(analysedModules, root, coverageDir, fs, decode, fromHash);
    analyser.Run();
  }

}
