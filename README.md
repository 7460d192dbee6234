# RubyCritic coverage analyser — a Dafny model

RubyCritic's `Coverage` analyser gives every analysed module a test-coverage
percentage taken from SimpleCov's cache, `.resultset.json`, in the coverage
directory. When it is created, the analyser reads that cache. If a lock
sentinel `.resultset.json.lock` exists, the read happens under an exclusive
lock, and the lock is reentrant within one analyser. The analyser then parses
the text, tolerating corrupt or trivial content, memoises the parsed
resultset, and keeps the first SimpleCov result built from it. `run` then
walks the modules in order. For each module it assigns the coverage of the
first source file whose name is the project root joined with the module's
path, or 0, and prints one progress mark.

The model has five modules:

- `Wrappers`: `Option`.
- `Paths`: `File.join`, the resultset path and the lock path.
- `Cache`: the file system as a map from path to content, the stored-data
  filter, and `parse_resultset` with its degrade-to-empty policy.
- `Matching`: SimpleCov's result and source files, `results.first`,
  `detect`, `find_source_file` and `find_coverage_percentage`.
- `Analyser`: the class `Coverage`, with the instance state the Ruby object
  keeps:
  - `@result`, `@resultset` and `@resultset_locked`;
  - the lock, as a held flag and an acquisition counter;
  - the file system, where the lock sentinel is created or truncated by
    `File.open(…, 'w+')`;
  - the printed output.

The class `AnalysedModule` has a constant `path` and a mutable `coverage`.

These are parameters of the model:

- The project root (`SimpleCov.root`).
- The coverage directory (`SimpleCov.coverage_path`, after configuration).
- The file system.
- `JSON.parse`, as an abstract function that either raises a parser error
  with a message or returns a value; a falsy value is `None`.
- `SimpleCov::Result.from_hash`, as an abstract function from a resultset to
  a list of results.

The block passed to `synchronize_resultset` is modelled as a small datatype.
It is either the read of `stored_data` or a nested call of
`synchronize_resultset`, so re-entry can be stated and proved. Flocking a
lock that this analyser already holds, through a second descriptor, would
block forever. `WithLock` therefore requires that the lock is not held. The
class invariant ties the held lock to the flag, and that proves every nested
call goes around the lock.

Only the first SimpleCov result is consulted (`coverage.rb:16`); the
analyser does not merge runs itself.

## Model

| member | source | states |
|---|---|---|
| `Paths.JoinPath` | lib/rubycritic/analysers/coverage.rb:44 | the joined path is the directory, one `/`, then the name, with nothing added or lost |
| `Paths.ResultsetPath` | lib/rubycritic/analysers/coverage.rb:50-55 | the cache file is the coverage directory followed by `/.resultset.json` |
| `Paths.ResultsetWritelock` | lib/rubycritic/analysers/coverage.rb:57-59 | the lock sentinel is the coverage directory followed by `/.resultset.json.lock` |
| `Paths.JoinPathInjective` | lib/rubycritic/analysers/coverage.rb:44 | under the modelled join, two modules with different paths under the same root never look up the same file name (weaker than Ruby: see "Left out") |
| `Paths.WritelockExtendsResultsetPath` | lib/rubycritic/analysers/coverage.rb:57-59 | the lock path is the resultset path followed by exactly `.lock` |
| `Paths.SentinelIsNeverResultset` | lib/rubycritic/analysers/coverage.rb:50-59 | no lock sentinel path equals any resultset path, whatever the two coverage directories |
| `Cache.CacheContent` | lib/rubycritic/analysers/coverage.rb:79-85 | the stored-data read yields content exactly when the file exists and holds at least 2 characters, and then the content unchanged |
| `Cache.TrivialContentIsAbsent` | lib/rubycritic/analysers/coverage.rb:83 | content of length 0 or 1 reads exactly like a missing file |
| `Cache.CacheContentIgnoresOtherFiles` | lib/rubycritic/analysers/coverage.rb:102 | creating or truncating another file, such as the lock sentinel, leaves the cache read unchanged |
| `Cache.LoadError` | lib/rubycritic/analysers/coverage.rb:72 | the warning line is `Error: Loading .resultset.json: ` followed by the parser's message |
| `Cache.ParseResultset` | lib/rubycritic/analysers/coverage.rb:67-74 | a warning appears exactly on a parser error, and then the resultset is empty and the warning names the cache file and the error message; no data or a falsy decoded value gives the empty resultset; otherwise the decoded resultset |
| `Cache.NonEmptyResultsetWasDecoded` | lib/rubycritic/analysers/coverage.rb:67-74 | a non-empty parsed resultset only comes from cache text that decoded to exactly that resultset |
| `Cache.TrivialCacheLoadsEmpty` | lib/rubycritic/analysers/coverage.rb:67-86 | a missing cache, or one shorter than 2 characters, loads as the empty resultset with no warning |
| `Matching.First` | lib/rubycritic/analysers/coverage.rb:16 | no result for an empty list, otherwise the list's first element |
| `Matching.FirstMatch` | lib/rubycritic/analysers/coverage.rb:46 | `detect` finds the earliest file with the wanted name, or reports that no file has it |
| `Matching.Needle` | lib/rubycritic/analysers/coverage.rb:44 | the looked-up file name is the project root, one `/`, then the module's relative path |
| `Matching.FindSourceFile` | lib/rubycritic/analysers/coverage.rb:41-47 | without a result there is no file; otherwise the file is the earliest one named root-joined-with-path, and none is found only when no file has that name |
| `Matching.FindCoveragePercentage` | lib/rubycritic/analysers/coverage.rb:33-39 | 0 without a result or without a matching file, otherwise the covered percent of the earliest matching file |
| `Matching.NoResultMeansZero` | lib/rubycritic/analysers/coverage.rb:33-47 | when SimpleCov returns no results, every module's coverage is 0 |
| `Matching.CoverageInRange` | lib/rubycritic/analysers/coverage.rb:33-39 | if SimpleCov's percentages lie in [0, 100], so does every assigned coverage |
| `Matching.EarliestMatchDecides` | lib/rubycritic/analysers/coverage.rb:46 | after a file with the wanted name, further files, matching or not, do not change the match |
| `Matching.UnrelatedFilesIgnored` | lib/rubycritic/analysers/coverage.rb:46 | files with other names placed in front only shift the match's position |
| `Analyser.ProgressMarks` | lib/rubycritic/analysers/coverage.rb:22 | n progress marks, each of them `.` |
| `Analyser.WarningLines` | lib/rubycritic/analysers/coverage.rb:72 | one printed line exactly when parsing produced a warning, and that line is the warning |
| `Analyser.AnalysedModule.constructor` | lib/rubycritic/analysers/coverage.rb:20-21 | a module with the given relative path and coverage, the two attributes the analyser reads and writes |
| `Analyser.Coverage.constructor` | lib/rubycritic/analysers/coverage.rb:14-17 | stores the modules; loads the cache once, taking the lock only if the sentinel exists, and memoises the parsed resultset; `@result` is the first SimpleCov result built from that resultset; any parse warning is printed |
| `Analyser.Coverage.Run` | lib/rubycritic/analysers/coverage.rb:19-25 | each module's coverage becomes `FindCoveragePercentage` of the stored result and the module's path; exactly one `.` is printed per module and then a newline; nothing else changes |
| `Analyser.Coverage.Results` | lib/rubycritic/analysers/coverage.rb:114-120 | the results are SimpleCov's results built from the memoised resultset, which is loaded only if no memo exists yet |
| `Analyser.Coverage.Resultset` | lib/rubycritic/analysers/coverage.rb:63-65 | with a memo, the memo is returned (the empty resultset too) with no state change; otherwise the cache is read and parsed once, the result is memoised and its warning printed |
| `Analyser.Coverage.StoredData` | lib/rubycritic/analysers/coverage.rb:77-87 | returns the cache content as `CacheContent` defines it; the lock is taken exactly when the flag is clear and the sentinel exists; afterwards the flag is as before |
| `Analyser.Coverage.SynchronizeResultset` | lib/rubycritic/analysers/coverage.rb:91-98 | any block, nested to any depth, reads what a direct read would; the lock is taken once if the flag is clear and the sentinel exists, and never otherwise; the flag ends as it began |
| `Analyser.Coverage.WithLock` | lib/rubycritic/analysers/coverage.rb:100-108 | the lock is acquired exactly once and the sentinel is created or truncated; the block's read is unaffected; on exit the flag is clear and the lock released |
| `Analyser.Coverage.RunBlock` | lib/rubycritic/analysers/coverage.rb:78-86 | the stored-data block returns nothing for a missing or shorter-than-2 file, else the content; a nested block re-enters `synchronize_resultset` without changing the flag |
| `Analyser.TrivialCacheGivesZeroCoverage` | lib/rubycritic/analysers/coverage.rb:14-86 | a missing cache, or one shorter than 2 characters, leaves every module at coverage 0 after `initialize` and `run`, provided SimpleCov builds no result from the empty resultset |

## Left out

- SimpleCov itself is not modelled:
  - `SimpleCov::Result.from_hash` and the merging of recorded runs;
  - the `merge_timeout` age cut-off;
  - the computation of `covered_percent`.

  They are foreign code, so `fromHash` and each source file's percentage are
  inputs. `CoverageInRange` therefore assumes that the percentages lie in
  [0, 100].
- The version check on the installed `simplecov` gem (`coverage.rb:115`) is
  not modelled. It inspects a foreign library, and both of its branches
  reduce to the abstract `fromHash`.
- `JSON.parse` is an abstract decoder. A decoded value that is a JSON
  document other than an object or a falsy value is not modelled; from
  there on, Ruby's behaviour belongs to SimpleCov.
- Real file I/O, blocking and exclusion between processes are not modelled.
  `File.exist?` and `File.read` are map lookups. `flock` is a held flag plus
  an acquisition counter. Other processes are not modelled.
- I/O exceptions are not modelled. `File.read` on an existing file always
  returns a string, so the nil check on `coverage.rb:81` has no branch in
  the model.
- `Config.coverage_path` and `SimpleCov.coverage_dir` (`coverage.rb:50-55`)
  set global library state, so they are left out. The coverage directory is
  a parameter.
- `Paths.JoinPath` is plain concatenation with one `/`. `File.join`'s
  collapsing of doubled separators is not modelled.
- In the terminal output, colour codes are dropped. Each `print` or `puts`
  is one string in `output`.
- `to_s` (`coverage.rb:27-29`) is left out because it is a constant string.
- Order of visits: `Run` walks the modules in order. Each value depends only
  on a module's own constant path, so the loop's effect does not depend on
  the order, even when one module object appears twice.
- `Paths.JoinPathInjective`: the lemma depends on the simplified join. Ruby's
  `File.join` drops a separator where the parts meet, so module paths `a`
  and `/a` under the same root give the same file name there.
- Coverage values are `real`. The fallback is `0.0` where Ruby returns the
  Integer `0`, and SimpleCov's Float `covered_percent` is an exact real. The
  Integer versus Float distinction, Float rounding and NaN are not modelled.
