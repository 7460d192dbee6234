/**
 * Reading and decoding SimpleCov's resultset cache: the content filter of
 * `stored_data` and the degrade-to-empty policy of `parse_resultset`.
 */
module Cache {
  import opened Wrappers
  import Paths

  /** The file system as seen by the analyser: path to file content. */
  type FileSystem = map<string, string>

  /** Per-line execution counts of one file in one run; null marks a line that is not code. */
  datatype FileLines = FileLines(lines: seq<Option<nat>>)

  /** One named entry of the resultset: per-file line coverage and when it was recorded. */
  datatype RunRecord = RunRecord(coverage: map<string, FileLines>, timestamp: int)

  /** The decoded cache: run name (test-suite name) to its record. */
  type Resultset = map<string, RunRecord>

  /**
   * What `JSON.parse` does with the cache text: raise `JSON::ParserError`
   * with a message, or return a value, where `None` stands for a falsy
   * value (`null`, `false`).
   */
  datatype JsonParse = ParserError(message: string) | Parsed(value: Option<Resultset>)

  /** What `parse_resultset` returns, with the warning line it prints, if any. */
  datatype ParseOutcome = ParseOutcome(resultset: Resultset, warning: Option<string>)

  /** The line printed when the cache does not decode. */
  function LoadError(message: string): (line: string)
    ensures |line| == 32 + |message|
    ensures line[..32] == "Error: Loading .resultset.json: " && line[32..] == message
  {
    "Error: Loading " + Paths.ResultsetFilename + ": " + message
  }

  /**
   * The value of the block in `stored_data`: nothing when the file is
   * missing or holds fewer than two characters, the content unchanged
   * otherwise.
   */
  function CacheContent(fs: FileSystem, path: string): (data: Option<string>)
    ensures data.Some? <==> path in fs && |fs[path]| >= 2
    ensures data.Some? ==> data.value == fs[path]
  {
    if path !in fs then None
    else if |fs[path]| < 2 then None
    else Some(fs[path])
  }

  /** Content of length 0 or 1 reads exactly like a missing file. */
  lemma TrivialContentIsAbsent(fs: FileSystem, path: string, content: string)
    requires |content| < 2
    ensures CacheContent(fs[path := content], path) == CacheContent(fs - {path}, path) == None
  {
  }

  /** Writing some other file does not change what the cache read returns. */
  lemma CacheContentIgnoresOtherFiles(fs: FileSystem, path: string, other: string, content: string)
    requires other != path
    ensures CacheContent(fs[other := content], path) == CacheContent(fs, path)
  {
  }

  /**
   * `parse_resultset`: no data gives an empty resultset; a parser error
   * gives an empty resultset and one warning line; a decoded falsy value
   * gives an empty resultset; otherwise the decoded resultset.
   */
  function ParseResultset(data: Option<string>, decode: string -> JsonParse): (r: ParseOutcome)
    ensures r.warning.Some? <==> data.Some? && decode(data.value).ParserError?
    ensures r.warning.Some? ==> r.resultset == map[] && r.warning.value == LoadError(decode(data.value).message)
    ensures data.None? ==> r.resultset == map[]
    ensures data.Some? && decode(data.value).Parsed? ==>
      r.resultset == (if decode(data.value).value.Some? then decode(data.value).value.value else map[])
  {
    match data
    case None => ParseOutcome(map[], None)
    case Some(text) =>
      match decode(text)
      case ParserError(message) => ParseOutcome(map[], Some(LoadError(message)))
      case Parsed(value) =>
        match value
        case None => ParseOutcome(map[], None)
        case Some(resultset) => ParseOutcome(resultset, None)
  }

  /** A non-empty resultset can only come from cache text that decoded to exactly it. */
  lemma NonEmptyResultsetWasDecoded(data: Option<string>, decode: string -> JsonParse)
    requires ParseResultset(data, decode).resultset != map[]
    ensures data.Some? && decode(data.value) == Parsed(Some(ParseResultset(data, decode).resultset))
  {
  }

  /** A missing or trivial cache file loads as an empty resultset, with no warning. */
  lemma TrivialCacheLoadsEmpty(fs: FileSystem, path: string, decode: string -> JsonParse)
    requires path !in fs || |fs[path]| < 2
    ensures ParseResultset(CacheContent(fs, path), decode) == ParseOutcome(map[], None)
  {
  }

}
