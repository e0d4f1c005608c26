/**
 * The search logger (src/utils/logger.py): where the log directory is, the JSON
 * file sink that keeps the latest search in `results.json` and appends to any
 * other file, the console-handler setup of the two named loggers, and the two
 * process-wide logger singletons.
 *
 * Everything the Python code reaches through the interpreter or the operating
 * system (the `LOGS_DIR` environment variable, the files, the `logging`
 * registry of handlers, module globals and class attributes) lives in one
 * `Host` object that the operations receive and update.
 */
module Logger {
  import opened Wrappers
  import opened Paths
  import opened JsonValues

  // ---------------------------------------------------------------------------
  // Log directory
  // ---------------------------------------------------------------------------

  /** The process environment the logger consults: the `LOGS_DIR` variable and the
      project root (three directories above logger.py). */
  datatype Env = Env(logsDir: Option<Path>, projectRoot: Path)

  /** `get_absolute_log_dir`: `LOGS_DIR` wins when set; otherwise an absolute
      `logDir` is kept; otherwise `logDir` is placed under the project root. */
  function AbsoluteLogDir(env: Env, logDir: Path): (r: Path)
    ensures env.logsDir.Some? ==> r == env.logsDir.value
    ensures env.logsDir.None? && IsAbs(logDir) ==> r == logDir
    ensures env.logsDir.None? && !IsAbs(logDir) ==>
              |r| >= |env.projectRoot| + |logDir|
              && r[..|env.projectRoot|] == env.projectRoot
              && r[|r| - |logDir|..] == logDir
    ensures env.logsDir.None? && !IsAbs(logDir) ==> r == WithSeparator(env.projectRoot) + logDir
    ensures env.logsDir.None? && IsAbs(env.projectRoot) ==> IsAbs(r)
  {
    match env.logsDir
    case Some(dir) => dir
    case None =>
      if IsAbs(logDir) then logDir
      else Join(env.projectRoot, logDir)
  }

  // ---------------------------------------------------------------------------
  // Files and the JSON sink's write policy
  // ---------------------------------------------------------------------------

  /** What a JSON log file's text is, as `JSONFileHandler.write` sees it when it reads it. */
  datatype Content =
    | Blank              // nothing but white space
    | Parsed(value: Json)  // text that `json.loads` decodes to `value`
    | Garbled            // text that `json.loads` rejects (JSONDecodeError)
    | BadEncoding        // bytes that are not UTF-8: reading raises UnicodeDecodeError
    | Unreadable         // the file cannot be opened for reading (PermissionError)

  /** A JSON log file: its content, and whether it can be opened for writing. */
  datatype Stored = Stored(content: Content, writable: bool)

  /** A file `write` can open for writing: a missing one is created. */
  predicate Writable(prior: Option<Stored>) {
    prior.None? || prior.value.writable
  }

  /** The file name that `write` keeps as a one-entry snapshot. */
  predicate IsResultsFile(path: Path) {
    Basename(path) == "results.json"
  }

  /** The list `write` starts from for a file other than results.json: the stored
      list, or `[]` for a missing, blank, undecodable or non-list file; `None` when
      reading raises an error that the inner handler does not catch. */
  function ExistingEntries(prior: Option<Content>): (r: Option<seq<Json>>)
    ensures r.None? <==> prior == Some(BadEncoding) || prior == Some(Unreadable)
    ensures prior.Some? && prior.value.Parsed? && prior.value.value.Arr? ==> r == Some(prior.value.value.items)
    ensures r.Some? && !(prior.Some? && prior.value.Parsed? && prior.value.value.Arr?) ==> r == Some([])
  {
    match prior
    case None => Some([])
    case Some(Blank) => Some([])
    case Some(Parsed(v)) => if v.Arr? then Some(v.items) else Some([])
    case Some(Garbled) => Some([])
    case Some(BadEncoding) => None
    case Some(Unreadable) => None
  }

  /** The content of `path` after `write(data)`, given what it held before
      (`None` for a missing file); `None` as result means the write raised, was
      reported, and left the file as it was. */
  function NewContent(path: Path, prior: Option<Stored>, data: Json): (r: Option<Stored>)
    // results.json ends up holding exactly [data], whatever it held, unless it cannot be written
    ensures IsResultsFile(path) ==> (r.None? <==> !Writable(prior))
    ensures IsResultsFile(path) && r.Some? ==> r.value == Stored(Parsed(Arr([data])), true)
    // any other file keeps its list, in order, with data appended last
    ensures !IsResultsFile(path) && Writable(prior) && prior.Some?
            && prior.value.content.Parsed? && prior.value.content.value.Arr? ==>
              r == Some(Stored(Parsed(Arr(prior.value.content.value.items + [data])), true))
    // ... and a missing, blank, non-list or undecodable one starts over as [data]
    ensures !IsResultsFile(path) && Writable(prior)
            && (prior.None? || prior.value.content == Blank || prior.value.content == Garbled
                || (prior.value.content.Parsed? && !prior.value.content.value.Arr?)) ==>
              r == Some(Stored(Parsed(Arr([data])), true))
    // ... and one that cannot be read, or cannot be written, is left alone
    ensures !IsResultsFile(path) && prior.Some? && prior.value.content in {BadEncoding, Unreadable} ==> r.None?
    ensures !Writable(prior) ==> r.None?
  {
    if IsResultsFile(path) then
      if !Writable(prior) then None else Some(Stored(Parsed(Arr([data])), true))
    else
      match ExistingEntries(if prior.Some? then Some(prior.value.content) else None)
      case None => None
      case Some(entries) =>
        assert entries == [] ==> entries + [data] == [data];
        if !Writable(prior) then None else Some(Stored(Parsed(Arr(entries + [data])), true))
  }

  /** The whole file system after `write(data)` to `path`. */
  function Written(files: map<Path, Stored>, path: Path, data: Json): (r: map<Path, Stored>)
    ensures forall p :: p in files ==> p in r
    ensures forall p :: p in r && p != path ==> p in files && r[p] == files[p]
  {
    match NewContent(path, if path in files then Some(files[path]) else None, data)
    case None => files
    case Some(c) => files[path := c]
  }

  /** Only the last write to results.json is visible afterwards; writing the same
      entry twice therefore leaves what writing it once does. */
  lemma ResultsLastWriteWins(files: map<Path, Stored>, path: Path, first: Json, data: Json)
    requires IsResultsFile(path)
    ensures Written(Written(files, path, first), path, data) == Written(files, path, data)
  {
  }

  /** Creating results.json as `[]` before writing to it makes no difference to
      what the write leaves. */
  lemma ResultsCreationIrrelevant(files: map<Path, Stored>, path: Path, data: Json)
    requires IsResultsFile(path)
    ensures Written(CreatedIfMissing(files, path), path, data) == Written(files, path, data)
  {
  }

  /** A write to any other file that can be read and written makes its list one entry longer. */
  lemma AppendGrowsByOne(files: map<Path, Stored>, path: Path, data: Json)
    requires !IsResultsFile(path)
    requires path in files && files[path].writable
    requires files[path].content.Parsed? && files[path].content.value.Arr?
    ensures path in Written(files, path, data)
    ensures Written(files, path, data)[path] == Stored(Parsed(Arr(files[path].content.value.items + [data])), true)
    ensures |Written(files, path, data)[path].content.value.items| == |files[path].content.value.items| + 1
  {
  }

  /** `files` with `path` created holding `[]` when it does not exist yet. */
  function CreatedIfMissing(files: map<Path, Stored>, path: Path): (r: map<Path, Stored>)
    ensures path in r && (path !in files ==> r[path] == Stored(Parsed(Arr([])), true))
    ensures forall p :: p in files ==> p in r && r[p] == files[p]
    ensures forall p :: p in r ==> p in files || p == path
  {
    if path in files then files else files[path := Stored(Parsed(Arr([])), true)]
  }

  // ---------------------------------------------------------------------------
  // Log records and messages
  // ---------------------------------------------------------------------------

  /** The entry `log_search_result` hands to the results file. */
  function SearchEntry(query: string, results: seq<Json>): (e: Json)
    ensures e.Obj? && Keys(e.fields) == ["query", "results", "result_count"]
    ensures Field(e, "query") == Some(Str(query))
    ensures Field(e, "results") == Some(Arr(results))
    ensures Field(e, "result_count") == Some(Int(|results|))
  {
    var fields := [("query", Str(query)), ("results", Arr(results)), ("result_count", Int(|results|))];
    assert Lookup(fields, "results") == Lookup(fields[1..], "results");
    assert Lookup(fields, "result_count") == Lookup(fields[1..], "result_count")
        == Lookup(fields[1..][1..], "result_count");
    Obj(fields)
  }

  /** A record as the `logging` module hands it to a formatter; `query` and
      `results` are the optional extra attributes. */
  datatype LogRecord = LogRecord(
    time: string, level: string, message: string,
    query: Option<Json>, results: Option<Json>)

  /** `JsonFormatter.format`: the basic fields first, then each extra attribute
      the record has. */
  function FormatRecord(rec: LogRecord): (j: Json)
    ensures j.Obj? && |j.fields| >= 3
    ensures Keys(j.fields) == ["timestamp", "level", "message"]
                              + (if rec.query.Some? then ["query"] else [])
                              + (if rec.results.Some? then ["results"] else [])
    ensures Field(j, "timestamp") == Some(Str(rec.time))
    ensures Field(j, "level") == Some(Str(rec.level))
    ensures Field(j, "message") == Some(Str(rec.message))
    ensures Field(j, "query") == rec.query
    ensures Field(j, "results") == rec.results
  {
    var basic := [("timestamp", Str(rec.time)), ("level", Str(rec.level)), ("message", Str(rec.message))];
    var withQuery := if rec.query.Some? then basic + [("query", rec.query.value)] else basic;
    var fields := if rec.results.Some? then withQuery + [("results", rec.results.value)] else withQuery;
    forall key | key == "query" || key == "results"
      ensures Lookup(basic, key) == None
    {
      assert Lookup(basic, key) == Lookup(basic[1..], key) == Lookup(basic[1..][1..], key)
          == Lookup(basic[1..][1..][1..], key);
      assert basic[1..][1..][1..] == [];
    }
    assert Lookup(withQuery, "query") == rec.query && Lookup(withQuery, "results") == None by {
      if rec.query.Some? {
        LookupAppend(basic, ("query", rec.query.value), "query");
        LookupAppend(basic, ("query", rec.query.value), "results");
      }
    }
    assert Lookup(fields, "query") == rec.query && Lookup(fields, "results") == rec.results by {
      if rec.results.Some? {
        LookupAppend(withQuery, ("results", rec.results.value), "query");
        LookupAppend(withQuery, ("results", rec.results.value), "results");
      }
    }
    assert fields[..3] == basic;
    assert fields == basic + fields[3..];
    ghost var names := ["timestamp", "level", "message"]
                       + (if rec.query.Some? then ["query"] else [])
                       + (if rec.results.Some? then ["results"] else []);
    assert |fields| == |names|;
    assert forall i :: 0 <= i < |fields| ==> fields[i].0 == names[i];
    assert Keys(fields) == names;
    assert Lookup(basic, "level") == Lookup(basic[1..], "level");
    assert Lookup(basic, "message") == Lookup(basic[1..], "message") == Lookup(basic[1..][1..], "message");
    LookupPrefixWins(basic, fields[3..], "timestamp");
    LookupPrefixWins(basic, fields[3..], "level");
    LookupPrefixWins(basic, fields[3..], "message");
    Obj(fields)
  }

  /** `CustomLogger.log_error`'s message: the error type and message, followed by
      the details rendered by `render` (standing for `json.dumps(..., indent=2)`)
      only when the details are present and not empty. */
  function ErrorMessage(errorType: string, errorMessage: string,
                        details: Option<seq<(string, Json)>>,
                        render: seq<(string, Json)> -> string): (m: string)
    ensures var head := "Error: " + errorType + " - " + errorMessage;
            |m| >= |head| && m[..|head|] == head
            && (m == head <==> details.None? || details.value == [])
            && (details.Some? && details.value != [] ==> m[|head|..] == "\nDetails: " + render(details.value))
  {
    var head := "Error: " + errorType + " - " + errorMessage;
    if details.Some? && details.value != [] then head + "\nDetails: " + render(details.value)
    else head
  }

  // ---------------------------------------------------------------------------
  // Handlers of the named loggers
  // ---------------------------------------------------------------------------

  /** A handler attached to a named logger. */
  datatype Handler =
    | Console             // a StreamHandler to the console
    | DailyFile(dir: Path)  // a FileHandler on hscode_matcher_<date>.log under dir

  const MatcherLoggerName: string := "HSCodeMatcher"
  const SearchLoggerName: string := "hscode_search"

  function HandlersOf(handlers: map<string, seq<Handler>>, name: string): seq<Handler> {
    if name in handlers then handlers[name] else []
  }

  /** The handlers after the guarded console setup: one console handler is added,
      and only to a logger that has none. */
  function WithConsole(hs: seq<Handler>): (r: seq<Handler>)
    ensures |r| >= 1
    ensures |r| == |hs| + (if hs == [] then 1 else 0)
    ensures r[..|hs|] == hs
    ensures hs == [] ==> r[0] == Console
  {
    if hs == [] then [Console] else hs
  }

  /** The handlers after `n` guarded setups in a row. */
  function SetupRepeated(hs: seq<Handler>, n: nat): seq<Handler> {
    if n == 0 then hs else WithConsole(SetupRepeated(hs, n - 1))
  }

  /** However often the loggers are constructed, the guarded setup adds at most one
      console handler: n setups leave what one leaves. */
  lemma {:induction false} RepeatedSetupAddsOnce(hs: seq<Handler>, n: nat)
    ensures SetupRepeated(hs, n) == if n == 0 then hs else WithConsole(hs)
  {
    if n > 1 {
      RepeatedSetupAddsOnce(hs, n - 1);
    }
  }

  // ---------------------------------------------------------------------------
  // Process state and the logger classes
  // ---------------------------------------------------------------------------

  /** The interpreter and operating-system state the logger reads and changes. */
  class Host {
    const env: Env
    const resultsPath: Path              // `join(get_absolute_log_dir(), 'results.json')`
    var files: map<Path, Stored>
    var handlers: map<string, seq<Handler>>
    var customLogger: CustomLogger?    // the module global `_logger`
    var hsLogger: HSCodeLogger?        // the class attribute `HSCodeLogger._instance`
    ghost var written: seq<(Path, Json)>  // every `JSONFileHandler.write` call, in order

    ghost predicate Valid()
      reads this
    {
      IsResultsFile(resultsPath)
      && (customLogger != null ==> customLogger.resultsHandler.filename == resultsPath)
    }

    /** The results path is the one `get_logger()`'s logger derives from the
        environment; it is fixed when the host is created. */
    predicate Wired() {
      resultsPath == ResultsPath(env)
    }

    constructor (env: Env, files: map<Path, Stored>, handlers: map<string, seq<Handler>>)
      ensures Valid() && Wired()
      ensures this.env == env && this.files == files && this.handlers == handlers
      ensures customLogger == null && hsLogger == null && written == []
    {
      this.env := env;
      resultsPath := ResultsPath(env);
      this.files := files;
      this.handlers := handlers;
      customLogger := null;
      hsLogger := null;
      written := [];
    }
  }

  /** Where a `JSONFileHandler` keeps its file: an absolute name as given, a
      relative one reduced to its basename inside the default log directory. */
  function HandlerPath(env: Env, filename: Path): (r: Path)
    ensures IsAbs(filename) ==> r == filename
    ensures Basename(r) == Basename(filename)
    ensures !IsAbs(filename) ==> r == WithSeparator(AbsoluteLogDir(env, "logs")) + Basename(filename)
  {
    if IsAbs(filename) then filename
    else
      var name := Basename(filename);
      BasenameOfJoin(AbsoluteLogDir(env, "logs"), name);
      Join(AbsoluteLogDir(env, "logs"), name)
  }

  /** Where the results file of `get_logger()`'s logger lives: `results.json`
      directly inside the default log directory. */
  function ResultsPath(env: Env): (r: Path)
    ensures IsResultsFile(r)
  {
    BasenameOfJoin(AbsoluteLogDir(env, "logs"), "results.json");
    Join(AbsoluteLogDir(env, "logs"), "results.json")
  }

  /** The handler `CustomLogger` creates for `join(log_dir, 'results.json')` keeps
      its file exactly there, whether the log directory is absolute or not. */
  lemma ResultsHandlerPath(env: Env)
    ensures HandlerPath(env, Join(AbsoluteLogDir(env, "logs"), "results.json")) == ResultsPath(env)
  {
    var dir := AbsoluteLogDir(env, "logs");
    var name := "results.json";
    assert !IsAbs(name);
    assert Basename(Join(dir, name)) == name by {
      BasenameOfJoin(dir, name);
    }
  }

  /** The JSON file sink. */
  class JSONFileHandler {
    const filename: Path

    /** Resolves the file name and creates the file holding `[]` if it is missing. */
    constructor (host: Host, filename: Path)
      modifies host`files
      ensures this.filename == HandlerPath(host.env, filename)
      ensures host.files == CreatedIfMissing(old(host.files), this.filename)
    {
      var path := HandlerPath(host.env, filename);
      this.filename := path;
      new;
      if path !in host.files {
        host.files := host.files[path := Stored(Parsed(Arr([])), true)];
      }
    }

    /** Writes `data`: results.json is replaced by `[data]`, any other file gets
        `data` appended to its list; errors are reported and swallowed. */
    method Write(host: Host, data: Json)
      modifies host`files, host`written
      ensures host.files == Written(old(host.files), filename, data)
      ensures host.written == old(host.written) + [(filename, data)]
    {
      host.written := host.written + [(filename, data)];
      var prior := if filename in host.files then Some(host.files[filename]) else None;
      var dataToWrite: seq<Json>;
      if Basename(filename) == "results.json" {
        dataToWrite := [data];
      } else {
        var existing: seq<Json> := [];
        var content: Option<Content> := if prior.Some? then Some(prior.value.content) else None;
        match content {
          case None =>  // FileNotFoundError
          case Some(Blank) =>
          case Some(Parsed(v)) =>
            if v.Arr? {
              existing := v.items;
            }
          case Some(Garbled) =>
          case Some(BadEncoding) =>
            return;
          case Some(Unreadable) =>
            return;
        }
        existing := existing + [data];
        dataToWrite := existing;
      }
      if !Writable(prior) {
        return;
      }
      host.files := host.files[filename := Stored(Parsed(Arr(dataToWrite)), true)];
    }
  }

  /** The logger behind `get_logger()`: console output plus the results file. */
  class CustomLogger {
    const logDir: Path
    const resultsHandler: JSONFileHandler

    constructor (host: Host)
      modifies host`files, host`handlers
      ensures logDir == AbsoluteLogDir(host.env, "logs")
      ensures resultsHandler.filename == HandlerPath(host.env, Join(logDir, "results.json"))
      ensures resultsHandler.filename == ResultsPath(host.env)
      ensures host.Wired() ==> resultsHandler.filename == host.resultsPath
      ensures host.handlers == old(host.handlers)[SearchLoggerName := WithConsole(HandlersOf(old(host.handlers), SearchLoggerName))]
      ensures host.files == CreatedIfMissing(old(host.files), resultsHandler.filename)
    {
      var dir := AbsoluteLogDir(host.env, "logs");
      logDir := dir;
      var hs := HandlersOf(host.handlers, SearchLoggerName);
      host.handlers := host.handlers[SearchLoggerName := WithConsole(hs)];
      ResultsHandlerPath(host.env);
      resultsHandler := new JSONFileHandler(host, Join(dir, "results.json"));
    }

    /** `log_search_result`: writes the entry for `query` and `results` to the
        results file; never raises. */
    method LogSearchResult(host: Host, query: string, results: seq<Json>)
      modifies host`files, host`written
      ensures host.files == Written(old(host.files), resultsHandler.filename, SearchEntry(query, results))
      ensures host.written == old(host.written) + [(resultsHandler.filename, SearchEntry(query, results))]
    {
      var entry := SearchEntry(query, results);
      resultsHandler.Write(host, entry);
    }
  }

  /** The module-level `get_logger()`: creates the `CustomLogger` on the first call
      and returns that same one on every later call. */
  method GetLogger(host: Host) returns (l: CustomLogger)
    requires host.Valid() && host.Wired()
    modifies host
    ensures host.Valid() && host.customLogger == l
    ensures host.hsLogger == old(host.hsLogger) && host.written == old(host.written)
    ensures old(host.customLogger) != null ==>
              l == old(host.customLogger) && host.files == old(host.files) && host.handlers == old(host.handlers)
    ensures old(host.customLogger) == null ==>
              fresh(l) && l.logDir == AbsoluteLogDir(host.env, "logs")
              && l.resultsHandler.filename == host.resultsPath
              && host.files == CreatedIfMissing(old(host.files), host.resultsPath)
              && host.handlers == old(host.handlers)[SearchLoggerName := WithConsole(HandlersOf(old(host.handlers), SearchLoggerName))]
  {
    if host.customLogger == null {
      var created := new CustomLogger(host);
      host.customLogger := created;
    }
    l := host.customLogger;
  }

  /** The console logger used by the API layer. */
  class HSCodeLogger {
    /** False when `__init__` returned at its guard, leaving the object without attributes. */
    const configured: bool
    const logDir: Path

    /** `__init__`: does nothing once an instance is registered; otherwise resolves
        the log directory and sets up the console handler. */
    constructor (host: Host, logDir: Path := "logs")
      modifies host`handlers
      ensures configured <==> old(host.hsLogger) == null
      ensures configured ==> this.logDir == AbsoluteLogDir(host.env, logDir)
      ensures configured ==>
                host.handlers == old(host.handlers)[MatcherLoggerName := WithConsole(HandlersOf(old(host.handlers), MatcherLoggerName))]
      ensures !configured ==> host.handlers == old(host.handlers)
    {
      configured := host.hsLogger == null;
      this.logDir := if host.hsLogger == null then AbsoluteLogDir(host.env, logDir) else "";
      new;
      if configured {
        SetupLogger(host);
      }
    }

    /** `_setup_logger`: a console handler, only when the logger has none. */
    method SetupLogger(host: Host)
      modifies host`handlers
      ensures host.handlers == old(host.handlers)[MatcherLoggerName := WithConsole(HandlersOf(old(host.handlers), MatcherLoggerName))]
    {
      var hs := HandlersOf(host.handlers, MatcherLoggerName);
      if hs == [] {
        hs := hs + [Console];
        assert hs == [Console];
      }
      host.handlers := host.handlers[MatcherLoggerName := hs];
    }

    /** `get_instance`: creates the instance on the first call and returns that same
        one on every later call, whatever directory is passed. */
    static method GetInstance(host: Host, logDir: Path := "logs") returns (l: HSCodeLogger)
      modifies host
      ensures host.hsLogger == l
      ensures host.customLogger == old(host.customLogger) && host.files == old(host.files)
      ensures host.written == old(host.written)
      ensures old(host.hsLogger) != null ==> l == old(host.hsLogger) && host.handlers == old(host.handlers)
      ensures old(host.hsLogger) == null ==>
                fresh(l) && l.configured && l.logDir == AbsoluteLogDir(host.env, logDir)
                && host.handlers == old(host.handlers)[MatcherLoggerName := WithConsole(HandlersOf(old(host.handlers), MatcherLoggerName))]
    {
      if host.hsLogger == null {
        var created := new HSCodeLogger(host, logDir);
        host.hsLogger := created;
      }
      l := host.hsLogger;
    }
  }
}
