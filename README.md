# HS code search engine: matcher and search log

This project models the core of a small HS-code search service. A
process-wide matcher loads a corpus of classification codes with precomputed
embeddings, builds a Faiss inner-product index, and answers a query (text or a
ready vector) with the closest corpus rows. A logger writes the latest search
to `results.json`, appends to any other JSON log file, and configures console
handlers.

Modules, one per concern:

- `Wrappers` (`wrappers.dfy`): `Option` and `Result`.
- `Paths` (`paths.dfy`): the POSIX `os.path` functions the logger uses (`isabs`, `join`, `basename`).
- `JsonValues` (`json.dfy`): JSON values as `json.dump` writes them and `json.loads` reads them back, with field lookup.
- `Logger` (`logger.dfy`): `src/utils/logger.py`.
- `Matcher` (`matcher.dfy`): `src/core/matcher.py`.

State that the Python code reaches through the interpreter or the OS lives in
the `Logger.Host` object. That covers the `LOGS_DIR` variable, the project
root, the path of the results file that `get_logger()`'s logger writes (fixed when the host is created), the files (`map<Path, Stored>`), the handlers of each named logger, the
`_logger` module global and the `HSCodeLogger._instance` slot. `Host` also
keeps a ghost trace of every `JSONFileHandler.write` call. The
`FaissHSCodeMatcher._instance` slot is `Matcher.MatcherRegistry`.

A stored file has a content and a flag saying whether it can be opened for
writing. The content is one of five things:

- blank;
- parsed JSON;
- text that fails to decode (`JSONDecodeError`);
- bytes that are not UTF-8 (reading raises);
- a file that cannot be opened for reading.

The embedding service, CSV parsing and the Faiss index are oracles given to
the operations:

- `EmbedService` takes an `EmbedRequest` and returns an `EmbedResponse`.
- `Index` takes a vector and `k` and returns a `SearchReply`.
- `Platform` says whether the daily log file can be opened in a directory, whether the client can be created, what reading the CSV gives, and what building the index gives.

An object whose guarded `__init__` returned early has no attributes. The model
marks it with `configured == false`.

Four behaviours of the code that the model follows as they are written:

- **Search log.** `search` writes to `results.json` once per appended result, each time with all results so far. It writes nothing when there are no results.
- **No timeout, no locking.** The provider call has no timeout, and neither singleton is constructed under a lock.
- **Ranking and `k`.** Ranking, tie-breaking, the handling of `k` larger than the corpus and of zero-norm vectors are all left to Faiss. The model claims none of them.
- **Row lookup.** `df.iloc` takes a negative index other than `-1` from the end of the table. It raises `IndexError` outside the table, and `search` then returns `[]`.

## Model

| member | source | states |
|---|---|---|
| Matcher.ToDict | src/core/matcher.py:20-26 | the dict has exactly the keys id, code, description, similarity, in that order, holding the four fields unchanged |
| Matcher.DictRoundTrip | src/api/routes.py:17-21 | reading a result dict back as the API's response model does gives the original result |
| Matcher.GenerateEmbedding | src/core/matcher.py:122-135 | never raises: the first embedding of the service's reply to a search_query request for the text with the configured model, and None exactly when the service raised or returned no embedding |
| Matcher.QueryVector | src/core/matcher.py:150-157 | a vector query is used as given; a text query goes through generate_embedding |
| Matcher.FaissHSCodeMatcher.ProviderFailureGivesEmpty | src/core/matcher.py:150-154 | a text query whose embedding is None gives [] and logs nothing |
| Matcher.FaissHSCodeMatcher.VectorQueryBypassesProvider | src/core/matcher.py:155-164 | the outcome of a vector query is the same whatever the embedding service does; an index error gives [] |
| Matcher.Zip | src/core/matcher.py:168 | zip pairs the i-th index with the i-th distance, as many pairs as the shorter row |
| Matcher.RowAt | src/core/matcher.py:170 | iloc: rows by position, negative positions from the end, None exactly outside the table |
| Matcher.KeptIsOrderedFilter | src/core/matcher.py:168-169 | the kept slots are exactly the slots whose index is not -1, at strictly increasing positions, in the index's order |
| Matcher.KeptHasNoPadding | src/core/matcher.py:169 | no kept slot is padding, and there are at most as many as slots |
| Matcher.KeptCount | src/core/matcher.py:168-169 | the number of kept slots equals the number of non -1 indices |
| Matcher.CollectMapsKept | src/core/matcher.py:167-177 | the loop's results are the kept slots mapped, in order, to the result of the row at their index with their own distance; the loop completes exactly when every kept index names a row, and otherwise stops exactly at the first kept slot whose row lookup raises |
| Matcher.FailureSticks | src/core/matcher.py:167-194 | once a row lookup raises, the remaining slots change nothing |
| Matcher.CollectFollowsReply | src/core/matcher.py:167-177 | over k slots whose indices are -1 or rows of the table, the loop completes with one result per non -1 index (so at most k), in index order, each built from its row and its own score |
| Matcher.FaissHSCodeMatcher.SearchResultsFollowIndex | src/core/matcher.py:150-177 | for any query, text or vector, whose query vector the index answers with k in-range slots, search returns one result per non -1 index (so at most k), in index order, each built from its row and its own score |
| Matcher.LogTrace | src/core/matcher.py:177-188 | after the j-th result the results file receives one entry for the query (or "vector_query") holding the first j result dicts and result_count j |
| Matcher.LogFound | src/core/matcher.py:177-188 | appending a result and logging through get_logger extends the write trace by one entry and leaves results.json holding only the newest entry |
| Matcher.FaissHSCodeMatcher.MatchSlots | src/core/matcher.py:166-190 | the loop returns the collected results, or [] when a row lookup raises, and the log holds one entry per result appended before that |
| Matcher.FaissHSCodeMatcher.Search | src/core/matcher.py:137-194 | with k defaulting to 10, a configured matcher returns the collected results or [] on any failure, with the logging above, to results.json in get_absolute_log_dir(); on an object whose init was a no-op the call fails and changes nothing |
| Matcher.StartupError | src/core/matcher.py:58-120 | construction fails at the first of opening the daily log file, client creation, CSV load and index build that raises, and only then |
| Matcher.WithDailyFile | src/core/matcher.py:76-93 | once the daily log file opens, the HSCodeMatcher logger keeps its handlers and gains the file handler last; no other logger changes |
| Matcher.FaissHSCodeMatcher.Init | src/core/matcher.py:44-74 | a no-op returning an unconfigured object once an instance is registered; otherwise adds a daily file handler (kept even when a later step raises), and registers the new matcher, with its corpus, index and model, only if every step succeeds, leaving nothing registered when one raises |
| Matcher.FaissHSCodeMatcher.GetInstance | src/core/matcher.py:37-42 | returns the registered matcher whatever path is passed, changing nothing; with none registered, constructs one with the default log directory and model and registers it only on success, so a failed attempt is retried by the next call and each attempt that opens the log file adds one more file handler |
| Matcher.GetMatcher | src/core/matcher.py:196-198 | the same promise as get_instance: every call after a successful one returns that same matcher and changes nothing |
| Paths.BasenameOfJoin | src/utils/logger.py:116-121 | a slash-free file name joined to any directory keeps that name as its basename |
| Paths.WithSeparator | src/utils/logger.py:39 | what os.path.join puts before a relative component: the directory with one slash added unless it is empty or already ends with one |
| Logger.AbsoluteLogDir | src/utils/logger.py:27-43 | LOGS_DIR wins when set; otherwise an absolute log_dir is kept; otherwise the result is the project root, one separator, then log_dir |
| Logger.HandlerPath | src/utils/logger.py:116-121 | an absolute file name is kept; a relative one becomes the default log directory, one separator, then its basename; the basename never changes |
| Logger.JSONFileHandler.constructor | src/utils/logger.py:115-129 | the handler's path is resolved as above and a missing file is created holding [] |
| Logger.ExistingEntries | src/utils/logger.py:140-149 | the starting list is exactly the stored list when there is one, [] for a missing, blank, undecodable or non-list file, and the read fails only for a file that is not UTF-8 or cannot be opened for reading |
| Logger.NewContent | src/utils/logger.py:131-160 | results.json ends up holding exactly [data]; any other file keeps its list in order and gets data last, starts over as [data] when empty, not a list or undecodable, and is left alone when unreadable; a file that cannot be opened for writing is always left alone |
| Logger.Written | src/utils/logger.py:131-160 | a write changes no file but its own |
| Logger.ResultsLastWriteWins | src/utils/logger.py:134-157 | only the last write to results.json is visible, so repeating a write is idempotent |
| Logger.ResultsCreationIrrelevant | src/utils/logger.py:126-137 | creating results.json as [] before a write does not change what the write leaves |
| Logger.AppendGrowsByOne | src/utils/logger.py:138-157 | a write to another readable and writable list file keeps every entry and grows it by exactly one |
| Logger.JSONFileHandler.Write | src/utils/logger.py:131-160 | the files after write are those of the write policy above; errors are swallowed |
| Logger.SearchEntry | src/utils/logger.py:189-195 | the entry holds the query, the results passed, and result_count equal to their number |
| Logger.CustomLogger.LogSearchResult | src/utils/logger.py:187-199 | writes exactly that entry to the results handler and never raises |
| Logger.CustomLogger.constructor | src/utils/logger.py:162-185 | log directory from get_absolute_log_dir, console handler only if none, and a results handler whose file is exactly results.json in that directory |
| Logger.ErrorMessage | src/utils/logger.py:201-206 | the message starts with "Error: type - message" and carries the rendered details exactly when details are present and not empty |
| Logger.FormatRecord | src/utils/logger.py:10-25 | the keys are exactly timestamp, level and message, then query and results each exactly when the record has it, in that order, holding the record's values |
| Logger.WithConsole | src/utils/logger.py:66-79 | existing handlers are kept, and a console handler is added only to a logger with none |
| Logger.RepeatedSetupAddsOnce | src/utils/logger.py:172-182 | any number of guarded setups leaves what a single one leaves, so handlers are never duplicated |
| Logger.HSCodeLogger.constructor | src/utils/logger.py:54-60 | with log_dir defaulting to "logs", a no-op once an instance is registered; otherwise log directory resolved and console handler set up |
| Logger.HSCodeLogger.SetupLogger | src/utils/logger.py:62-79 | the HSCodeMatcher logger gets a console handler only when it has none |
| Logger.HSCodeLogger.GetInstance | src/utils/logger.py:48-52 | the first call creates and registers the instance; every later call returns that same one |
| Logger.GetLogger | src/utils/logger.py:224-230 | the first call creates the CustomLogger, whose results file is results.json in get_absolute_log_dir(); every later call returns that same one and changes nothing |
| Logger.ResultsPath | src/utils/logger.py:169-185 | the path join(get_absolute_log_dir(), 'results.json'), whose basename marks it as the snapshot file |

## Left out

- Faiss: `normalize_L2`, `IndexFlatIP`, top-k ranking, tie-breaking and the range of similarities. They are the `Index` oracle, so no ordering by score is claimed.
- `pd.read_csv`, `ast.literal_eval` and `np.array`: these are the `Platform.readCorpus` oracle. Corpus cells are taken as the strings `str()` would give, so the conversion of numeric cells is not modelled.
- The `cohere_aws` client: its creation is `Platform.clientAvailable`, and its `embed` call is the `EmbedService` parameter.
- `datetime.now()`: the `timestamp` key of the results entry is not modelled, and `JsonFormatter.format` takes the formatted time as given.
- `json.dump` and `json.dumps` text: files are stored as decoded values, and the details text of `log_error` is a `render` parameter.
- `os.makedirs` in the logger, and failures while creating its directories or the initial `[]` file: these directories are assumed to exist. The matcher's own log directory and daily log file are modelled by `Platform.opensLogFile`.
- Text sent to the console or to `hscode_matcher_<date>.log` by `logger.info`/`error`, and logger levels. This includes the messages inside `search`, `_load_data` and the constructors.
- `HSCodeLogger.log_search`, `log_error`, `info`, `error`, `warning`, `debug` and `CustomLogger.info`, `error`, `warning`, `debug`: they forward text to the handlers of their logger. For `HSCodeLogger` that is the HSCodeMatcher logger, which holds the matcher's daily file handler too, and no console handler at all when a matcher set it up first. The text is not modelled; the handler lists those calls reach are.
- `HSCodeSearchResult.__str__`: it relies on float formatting (`.4f`).
- `get_logger` at src/utils/logger.py:110: the definition at line 226 replaces it, so it can never be called.
- The in-place normalisation of a caller's query vector by `faiss.normalize_L2` on a reshaped view: aliasing of the caller's array is not modelled.
- `generate_embedding` called directly on an object whose `__init__` was a no-op: there it raises from its own error handler.
- Matcher.FaissHSCodeMatcher.Search: the `AttributeError` raised on an unconfigured object is returned as a `Failure` value instead of an exception.
- Concurrency: neither singleton has locking, and races between threads are not modelled.
- run.py, src/api/main.py, src/api/routes.py and examples/client.py: process management, HTTP transport and the route's own extra `log_search_result` call.
