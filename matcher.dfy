/**
 * The similarity-search engine shell (src/core/matcher.py): the process-wide
 * matcher created once, the embedding call that degrades to "no vector", and
 * `search`, which turns the index's (indices, distances) row into search
 * results, logging the results found so far after each one.
 *
 * The numeric work is not modelled: the embedding service, CSV parsing and
 * the Faiss index (normalisation, inner-product ranking) are oracles that the
 * operations receive.
 */
module Matcher {
  import opened Wrappers
  import opened Paths
  import opened JsonValues
  import Logger

  // ---------------------------------------------------------------------------
  // Corpus, queries and results
  // ---------------------------------------------------------------------------

  /** One corpus row, its `id`, `code` and `description` cells as `str()` renders them. */
  datatype Record = Record(id: string, code: string, description: string)

  type Vector = seq<real>

  /** One match returned by `search`. */
  datatype HSCodeSearchResult = HSCodeSearchResult(id: string, code: string, description: string, similarity: real)

  /** `to_dict`: the four fields under the keys `id`, `code`, `description`, `similarity`. */
  function ToDict(r: HSCodeSearchResult): (j: Json)
    ensures j.Obj? && Keys(j.fields) == ["id", "code", "description", "similarity"]
    ensures Field(j, "id") == Some(Str(r.id))
    ensures Field(j, "code") == Some(Str(r.code))
    ensures Field(j, "description") == Some(Str(r.description))
    ensures Field(j, "similarity") == Some(Float(r.similarity))
  {
    var fields := [("id", Str(r.id)), ("code", Str(r.code)),
                   ("description", Str(r.description)), ("similarity", Float(r.similarity))];
    assert Lookup(fields, "code") == Lookup(fields[1..], "code");
    assert Lookup(fields, "description") == Lookup(fields[1..], "description")
        == Lookup(fields[1..][1..], "description");
    assert Lookup(fields, "similarity") == Lookup(fields[1..], "similarity")
        == Lookup(fields[1..][1..], "similarity") == Lookup(fields[1..][1..][1..], "similarity");
    Obj(fields)
  }

  /** How the API's response model reads a result dict back: the four keys, each of
      the expected kind. */
  function FromDict(j: Json): Option<HSCodeSearchResult> {
    match (Field(j, "id"), Field(j, "code"), Field(j, "description"), Field(j, "similarity"))
    case (Some(Str(id)), Some(Str(code)), Some(Str(description)), Some(Float(similarity))) =>
      Some(HSCodeSearchResult(id, code, description, similarity))
    case _ => None
  }

  /** A result dict carries everything the result holds. */
  lemma DictRoundTrip(r: HSCodeSearchResult)
    ensures FromDict(ToDict(r)) == Some(r)
  {
  }

  /** The dicts of a result list, in order. */
  function Dicts(rs: seq<HSCodeSearchResult>): (ds: seq<Json>)
    ensures |ds| == |rs| && forall j :: 0 <= j < |rs| ==> ds[j] == ToDict(rs[j])
  {
    seq(|rs|, j requires 0 <= j < |rs| => ToDict(rs[j]))
  }

  /** A query: text to embed, or a vector already embedded. */
  datatype Query = Text(text: string) | Embedded(vector: Vector)

  /** The query as the results log names it. */
  function Label(query: Query): string {
    if query.Text? then query.text else "vector_query"
  }

  // ---------------------------------------------------------------------------
  // Embedding provider
  // ---------------------------------------------------------------------------

  /** The call made to the embedding service. */
  datatype EmbedRequest = EmbedRequest(texts: seq<string>, inputType: string, modelId: string)

  /** The service's answer: the embeddings, or an error it raised. */
  datatype EmbedResponse = Embeddings(vectors: seq<Vector>) | ProviderError

  /** The remote embedding service, as seen by one call. */
  type EmbedService = EmbedRequest -> EmbedResponse

  const DefaultModel: string := "cohere.embed-multilingual-v3"

  /** `generate_embedding`: asks for the search-query embedding of `text`; a raised
      error, and an answer without any embedding, both become `None`. */
  function GenerateEmbedding(model: string, text: string, service: EmbedService): (v: Option<Vector>)
    ensures var reply := service(EmbedRequest([text], "search_query", model));
            (v.Some? <==> reply.Embeddings? && |reply.vectors| > 0)
            && (v.Some? ==> v.value == reply.vectors[0])
  {
    match service(EmbedRequest([text], "search_query", model))
    case ProviderError => None
    case Embeddings(vectors) => if |vectors| == 0 then None else Some(vectors[0])
  }

  /** The vector `search` gives to the index: a text query's embedding, or the
      query vector itself, which never reaches the service. */
  function QueryVector(model: string, query: Query, service: EmbedService): (v: Option<Vector>)
    ensures query.Embedded? ==> v == Some(query.vector)
    ensures query.Text? ==> v == GenerateEmbedding(model, query.text, service)
  {
    match query
    case Text(text) => GenerateEmbedding(model, text, service)
    case Embedded(vector) => Some(vector)
  }

  // ---------------------------------------------------------------------------
  // Index reply and its conversion into results
  // ---------------------------------------------------------------------------

  /** What `index.search(query_vector, k)` gives back: the first row of indices and
      distances, or an error raised while preparing or running the search. */
  datatype SearchReply = Hits(indices: seq<int>, distances: seq<real>) | IndexError

  /** The Faiss index, as an oracle from the (unnormalised) query vector and `k`. */
  type Index = (Vector, int) -> SearchReply

  /** `zip(indices, distances)`: pairs up to the shorter of the two. */
  function Zip(indices: seq<int>, distances: seq<real>): (slots: seq<(int, real)>)
    ensures |slots| == if |indices| <= |distances| then |indices| else |distances|
    ensures forall i :: 0 <= i < |slots| ==> slots[i] == (indices[i], distances[i])
  {
    if indices == [] || distances == [] then []
    else [(indices[0], distances[0])] + Zip(indices[1..], distances[1..])
  }

  /** `df.iloc[idx]`: a row by position, counting from the end for a negative
      position; `None` (IndexError) outside the table. */
  function RowAt(records: seq<Record>, idx: int): (row: Option<Record>)
    ensures 0 <= idx < |records| ==> row == Some(records[idx])
    ensures -|records| <= idx < 0 ==> row == Some(records[|records| + idx])
    ensures row.Some? <==> -|records| <= idx < |records|
  {
    if 0 <= idx < |records| then Some(records[idx])
    else if -|records| <= idx < 0 then Some(records[|records| + idx])
    else None
  }

  /** The result built from a corpus row and the score of its slot. */
  function MakeResult(row: Record, distance: real): HSCodeSearchResult {
    HSCodeSearchResult(row.id, row.code, row.description, distance)
  }

  /** How far the loop over the slots got: the results appended so far, and whether
      it stopped at a row lookup that raised. */
  datatype Scan = Scan(results: seq<HSCodeSearchResult>, failed: bool)

  /** The loop of `search` over `slots`, slot by slot in order: `-1` padding is
      skipped, any other slot appends the result for its row, and a slot whose
      row lookup raises stops the loop. */
  function Collect(records: seq<Record>, slots: seq<(int, real)>): Scan
  {
    if slots == [] then Scan([], false)
    else
      var before := Collect(records, slots[..|slots| - 1]);
      var (idx, distance) := slots[|slots| - 1];
      if before.failed || idx == -1 then before
      else match RowAt(records, idx)
        case None => Scan(before.results, true)
        case Some(row) => Scan(before.results + [MakeResult(row, distance)], false)
  }

  /** The slots that are not `-1` padding, in their original order. */
  function Kept(slots: seq<(int, real)>): seq<(int, real)> {
    if slots == [] then []
    else Kept(slots[..|slots| - 1]) + (if slots[|slots| - 1].0 == -1 then [] else [slots[|slots| - 1]])
  }

  /** The positions of the slots that are not padding, in increasing order. */
  function KeptPositions(slots: seq<(int, real)>): seq<nat> {
    if slots == [] then []
    else KeptPositions(slots[..|slots| - 1]) + (if slots[|slots| - 1].0 == -1 then [] else [|slots| - 1])
  }

  /** `Kept` is exactly the order-preserving selection of the non-padding slots:
      it picks, at strictly increasing positions, every slot whose index is not
      -1 and no other. */
  lemma {:induction false} KeptIsOrderedFilter(slots: seq<(int, real)>)
    ensures var pos := KeptPositions(slots);
            && |pos| == |Kept(slots)| <= |slots|
            && (forall j :: 0 <= j < |pos| ==> pos[j] < |slots| && Kept(slots)[j] == slots[pos[j]])
            && (forall j, j' :: 0 <= j < j' < |pos| ==> pos[j] < pos[j'])
            && (forall i :: 0 <= i < |slots| ==> (slots[i].0 != -1 <==> i in pos))
  {
    if slots != [] {
      var init := slots[..|slots| - 1];
      KeptIsOrderedFilter(init);
      assert forall i :: 0 <= i < |init| ==> init[i] == slots[i];
    }
  }

  /** Every slot `Kept` returns is a real hit, and there are no more of them than slots. */
  lemma KeptHasNoPadding(slots: seq<(int, real)>)
    ensures |Kept(slots)| <= |slots|
    ensures forall j :: 0 <= j < |Kept(slots)| ==> Kept(slots)[j].0 != -1
  {
    KeptIsOrderedFilter(slots);
    var pos := KeptPositions(slots);
    forall j | 0 <= j < |Kept(slots)|
      ensures Kept(slots)[j].0 != -1
    {
      assert pos[j] in pos;
    }
  }

  /** The results are the kept slots mapped to their rows, in order: all of them
      when every kept slot's row exists, otherwise those before the first kept slot
      whose lookup raises. */
  lemma {:induction false} CollectMapsKept(records: seq<Record>, slots: seq<(int, real)>)
    ensures var scan, kept := Collect(records, slots), Kept(slots);
            && |scan.results| <= |kept|
            && (forall j :: 0 <= j < |scan.results| ==>
                  RowAt(records, kept[j].0).Some?
                  && scan.results[j] == MakeResult(RowAt(records, kept[j].0).value, kept[j].1))
            && (!scan.failed <==> forall j :: 0 <= j < |kept| ==> RowAt(records, kept[j].0).Some?)
            && (!scan.failed ==> |scan.results| == |kept|)
            && (scan.failed ==> |scan.results| < |kept| && RowAt(records, kept[|scan.results|].0).None?)
  {
    if slots != [] {
      var init := slots[..|slots| - 1];
      CollectMapsKept(records, init);
      var k0, last := Kept(init), slots[|slots| - 1];
      assert Kept(slots) == k0 + (if last.0 == -1 then [] else [last]);
      if Collect(records, init).failed {
        var j :| 0 <= j < |k0| && RowAt(records, k0[j].0).None?;
        assert Kept(slots)[j] == k0[j];
        assert Kept(slots)[|Collect(records, init).results|] == k0[|Collect(records, init).results|];
      } else if last.0 != -1 {
        assert Kept(slots)[|k0|] == last;
      }
    }
  }

  /** Once a row lookup has raised, later slots change nothing. */
  lemma {:induction false} FailureSticks(records: seq<Record>, slots: seq<(int, real)>, i: nat)
    requires i <= |slots|
    requires Collect(records, slots[..i]).failed
    ensures Collect(records, slots) == Collect(records, slots[..i])
  {
    if i < |slots| {
      assert slots[..|slots| - 1][..i] == slots[..i];
      FailureSticks(records, slots[..|slots| - 1], i);
    } else {
      assert slots[..i] == slots;
    }
  }

  /** The loop over a well-formed index reply (k slots, each -1 or a row of the
      table) completes, with one result per non-padding slot, in order. */
  lemma CollectFollowsReply(records: seq<Record>, indices: seq<int>, distances: seq<real>, k: int)
    requires |indices| == |distances| == k
    requires forall i :: 0 <= i < k ==> -1 <= indices[i] < |records|
    ensures var slots, scan := Zip(indices, distances), Collect(records, Zip(indices, distances));
            && !scan.failed
            && |scan.results| == |Kept(slots)| == |set i | 0 <= i < k && indices[i] != -1|
            && |scan.results| <= k
            && forall j :: 0 <= j < |scan.results| ==>
                 0 <= Kept(slots)[j].0 < |records|
                 && scan.results[j] == MakeResult(records[Kept(slots)[j].0], Kept(slots)[j].1)
  {
    var slots := Zip(indices, distances);
    KeptHasNoPadding(slots);
    KeptCount(slots);
    CollectMapsKept(records, slots);
    var kept := Kept(slots);
    assert forall j :: 0 <= j < |kept| ==> -1 <= kept[j].0 < |records| by {
      KeptIsOrderedFilter(slots);
    }
    assert (set i | 0 <= i < k && indices[i] != -1) == (set i | 0 <= i < |slots| && slots[i].0 != -1);
  }

  /** The loop's next step, as `Collect` states it for one more slot. */
  lemma CollectStep(records: seq<Record>, slots: seq<(int, real)>, i: nat)
    requires i < |slots|
    ensures Collect(records, slots[..i + 1]) ==
              var before := Collect(records, slots[..i]);
              if before.failed || slots[i].0 == -1 then before
              else match RowAt(records, slots[i].0)
                case None => Scan(before.results, true)
                case Some(row) => Scan(before.results + [MakeResult(row, slots[i].1)], false)
  {
    assert slots[..i + 1][..i] == slots[..i];
  }

  // ---------------------------------------------------------------------------
  // What the results log receives
  // ---------------------------------------------------------------------------

  /** The writes `search` makes to the results file at `path`: after the j-th result
      is appended, one entry holding the first j results. */
  function LogTrace(path: Path, queryName: string, rs: seq<HSCodeSearchResult>): (t: seq<(Path, Json)>)
    ensures |t| == |rs|
    ensures forall j :: 0 <= j < |rs| ==>
              t[j].0 == path
              && Field(t[j].1, "query") == Some(Str(queryName))
              && Field(t[j].1, "results") == Some(Arr(Dicts(rs[..j + 1])))
              && Field(t[j].1, "result_count") == Some(Int(j + 1))
  {
    seq(|rs|, j requires 0 <= j < |rs| => (path, Logger.SearchEntry(queryName, Dicts(rs[..j + 1]))))
  }

  /** Appending one result adds one entry to the trace, for the longer list. */
  lemma LogTraceSnoc(path: Path, queryName: string, rs: seq<HSCodeSearchResult>, r: HSCodeSearchResult)
    ensures LogTrace(path, queryName, rs + [r]) ==
              LogTrace(path, queryName, rs) + [(path, Logger.SearchEntry(queryName, Dicts(rs + [r])))]
  {
    var longer, shorter := LogTrace(path, queryName, rs + [r]), LogTrace(path, queryName, rs);
    forall j | 0 <= j < |rs|
      ensures longer[j] == shorter[j]
    {
      assert (rs + [r])[..j + 1] == rs[..j + 1];
    }
    assert (rs + [r])[..|rs| + 1] == rs + [r];
  }

  // ---------------------------------------------------------------------------
  // Start-up
  // ---------------------------------------------------------------------------

  /** The parsed corpus: one record and one embedding per CSV row. */
  datatype Corpus = Corpus(records: seq<Record>, vectors: seq<Vector>)

  /** The outside world the constructor depends on: whether the log directory can
      be created and the daily log file opened in it, whether the Bedrock client can
      be created, what reading the CSV gives (`None`: it raised), and what building
      the index over the vectors gives (`None`: it raised). */
  datatype Platform = Platform(
    opensLogFile: Path -> bool,
    clientAvailable: bool,
    readCorpus: Path -> Option<Corpus>,
    buildIndex: seq<Vector> -> Option<Index>)

  /** The step of construction whose error propagates. */
  datatype InitError = LogSetupError | ClientInitError | DataLoadError | IndexInitError

  /** The first construction step that raises, in the constructor's order (log
      file, client, CSV, index), if any. */
  function StartupError(platform: Platform, csvPath: Path, logDir: Path): (e: Option<InitError>)
    ensures e == None <==>
              platform.opensLogFile(logDir) && platform.clientAvailable && platform.readCorpus(csvPath).Some?
              && platform.buildIndex(platform.readCorpus(csvPath).value.vectors).Some?
    ensures e == Some(LogSetupError) <==> !platform.opensLogFile(logDir)
    ensures e == Some(ClientInitError) <==> platform.opensLogFile(logDir) && !platform.clientAvailable
    ensures e == Some(DataLoadError) <==>
              platform.opensLogFile(logDir) && platform.clientAvailable && platform.readCorpus(csvPath).None?
  {
    if !platform.opensLogFile(logDir) then Some(LogSetupError)
    else if !platform.clientAvailable then Some(ClientInitError)
    else match platform.readCorpus(csvPath)
      case None => Some(DataLoadError)
      case Some(corpus) =>
        if platform.buildIndex(corpus.vectors).None? then Some(IndexInitError) else None
  }

  /** The handlers after `_setup_logging`: the daily file handler is appended to the
      HSCodeMatcher logger's, on every construction attempt that gets that far, and
      no other logger changes. */
  function WithDailyFile(handlers: map<string, seq<Logger.Handler>>, platform: Platform, logDir: Path)
    : (r: map<string, seq<Logger.Handler>>)
    ensures !platform.opensLogFile(logDir) ==> r == handlers
    ensures platform.opensLogFile(logDir) ==>
              var before := Logger.HandlersOf(handlers, Logger.MatcherLoggerName);
              var after := Logger.HandlersOf(r, Logger.MatcherLoggerName);
              |after| == |before| + 1 && after[..|before|] == before && after[|before|] == Logger.DailyFile(logDir)
    ensures forall name :: name != Logger.MatcherLoggerName ==> Logger.HandlersOf(r, name) == Logger.HandlersOf(handlers, name)
  {
    if !platform.opensLogFile(logDir) then handlers
    else handlers[Logger.MatcherLoggerName := Logger.HandlersOf(handlers, Logger.MatcherLoggerName) + [Logger.DailyFile(logDir)]]
  }

  /** The class attribute `FaissHSCodeMatcher._instance`. */
  class MatcherRegistry {
    var instance: FaissHSCodeMatcher?

    constructor ()
      ensures instance == null
    {
      instance := null;
    }
  }

  /** The engine: the corpus table, the index over its vectors and the embedding model. */
  class FaissHSCodeMatcher {
    /** False when `__init__` returned at its guard, leaving the object without attributes. */
    const configured: bool
    const records: seq<Record>
    const index: Index
    const embeddingModel: string

    constructor Hollow()
      ensures !configured
    {
      configured := false;
      records := [];
      index := (v: Vector, k: int) => IndexError;
      embeddingModel := "";
    }

    constructor Ready(records: seq<Record>, index: Index, embeddingModel: string)
      ensures configured && this.records == records && this.embeddingModel == embeddingModel
      ensures this.index == index
    {
      configured := true;
      this.records := records;
      this.index := index;
      this.embeddingModel := embeddingModel;
    }

    /** `__init__`: a no-op once an instance is registered; otherwise adds the daily
        file handler, creates the client, loads the corpus, builds the index and only
        then registers the new matcher. An error in any step propagates and leaves
        nothing registered; the file handler stays once it has been added. */
    static method Init(registry: MatcherRegistry, host: Logger.Host, csvPath: Path, platform: Platform,
                       logDir: Path := "./logs", embeddingModel: string := DefaultModel)
      returns (r: Result<FaissHSCodeMatcher, InitError>)
      modifies registry, host`handlers
      ensures old(registry.instance) != null ==>
                r.Success? && fresh(r.value) && !r.value.configured
                && registry.instance == old(registry.instance) && host.handlers == old(host.handlers)
      ensures old(registry.instance) == null ==>
                host.handlers == WithDailyFile(old(host.handlers), platform, logDir)
      ensures old(registry.instance) == null ==>
                (r.Failure? <==> StartupError(platform, csvPath, logDir).Some?)
                && (r.Failure? ==> Some(r.error) == StartupError(platform, csvPath, logDir) && registry.instance == null)
                && (r.Success? ==>
                      fresh(r.value) && r.value.configured && registry.instance == r.value
                      && r.value.records == platform.readCorpus(csvPath).value.records
                      && r.value.index == platform.buildIndex(platform.readCorpus(csvPath).value.vectors).value
                      && r.value.embeddingModel == embeddingModel)
    {
      if registry.instance != null {
        var hollow := new FaissHSCodeMatcher.Hollow();
        return Success(hollow);
      }
      // _setup_logging
      if !platform.opensLogFile(logDir) {
        return Failure(LogSetupError);
      }
      var hs := Logger.HandlersOf(host.handlers, Logger.MatcherLoggerName);
      host.handlers := host.handlers[Logger.MatcherLoggerName := hs + [Logger.DailyFile(logDir)]];
      if !platform.clientAvailable {
        return Failure(ClientInitError);
      }
      var corpus := platform.readCorpus(csvPath);
      if corpus.None? {
        return Failure(DataLoadError);
      }
      var index := platform.buildIndex(corpus.value.vectors);
      if index.None? {
        return Failure(IndexInitError);
      }
      var matcher := new FaissHSCodeMatcher.Ready(corpus.value.records, index.value, embeddingModel);
      registry.instance := matcher;
      return Success(matcher);
    }

    /** `get_instance`: the registered matcher when there is one, whatever path is
        passed; otherwise a new one, registered only if construction succeeds. */
    static method GetInstance(registry: MatcherRegistry, host: Logger.Host, csvPath: Path, platform: Platform)
      returns (r: Result<FaissHSCodeMatcher, InitError>)
      modifies registry, host`handlers
      ensures old(registry.instance) != null ==>
                r == Success(old(registry.instance)) && registry.instance == old(registry.instance)
                && host.handlers == old(host.handlers)
      ensures old(registry.instance) == null ==>
                host.handlers == WithDailyFile(old(host.handlers), platform, "./logs")
      ensures old(registry.instance) == null ==>
                (r.Failure? <==> StartupError(platform, csvPath, "./logs").Some?)
                && (r.Failure? ==> Some(r.error) == StartupError(platform, csvPath, "./logs") && registry.instance == null)
                && (r.Success? ==>
                      fresh(r.value) && r.value.configured && registry.instance == r.value
                      && r.value.records == platform.readCorpus(csvPath).value.records
                      && r.value.index == platform.buildIndex(platform.readCorpus(csvPath).value.vectors).value
                      && r.value.embeddingModel == DefaultModel)
    {
      if registry.instance == null {
        var created := Init(registry, host, csvPath, platform);
        if created.Failure? {
          return Failure(created.error);
        }
        registry.instance := created.value;
      }
      return Success(registry.instance);
    }

    // -------------------------------------------------------------------------
    // Search
    // -------------------------------------------------------------------------

    /** Where the loop over the index reply ends, for a configured matcher: `failed`
        also when there is no query vector or the index raised, with no results. */
    function SearchScan(query: Query, k: int, service: EmbedService): Scan {
      match QueryVector(embeddingModel, query, service)
      case None => Scan([], true)
      case Some(v) =>
        match index(v, k)
        case IndexError => Scan([], true)
        case Hits(indices, distances) => Collect(records, Zip(indices, distances))
    }

    /** What `search` returns for a configured matcher: the collected results, or
        `[]` when anything raised along the way. */
    function SearchOutcome(query: Query, k: int, service: EmbedService): seq<HSCodeSearchResult> {
      var scan := SearchScan(query, k, service);
      if scan.failed then [] else scan.results
    }

    /** A text query whose embedding fails returns no results and logs nothing,
        without the index being asked. */
    lemma ProviderFailureGivesEmpty(text: string, k: int, service: EmbedService)
      requires GenerateEmbedding(embeddingModel, text, service).None?
      ensures SearchOutcome(Text(text), k, service) == []
      ensures SearchScan(Text(text), k, service).results == []
    {
    }

    /** A vector query does not depend on the embedding service at all. */
    lemma VectorQueryBypassesProvider(vector: Vector, k: int, service: EmbedService, other: EmbedService)
      ensures SearchScan(Embedded(vector), k, service) == SearchScan(Embedded(vector), k, other)
      ensures index(vector, k).IndexError? ==> SearchOutcome(Embedded(vector), k, service) == []
    {
    }

    /** When the index answers as Faiss does (k indices and k distances, each index a
        row of the corpus or -1), the results of any query whose vector is `v` are
        the non-padding slots in index order, each made from the row at its index
        with its own score: as many as there are non-padding slots, and at most k. */
    lemma SearchResultsFollowIndex(query: Query, v: Vector, k: int, service: EmbedService,
                                   indices: seq<int>, distances: seq<real>)
      requires QueryVector(embeddingModel, query, service) == Some(v)
      requires index(v, k) == Hits(indices, distances)
      requires |indices| == |distances| == k
      requires forall i :: 0 <= i < k ==> -1 <= indices[i] < |records|
      ensures var slots, rs := Zip(indices, distances), SearchOutcome(query, k, service);
              && !SearchScan(query, k, service).failed
              && |rs| == |Kept(slots)| == |set i | 0 <= i < k && indices[i] != -1|
              && |rs| <= k
              && forall j :: 0 <= j < |rs| ==>
                   0 <= Kept(slots)[j].0 < |records|
                   && rs[j] == MakeResult(records[Kept(slots)[j].0], Kept(slots)[j].1)
    {
      assert SearchScan(query, k, service) == Collect(records, Zip(indices, distances));
      CollectFollowsReply(records, indices, distances, k);
    }

    /** `search`: embeds a text query (a vector query is used as it is), asks the
        index for k neighbours and turns every non-padding slot into a result, in
        order; after each result the results file receives all results so far.
        Any error on the way gives `[]`; on an object whose `__init__` was a no-op
        the error handler itself fails. */
    method Search(host: Logger.Host, query: Query, service: EmbedService, k: int := 10)
      returns (r: Result<seq<HSCodeSearchResult>, string>)
      requires host.Valid() && host.Wired()
      modifies host
      ensures host.Valid() && host.hsLogger == old(host.hsLogger)
      ensures !configured ==> r.Failure? && unchanged(host)
      ensures configured ==> r == Success(SearchOutcome(query, k, service))
      ensures configured ==>
                LoggedSoFar(host, old(host.files), old(host.handlers), old(host.written), old(host.customLogger),
                            Label(query), SearchScan(query, k, service).results)
    {
      if !configured {
        return Failure("AttributeError");
      }
      var queryVector: Vector;
      match query {
        case Text(text) =>
          var embedded := GenerateEmbedding(embeddingModel, text, service);
          if embedded.None? {
            assert SearchScan(query, k, service) == Scan([], true);
            return Success([]);
          }
          queryVector := embedded.value;
        case Embedded(vector) =>
          queryVector := vector;
      }
      assert QueryVector(embeddingModel, query, service) == Some(queryVector);
      var reply := index(queryVector, k);
      if reply.IndexError? {
        assert SearchScan(query, k, service) == Scan([], true);
        return Success([]);
      }
      var slots := Zip(reply.indices, reply.distances);
      assert SearchScan(query, k, service) == Collect(records, slots);
      var results := MatchSlots(host, Label(query), slots);
      return Success(results);
    }

    /** The loop of `search` over the index reply's slots: skips padding, appends
        the result for each other slot and logs all results so far; a row lookup
        that raises ends the search with `[]`. */
    method MatchSlots(host: Logger.Host, queryName: string, slots: seq<(int, real)>)
      returns (results: seq<HSCodeSearchResult>)
      requires host.Valid() && host.Wired()
      modifies host
      ensures host.Valid() && host.hsLogger == old(host.hsLogger)
      ensures results == if Collect(records, slots).failed then [] else Collect(records, slots).results
      ensures LoggedSoFar(host, old(host.files), old(host.handlers), old(host.written), old(host.customLogger),
                          queryName, Collect(records, slots).results)
    {
      results := [];
      var i := 0;
      while i < |slots|
        invariant 0 <= i <= |slots|
        invariant Collect(records, slots[..i]) == Scan(results, false)
        invariant host.Valid() && host.hsLogger == old(host.hsLogger)
        invariant LoggedSoFar(host, old(host.files), old(host.handlers), old(host.written), old(host.customLogger),
                              queryName, results)
      {
        CollectStep(records, slots, i);
        var (idx, distance) := slots[i];
        if idx != -1 {
          var row := RowAt(records, idx);
          if row.None? {
            FailureSticks(records, slots, i + 1);
            assert Collect(records, slots) == Scan(results, true);
            return [];
          }
          results := LogFound(host, queryName, results, MakeResult(row.value, distance),
                              old(host.files), old(host.handlers), old(host.written), old(host.customLogger));
        }
        assert Collect(records, slots[..i + 1]) == Scan(results, false);
        i := i + 1;
      }
      assert slots[..i] == slots;
    }
  }

  /** The process state once `search` has logged the results `rs` of the query named
      `queryName`, starting from the files, handlers, write trace and `get_logger`
      global it had before: untouched while there are none; otherwise the logger
      exists (created with its console handler if it did not), the results file has
      received one entry per result so far, each with all results up to it, and
      holds the last one. */
  ghost predicate LoggedSoFar(host: Logger.Host, files0: map<Path, Logger.Stored>,
                              handlers0: map<string, seq<Logger.Handler>>, written0: seq<(Path, Json)>,
                              logger0: Logger.CustomLogger?, queryName: string, rs: seq<HSCodeSearchResult>)
    reads host
  {
    if rs == [] then
      host.files == files0 && host.handlers == handlers0 && host.written == written0 && host.customLogger == logger0
    else
      && host.customLogger != null
      && (logger0 != null ==> host.customLogger == logger0 && host.handlers == handlers0)
      && (logger0 == null ==>
            host.handlers == handlers0[Logger.SearchLoggerName :=
              Logger.WithConsole(Logger.HandlersOf(handlers0, Logger.SearchLoggerName))])
      && var path := host.customLogger.resultsHandler.filename;
         && host.written == written0 + LogTrace(path, queryName, rs)
         && host.files == Logger.Written(files0, path, Logger.SearchEntry(queryName, Dicts(rs)))
  }

  /** The body of `search`'s loop for a slot with a row: appends the result, fetches
      the logger through `get_logger()` and logs all results so far. */
  method LogFound(host: Logger.Host, queryName: string, results: seq<HSCodeSearchResult>, result: HSCodeSearchResult,
                  ghost files0: map<Path, Logger.Stored>, ghost handlers0: map<string, seq<Logger.Handler>>,
                  ghost written0: seq<(Path, Json)>, ghost logger0: Logger.CustomLogger?)
    returns (extended: seq<HSCodeSearchResult>)
    requires host.Valid() && host.Wired()
    requires LoggedSoFar(host, files0, handlers0, written0, logger0, queryName, results)
    modifies host
    ensures extended == results + [result]
    ensures host.Valid() && host.hsLogger == old(host.hsLogger)
    ensures LoggedSoFar(host, files0, handlers0, written0, logger0, queryName, extended)
  {
    extended := results + [result];
    var searchLogger := Logger.GetLogger(host);
    searchLogger.LogSearchResult(host, queryName, Dicts(extended));
    ghost var path := searchLogger.resultsHandler.filename;
    ghost var entry := Logger.SearchEntry(queryName, Dicts(extended));
    LogTraceSnoc(path, queryName, results, result);
    if results == [] {
      Logger.ResultsCreationIrrelevant(files0, path, entry);
    } else {
      Logger.ResultsLastWriteWins(files0, path, Logger.SearchEntry(queryName, Dicts(results)), entry);
    }
  }

  /** There are as many kept slots as slots that are not padding. */
  lemma KeptCount(slots: seq<(int, real)>)
    ensures |Kept(slots)| == |set i | 0 <= i < |slots| && slots[i].0 != -1|
  {
    KeptIsOrderedFilter(slots);
    var pos := KeptPositions(slots);
    assert (set i | 0 <= i < |slots| && slots[i].0 != -1) == (set j | 0 <= j < |pos| :: pos[j]);
    PositionsCount(pos);
  }

  /** A strictly increasing list of positions has as many elements as the set of them. */
  lemma {:induction false} PositionsCount(pos: seq<nat>)
    requires forall j, j' :: 0 <= j < j' < |pos| ==> pos[j] < pos[j']
    ensures |set j | 0 <= j < |pos| :: pos[j]| == |pos|
  {
    if pos != [] {
      var init := pos[..|pos| - 1];
      PositionsCount(init);
      var s := set j | 0 <= j < |init| :: init[j];
      assert (set j | 0 <= j < |pos| :: pos[j]) == s + {pos[|pos| - 1]};
      assert pos[|pos| - 1] !in s;
    }
  }

  /** `get_matcher`: the shared matcher, through `get_instance`. */
  method GetMatcher(registry: MatcherRegistry, host: Logger.Host, csvPath: Path, platform: Platform)
    returns (r: Result<FaissHSCodeMatcher, InitError>)
    modifies registry, host`handlers
    ensures old(registry.instance) != null ==>
              r == Success(old(registry.instance)) && registry.instance == old(registry.instance)
              && host.handlers == old(host.handlers)
    ensures old(registry.instance) == null ==>
              host.handlers == WithDailyFile(old(host.handlers), platform, "./logs")
    ensures old(registry.instance) == null ==>
              (r.Failure? <==> StartupError(platform, csvPath, "./logs").Some?)
              && (r.Failure? ==> Some(r.error) == StartupError(platform, csvPath, "./logs") && registry.instance == null)
              && (r.Success? ==>
                    fresh(r.value) && r.value.configured && registry.instance == r.value
                    && r.value.records == platform.readCorpus(csvPath).value.records
                    && r.value.index == platform.buildIndex(platform.readCorpus(csvPath).value.vectors).value
                    && r.value.embeddingModel == DefaultModel)
  {
    r := FaissHSCodeMatcher.GetInstance(registry, host, csvPath, platform);
  }
}
