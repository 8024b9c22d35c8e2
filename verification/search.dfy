/**
 * The search endpoint as a function: the bound query and the configuration
 * go in, the engine is a parameter, and the paginated response or the
 * handler's error comes out.
 */
module Search {
  import opened Wrappers
  import opened Values
  import opened Filters
  import opened Pagination
  import opened Requests
  import opened Hits

  /** The bound query parameters; there is no client offset, it is always derived. */
  datatype SearchQuery = SearchQuery(
    query: string,
    page: int,
    limit: int,
    filters: seq<(string, Value)>,
    sort: seq<string>)

  /** The parts of the configuration the search handler reads. */
  datatype Config = Config(indexUid: string, optimization: Optimization)

  /** What the engine answers to a search. */
  datatype EngineResult = EngineResult(hits: seq<Value>, estimatedTotalHits: int, processingTimeMs: int)

  /** The response envelope; a `totalPages` of 0 is left out of the JSON. */
  datatype SearchResponse = SearchResponse(
    hits: seq<Document>,
    estimatedTotalHits: int,
    query: string,
    limit: int,
    offset: int,
    page: int,
    totalPages: int,
    processingTimeMs: int,
    indexUid: string)

  /**
   * Why a search fails.  Every failure is answered with status 500;
   * `DivisionByZero` is the run-time panic of the page count with a zero
   * limit, which the framework's recovery turns into a bare 500.
   */
  datatype SearchError = IndexNotConfigured | EngineFailed(cause: string) | DivisionByZero

  /** The status a failed search is answered with. */
  function ErrorStatus(e: SearchError): (status: int)
    ensures status == 500
  {
    500
  }

  /** The text before the engine's own error message. */
  const EngineFailurePrefix: string := "搜索失败: "

  /**
   * The `error` field of the JSON body of a failed search; the recovered
   * panic is answered without a body.
   */
  function ErrorMessage(e: SearchError): (msg: Option<string>)
    ensures msg.None? <==> e.DivisionByZero?
    ensures e.IndexNotConfigured? ==> msg == Some("索引未配置")
    ensures e.EngineFailed? ==>
      && |msg.value| == |EngineFailurePrefix| + |e.cause|
      && msg.value[..|EngineFailurePrefix|] == EngineFailurePrefix
      && msg.value[|EngineFailurePrefix|..] == e.cause
  {
    match e
    case IndexNotConfigured => Some("索引未配置")
    case EngineFailed(cause) => Some(EngineFailurePrefix + cause)
    case DivisionByZero => None
  }

  /** The engine's error is carried verbatim: different causes give different messages. */
  lemma EngineFailureMessageInjective(a: string, b: string)
    ensures ErrorMessage(EngineFailed(a)) == ErrorMessage(EngineFailed(b)) <==> a == b
  {
  }

  /**
   * The request the handler sends: page clamped, offset derived, then the
   * optimization settings, the filters and the sort list applied in turn.
   */
  function EngineRequestFor(opt: Optimization, q: SearchQuery): (r: EngineRequest)
    ensures r.query == q.query && r.limit == q.limit
    ensures r.offset == Offset(NormalizePage(q.page), q.limit)
    ensures r.sort == q.sort
    ensures r.filter == if |BuildFilterStrings(q.filters)| > 0 then Some(BuildFilterStrings(q.filters)) else None
    ensures r.attributesToRetrieve ==
      if RestrictsRetrieval(opt.attributesToRetrieve) then opt.attributesToRetrieve else []
    ensures r.attributesToCrop == opt.attributesToCrop
    ensures r.cropLength == if |opt.attributesToCrop| > 0 then opt.cropLength else 0
    ensures r.attributesToHighlight == opt.attributesToHighlight
    ensures r.highlightPreTag == if |opt.attributesToHighlight| > 0 then opt.highlightPreTag else ""
    ensures r.highlightPostTag == if |opt.attributesToHighlight| > 0 then opt.highlightPostTag else ""
    ensures r.attributesToSearchOn == opt.attributesToSearchOn
  {
    var page := NormalizePage(q.page);
    var req := NewRequest(q.query, q.limit, Offset(page, q.limit));
    ApplySort(ApplyFilters(ApplyOptimizationParams(req, opt), q.filters), q.sort)
  }

  /**
   * The response built from the engine's answer: page clamped, offset
   * derived from it, object hits kept, and the page count when there are hits.
   */
  function Respond(cfg: Config, q: SearchQuery, res: EngineResult): (r: Result<SearchResponse, SearchError>)
    ensures r.Failure? <==> res.estimatedTotalHits > 0 && q.limit == 0
    ensures r.Failure? ==> r.error == DivisionByZero
    ensures r.Success? ==>
      && r.value.page >= 1
      && (q.page >= 1 ==> r.value.page == q.page)
      && (q.page < 1 ==> r.value.page == 1)
      && r.value.offset == (r.value.page - 1) * q.limit
      && r.value.limit == q.limit && r.value.query == q.query && r.value.indexUid == cfg.indexUid
      && r.value.hits == ConvertHits(res.hits)
      && r.value.estimatedTotalHits == res.estimatedTotalHits
      && r.value.processingTimeMs == res.processingTimeMs
      && (res.estimatedTotalHits <= 0 ==> r.value.totalPages == 0)
      && (res.estimatedTotalHits > 0 && q.limit > 0 ==>
            (r.value.totalPages - 1) * q.limit < res.estimatedTotalHits <= r.value.totalPages * q.limit)
  {
    var page := NormalizePage(q.page);
    if res.estimatedTotalHits > 0 && q.limit == 0 then Failure(DivisionByZero)
    else
      Success(SearchResponse(
        ConvertHits(res.hits), res.estimatedTotalHits, q.query, q.limit, Offset(page, q.limit), page,
        TotalPages(res.estimatedTotalHits, q.limit), res.processingTimeMs, cfg.indexUid))
  }

  /**
   * `Search`, from the index check to the response, with `engine` standing
   * for the engine call: an unconfigured index fails first, an engine error
   * is reported with its cause, and otherwise the answer to exactly the
   * request `EngineRequestFor` builds is shaped by `Respond`.
   */
  function Search(cfg: Config, q: SearchQuery, engine: EngineRequest -> Result<EngineResult, string>)
    : (r: Result<SearchResponse, SearchError>)
    ensures cfg.indexUid == "" ==> r == Failure(IndexNotConfigured)
    ensures cfg.indexUid != "" && engine(EngineRequestFor(cfg.optimization, q)).Failure? ==>
      r == Failure(EngineFailed(engine(EngineRequestFor(cfg.optimization, q)).error))
    ensures cfg.indexUid != "" && engine(EngineRequestFor(cfg.optimization, q)).Success? ==>
      r == Respond(cfg, q, engine(EngineRequestFor(cfg.optimization, q)).value)
    ensures r == Failure(DivisionByZero) <==>
      && cfg.indexUid != ""
      && engine(EngineRequestFor(cfg.optimization, q)).Success?
      && engine(EngineRequestFor(cfg.optimization, q)).value.estimatedTotalHits > 0
      && q.limit == 0
  {
    if cfg.indexUid == "" then Failure(IndexNotConfigured)
    else
      match engine(EngineRequestFor(cfg.optimization, q))
      case Failure(cause) => Failure(EngineFailed(cause))
      case Success(res) => Respond(cfg, q, res)
  }

  /** 47 estimated hits at 20 per page make 3 pages. */
  lemma FortySevenHitsMakeThreePages()
    ensures TotalPages(47, 20) == 3
  {
  }

  /**
   * `query=shoes&page=2&limit=10` with 25 estimated hits answers offset 10,
   * page 2 and 3 pages.
   */
  lemma SecondPageOfShoes(cfg: Config, engine: EngineRequest -> Result<EngineResult, string>)
    requires cfg.indexUid != ""
    requires engine(EngineRequestFor(cfg.optimization, SearchQuery("shoes", 2, 10, [], []))).Success?
    requires engine(EngineRequestFor(cfg.optimization, SearchQuery("shoes", 2, 10, [], []))).value.estimatedTotalHits == 25
    ensures Search(cfg, SearchQuery("shoes", 2, 10, [], []), engine).Success?
    ensures Search(cfg, SearchQuery("shoes", 2, 10, [], []), engine).value.offset == 10
    ensures Search(cfg, SearchQuery("shoes", 2, 10, [], []), engine).value.page == 2
    ensures Search(cfg, SearchQuery("shoes", 2, 10, [], []), engine).value.totalPages == 3
  {
  }
}
