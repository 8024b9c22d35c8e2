/**
 * The outbound search-engine request and the steps that fill it in:
 * `applyOptimizationParams`, `applyFilters` and the sort attachment.
 */
module Requests {
  import opened Wrappers
  import opened Values
  import opened Filters

  /** The optimization section of the configuration, fixed at start-up. */
  datatype Optimization = Optimization(
    attributesToCrop: seq<string>,
    cropLength: int,
    attributesToHighlight: seq<string>,
    highlightPreTag: string,
    highlightPostTag: string,
    attributesToRetrieve: seq<string>,
    attributesToSearchOn: seq<string>)

  /**
   * The fields of the engine's search request the handler sets.  An empty
   * list, an empty string, 0 and `None` are the zero values the request
   * starts with, which the engine client leaves out.
   */
  datatype EngineRequest = EngineRequest(
    query: string,
    limit: int,
    offset: int,
    attributesToCrop: seq<string>,
    cropLength: int,
    attributesToHighlight: seq<string>,
    highlightPreTag: string,
    highlightPostTag: string,
    attributesToRetrieve: seq<string>,
    attributesToSearchOn: seq<string>,
    filter: Option<seq<string>>,
    sort: seq<string>)

  /** A request carrying only the query, limit and offset. */
  function NewRequest(query: string, limit: int, offset: int): (r: EngineRequest)
    ensures r.query == query && r.limit == limit && r.offset == offset
    ensures r.attributesToCrop == [] && r.cropLength == 0
    ensures r.attributesToHighlight == [] && r.highlightPreTag == "" && r.highlightPostTag == ""
    ensures r.attributesToRetrieve == [] && r.attributesToSearchOn == []
    ensures r.filter == None && r.sort == []
  {
    EngineRequest(query, limit, offset, [], 0, [], "", "", [], [], None, [])
  }

  /** Whether the retrieve list is sent: it is non-empty and does not start with the wildcard `*`. */
  predicate RestrictsRetrieval(attrs: seq<string>) {
    |attrs| > 0 && attrs[0] != "*"
  }

  /**
   * `applyOptimizationParams`: each configured list, with the settings that
   * go with it, is copied in only when it is non-empty; the retrieve list
   * only when it also does not start with `*`.
   */
  function ApplyOptimizationParams(req: EngineRequest, opt: Optimization): (r: EngineRequest)
    ensures |opt.attributesToCrop| > 0 ==>
      r.attributesToCrop == opt.attributesToCrop && r.cropLength == opt.cropLength
    ensures |opt.attributesToCrop| == 0 ==>
      r.attributesToCrop == req.attributesToCrop && r.cropLength == req.cropLength
    ensures |opt.attributesToHighlight| > 0 ==>
      && r.attributesToHighlight == opt.attributesToHighlight
      && r.highlightPreTag == opt.highlightPreTag
      && r.highlightPostTag == opt.highlightPostTag
    ensures |opt.attributesToHighlight| == 0 ==>
      && r.attributesToHighlight == req.attributesToHighlight
      && r.highlightPreTag == req.highlightPreTag
      && r.highlightPostTag == req.highlightPostTag
    ensures r.attributesToRetrieve ==
      if RestrictsRetrieval(opt.attributesToRetrieve) then opt.attributesToRetrieve else req.attributesToRetrieve
    ensures r.attributesToSearchOn ==
      if |opt.attributesToSearchOn| > 0 then opt.attributesToSearchOn else req.attributesToSearchOn
    ensures r.query == req.query && r.limit == req.limit && r.offset == req.offset
    ensures r.filter == req.filter && r.sort == req.sort
  {
    var r1 := if |opt.attributesToCrop| > 0 then
        req.(attributesToCrop := opt.attributesToCrop, cropLength := opt.cropLength)
      else req;
    var r2 := if |opt.attributesToHighlight| > 0 then
        r1.(attributesToHighlight := opt.attributesToHighlight,
            highlightPreTag := opt.highlightPreTag,
            highlightPostTag := opt.highlightPostTag)
      else r1;
    var r3 := if |opt.attributesToRetrieve| > 0 && opt.attributesToRetrieve[0] != "*" then
        r2.(attributesToRetrieve := opt.attributesToRetrieve)
      else r2;
    if |opt.attributesToSearchOn| > 0 then r3.(attributesToSearchOn := opt.attributesToSearchOn) else r3
  }

  /** Applying the configuration a second time changes nothing. */
  lemma ApplyOptimizationParamsIdempotent(req: EngineRequest, opt: Optimization)
    ensures ApplyOptimizationParams(ApplyOptimizationParams(req, opt), opt) == ApplyOptimizationParams(req, opt)
  {
  }

  /**
   * A wildcard retrieve list, `["*"]` or any list starting with `*`, leaves
   * retrieval unrestricted: a fresh request still carries no retrieve list.
   */
  lemma WildcardRetrievesEverything(query: string, limit: int, offset: int, opt: Optimization)
    requires |opt.attributesToRetrieve| > 0 && opt.attributesToRetrieve[0] == "*"
    ensures ApplyOptimizationParams(NewRequest(query, limit, offset), opt).attributesToRetrieve == []
  {
  }

  /**
   * `applyFilters`: the filter is set to the built expressions when the map
   * is non-empty and yields at least one; otherwise the request is unchanged.
   */
  function ApplyFilters(req: EngineRequest, filters: seq<(string, Value)>): (r: EngineRequest)
    ensures r == req.(filter := r.filter)
    ensures r.filter == if |BuildFilterStrings(filters)| > 0 then Some(BuildFilterStrings(filters)) else req.filter
  {
    if |filters| == 0 then req
    else
      var fs := BuildFilterStrings(filters);
      if |fs| > 0 then req.(filter := Some(fs)) else req
  }

  /** The filter stays unset exactly when no entry of the map contributes an expression. */
  lemma ApplyFiltersUnset(req: EngineRequest, filters: seq<(string, Value)>)
    requires req.filter == None
    ensures ApplyFilters(req, filters).filter == None <==>
      forall i :: 0 <= i < |filters| ==> !Contributes(filters[i].1)
  {
    BuildFilterStringsEntries(filters);
  }

  /** The client's sort list is attached only when it is non-empty. */
  function ApplySort(req: EngineRequest, sort: seq<string>): (r: EngineRequest)
    ensures r == req.(sort := r.sort)
    ensures r.sort == if |sort| > 0 then sort else req.sort
  {
    if |sort| > 0 then req.(sort := sort) else req
  }

  /**
   * The three steps touch disjoint fields, so the order in which the handler
   * runs them does not matter.
   */
  lemma StepsCommute(req: EngineRequest, opt: Optimization, filters: seq<(string, Value)>, sort: seq<string>)
    ensures ApplyFilters(ApplyOptimizationParams(req, opt), filters) ==
      ApplyOptimizationParams(ApplyFilters(req, filters), opt)
    ensures ApplySort(ApplyOptimizationParams(req, opt), sort) ==
      ApplyOptimizationParams(ApplySort(req, sort), opt)
    ensures ApplySort(ApplyFilters(req, filters), sort) == ApplyFilters(ApplySort(req, sort), filters)
  {
  }
}
