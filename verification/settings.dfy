/**
 * The settings side of the gateway: weighting searchable attributes, and
 * assembling the settings snapshot from the eight separately read categories.
 */
module Settings {
  import opened Wrappers
  import opened Decimal
  import opened Values
  import Search

  /** The body of a settings update; `weights` only annotates searchable attributes. */
  datatype SettingRequest = SettingRequest(
    searchableAttributes: seq<string>,
    filterableAttributes: seq<string>,
    sortableAttributes: seq<string>,
    rankingRules: seq<string>,
    weights: map<string, int>)

  /** One attribute with its weight appended as `:weight`, or unchanged if it has none. */
  function Weighted(attr: string, weights: map<string, int>): string {
    if attr in weights then attr + ":" + Itoa(weights[attr]) else attr
  }

  /**
   * `applyWeightsToAttributes`: the attributes in order, each weighted
   * attribute suffixed with `:` and its weight in decimal.
   */
  function ApplyWeightsToAttributes(attrs: seq<string>, weights: map<string, int>): (r: seq<string>)
    ensures |r| == |attrs|
    ensures forall i :: 0 <= i < |attrs| ==> r[i] == Weighted(attrs[i], weights)
    decreases |attrs|
  {
    if |attrs| == 0 then []
    else ApplyWeightsToAttributes(attrs[..|attrs| - 1], weights) + [Weighted(attrs[|attrs| - 1], weights)]
  }

  /** Position of the last colon in `s`, if any. */
  function LastColon(s: string): (k: Option<nat>)
    ensures k.Some? ==> k.value < |s| && s[k.value] == ':' && ':' !in s[k.value + 1..]
    ensures k.None? ==> ':' !in s
    decreases |s|
  {
    if |s| == 0 then None
    else if s[|s| - 1] == ':' then Some(|s| - 1)
    else
      var k := LastColon(s[..|s| - 1]);
      assert k.Some? ==> s[k.value + 1..] == s[..|s| - 1][k.value + 1..] + [s[|s| - 1]];
      assert k.None? ==> s == s[..|s| - 1] + [s[|s| - 1]];
      k
  }

  /** Splits `name:weight` at its last colon when what follows is a decimal integer. */
  function SplitWeight(s: string): (string, Option<int>) {
    match LastColon(s)
    case Some(k) =>
      (match Atoi(s[k + 1..])
       case Some(w) => (s[..k], Some(w))
       case None => (s, None))
    case None => (s, None)
  }

  /** The last colon of `a + ":" + t` is the one after `a` when `t` has none. */
  lemma {:induction false} LastColonBeforeSuffix(a: string, t: string)
    requires ':' !in t
    ensures LastColon(a + ":" + t) == Some(|a|)
  {
    var s := a + ":" + t;
    var k := LastColon(s);
    assert s[|a|] == ':';
    if k.None? {
      assert false;
    } else if k.value < |a| {
      assert false;
    } else if k.value > |a| {
      assert false;
    }
  }

  /**
   * A weighted attribute can be split back into the attribute and its
   * weight; an unweighted attribute without a colon reads as carrying none.
   */
  lemma WeightRoundTrip(attr: string, weights: map<string, int>)
    ensures attr in weights ==> SplitWeight(Weighted(attr, weights)) == (attr, Some(weights[attr]))
    ensures attr !in weights && ':' !in attr ==> SplitWeight(Weighted(attr, weights)) == (attr, None)
  {
    if attr in weights {
      var t := Itoa(weights[attr]);
      var s := attr + ":" + t;
      assert ':' !in t;
      LastColonBeforeSuffix(attr, t);
      assert s[|attr| + 1..] == t;
      assert s[..|attr|] == attr;
      ItoaRoundTrip(weights[attr]);
    }
  }

  /**
   * The list `UpdateSearchableAttributes` sends: weighted only when the
   * weight map is non-empty.  With nil and empty lists identified, the
   * guard changes nothing, since with no weights every attribute passes
   * through untouched; in Go, an empty list sent without the guard would
   * become nil.
   */
  function SearchableAttributesToSend(req: SettingRequest): (r: seq<string>)
    ensures r == ApplyWeightsToAttributes(req.searchableAttributes, req.weights)
    ensures |req.weights| == 0 ==> r == req.searchableAttributes
  {
    if |req.weights| > 0 then ApplyWeightsToAttributes(req.searchableAttributes, req.weights)
    else req.searchableAttributes
  }

  /** `{"searchable_attributes": ["title", "body"], "weights": {"title": 10}}` sends `["title:10", "body"]`. */
  lemma TitleWeightedTen()
    ensures SearchableAttributesToSend(SettingRequest(["title", "body"], [], [], [], map["title" := 10])) ==
      ["title:10", "body"]
  {
    var r := SearchableAttributesToSend(SettingRequest(["title", "body"], [], [], [], map["title" := 10]));
    assert DigitChar(1) == '1' && DigitChar(0) == '0';
    assert Itoa(10) == NatDigits(1) + [DigitChar(0)] == "10";
    assert r[0] == "title" + ":" + "10" == "title:10";
    assert "body" !in map["title" := 10];
    assert r[1] == "body";
  }

  /** `derefStringSlice`: the pointee, or an empty list for a nil pointer. */
  function DerefStringSlice(ptr: Option<seq<string>>): (r: seq<string>)
    ensures ptr.Some? ==> r == ptr.value
    ensures r == [] <==> ptr.None? || ptr.value == []
  {
    ptr.GetOr([])
  }

  /** `derefStringMap`: the pointee, or an empty map for a nil pointer. */
  function DerefStringMap(ptr: Option<map<string, seq<string>>>): (r: map<string, seq<string>>)
    ensures ptr.Some? ==> r == ptr.value
    ensures r == map[] <==> ptr.None? || ptr.value == map[]
  {
    ptr.GetOr(map[])
  }

  /**
   * What the eight category reads returned.  A read that failed is only
   * logged, and its nil pointer is what the handler goes on with.
   */
  datatype SettingsReads = SettingsReads(
    searchableAttributes: Option<seq<string>>,
    filterableAttributes: Option<seq<string>>,
    sortableAttributes: Option<seq<string>>,
    rankingRules: Option<seq<string>>,
    displayedAttributes: Option<seq<string>>,
    stopWords: Option<seq<string>>,
    synonyms: Option<map<string, seq<string>>>,
    typoTolerance: Option<Value>)

  /** The settings snapshot returned to the client. */
  datatype CurrentSettings = CurrentSettings(
    searchableAttributes: seq<string>,
    filterableAttributes: seq<string>,
    sortableAttributes: seq<string>,
    rankingRules: seq<string>,
    displayedAttributes: seq<string>,
    stopWords: seq<string>,
    synonyms: map<string, seq<string>>,
    typoTolerance: Option<Value>)

  /** The settings endpoints refuse with status 400 when no index is configured. */
  datatype SettingsError = IndexNotConfigured

  /** The status the refusal is answered with. */
  function SettingsErrorStatus(e: SettingsError): (status: int)
    ensures status == 400
  {
    400
  }

  /** The `error` field of the refusal, sent with `success` false. */
  function SettingsErrorMessage(e: SettingsError): (msg: string)
    ensures msg == "索引未配置"
  {
    "索引未配置"
  }

  /**
   * A missing index is reported with the same text by the search endpoint
   * and the settings endpoints, but as a server error by the former and as
   * a client error by the latter.
   */
  lemma MissingIndexStatuses()
    ensures Search.ErrorMessage(Search.IndexNotConfigured) == Some(SettingsErrorMessage(IndexNotConfigured))
    ensures Search.ErrorStatus(Search.IndexNotConfigured) == 500
    ensures SettingsErrorStatus(IndexNotConfigured) == 400
  {
  }

  /** `GetSettings`: every category dereferenced on its own; typo tolerance passed through. */
  function GetSettings(indexUid: string, fetched: SettingsReads): (r: Result<CurrentSettings, SettingsError>)
    ensures r.Failure? <==> indexUid == ""
    ensures r.Success? ==>
      && r.value.searchableAttributes == DerefStringSlice(fetched.searchableAttributes)
      && r.value.filterableAttributes == DerefStringSlice(fetched.filterableAttributes)
      && r.value.sortableAttributes == DerefStringSlice(fetched.sortableAttributes)
      && r.value.rankingRules == DerefStringSlice(fetched.rankingRules)
      && r.value.displayedAttributes == DerefStringSlice(fetched.displayedAttributes)
      && r.value.stopWords == DerefStringSlice(fetched.stopWords)
      && r.value.synonyms == DerefStringMap(fetched.synonyms)
      && r.value.typoTolerance == fetched.typoTolerance
  {
    if indexUid == "" then Failure(IndexNotConfigured)
    else
      Success(CurrentSettings(
        DerefStringSlice(fetched.searchableAttributes),
        DerefStringSlice(fetched.filterableAttributes),
        DerefStringSlice(fetched.sortableAttributes),
        DerefStringSlice(fetched.rankingRules),
        DerefStringSlice(fetched.displayedAttributes),
        DerefStringSlice(fetched.stopWords),
        DerefStringMap(fetched.synonyms),
        fetched.typoTolerance))
  }

  /**
   * A failed synonyms read leaves only the synonyms empty: the snapshot is
   * the one the successful read would give, with `synonyms` set to `{}`.
   */
  lemma FailedSynonymsReadIsIsolated(indexUid: string, fetched: SettingsReads)
    requires indexUid != ""
    ensures GetSettings(indexUid, fetched.(synonyms := None)) ==
      Success(GetSettings(indexUid, fetched).value.(synonyms := map[]))
  {
  }
}
