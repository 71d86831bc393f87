/**
 * How the data service reads the query string of a list request: the page
 * size (`getLimit`), the page number (`getPage`), the number of documents
 * to skip, the sort order (`getOrderBy`) and the filter (`getFilter`).
 *
 * Query parameters arrive here already decoded: a number parameter as an
 * integer, a parameter that holds JSON as the result of parsing it.
 */
module Query {
  import opened Wrappers
  import opened JsObject
  import opened JsString

  /** The outcome of `JSON.parse` on a query parameter. */
  datatype Json<+T> = Parsed(value: T) | SyntaxError

  /** The failure `JSON.parse` throws, which the pipelines pass on. */
  datatype ParseFailure = BadJson

  /**
   * `a || b` for two query-string parameters: a parameter that is given is
   * non-empty text, which is truthy even when it reads `0`.
   */
  function FirstTruthy(a: Option<int>, b: Option<int>): (r: Option<int>)
    ensures r.None? <==> a.None? && b.None?
    ensures a.Some? ==> r == a
  {
    if a.Some? then a else b
  }

  /**
   * `getLimit`: the page size asked for (`perPage`, else `per_page`),
   * capped at `maxPerPage`; `defaultPerPage` when neither is given.
   */
  function GetLimit(defaultPerPage: int, maxPerPage: int, perPage: Option<int>, perPageAlt: Option<int>): (r: int)
    ensures FirstTruthy(perPage, perPageAlt).None? ==> r == defaultPerPage
    ensures FirstTruthy(perPage, perPageAlt).Some? ==>
      var asked := FirstTruthy(perPage, perPageAlt).value;
      && r <= asked && r <= maxPerPage
      && (r == asked || r == maxPerPage)
  {
    var asked := FirstTruthy(perPage, perPageAlt);
    if asked.None? then defaultPerPage
    else if asked.value <= maxPerPage then asked.value
    else maxPerPage
  }

  /**
   * `perPage=0` is taken as asked: the text `"0"` is truthy, so `per_page`
   * is not looked at and the page size is 0, below any non-negative cap.
   */
  lemma ZeroPerPage(defaultPerPage: int, maxPerPage: int, perPageAlt: Option<int>)
    requires maxPerPage >= 0
    ensures GetLimit(defaultPerPage, maxPerPage, Some(0), perPageAlt) == 0
  {
  }

  /**
   * `getPage`: `parseInt(page)`, or `firstPageIndex` when that is `NaN` or
   * zero (the parameter is absent, not a number, or `0`).
   */
  function GetPage(page: Option<string>, firstPageIndex: int): (r: int)
    ensures page.Some? && ParseInt(page.value).Some? && ParseInt(page.value).value != 0 ==>
      r == ParseInt(page.value).value
    ensures page.None? || ParseInt(page.value).None? || ParseInt(page.value).value == 0 ==>
      r == firstPageIndex
  {
    var parsed := if page.Some? then ParseInt(page.value) else None;
    if parsed.Some? && parsed.value != 0 then parsed.value else firstPageIndex
  }

  /**
   * A page number written into a link (`'' + n`) is read back as the same
   * page by `getPage`, whatever the first page index.
   */
  lemma GetPageOfWrittenPage(n: int, firstPageIndex: int)
    requires n != 0
    ensures GetPage(Some(IntToString(n)), firstPageIndex) == n
  {
    ParseIntOfIntToString(n);
  }

  /** `(page - 1) * limit`: the documents on the pages before `page`. */
  function Skip(page: int, limit: int): (r: int)
    ensures page >= 1 && limit >= 0 ==> r >= 0
    ensures page == 1 ==> r == 0
  {
    (page - 1) * limit
  }

  /** Consecutive pages are adjacent: the next page starts `limit` further on. */
  lemma SkipNextPage(page: int, limit: int)
    ensures Skip(page + 1, limit) == Skip(page, limit) + limit
  {
  }

  /**
   * `getOrderBy`: the parsed `orderBy` parameter when it is given (a
   * non-empty string), else the configured `orderBy`.
   */
  function GetOrderBy(orderByParam: Option<Json<Value>>, configured: Value): (r: Result<Value, ParseFailure>)
    ensures orderByParam.None? ==> r == Ok(configured)
    ensures orderByParam.Some? && orderByParam.value.Parsed? ==> r == Ok(orderByParam.value.value)
    ensures r.Err? <==> orderByParam.Some? && orderByParam.value.SyntaxError?
  {
    match orderByParam
    case None => Ok(configured)
    case Some(Parsed(v)) => Ok(v)
    case Some(SyntaxError) => Err(BadJson)
  }

  /**
   * The filter of `getFilter`: the parsed `filter` parameter, else the
   * default filter, else `{}`, with the path conditions assigned over it.
   */
  function MergeFilter(filterParam: Option<Json<Doc>>, defaultFilter: Option<Doc>, conditions: Doc): (r: Result<Doc, ParseFailure>)
    requires filterParam.Some? && filterParam.value.Parsed? ==> filterParam.value.value.Valid()
    requires defaultFilter.Some? ==> defaultFilter.value.Valid()
    requires conditions.Valid()
    ensures r.Err? <==> filterParam.Some? && filterParam.value.SyntaxError?
    ensures r.Ok? ==> r.value.Valid()
  {
    match filterParam
    case Some(SyntaxError) => Err(BadJson)
    case Some(Parsed(f)) => Ok(Assign(f, conditions))
    case None => Ok(Assign(defaultFilter.GetOr(Empty()), conditions))
  }

  /**
   * The configured default filter after `getFilter`: with no `filter`
   * parameter, `_.assign` writes the path conditions into the configured
   * object itself, so they stay in it for later requests.
   */
  function DefaultFilterAfter(filterParam: Option<Json<Doc>>, defaultFilter: Option<Doc>, conditions: Doc): (r: Option<Doc>)
    requires defaultFilter.Some? ==> defaultFilter.value.Valid()
    requires conditions.Valid()
    ensures r.Some? <==> defaultFilter.Some?
    ensures r.Some? ==> r.value.Valid()
    ensures filterParam.Some? ==> r == defaultFilter
  {
    if filterParam.None? && defaultFilter.Some? then Some(Assign(defaultFilter.value, conditions)) else defaultFilter
  }

  /**
   * When the default filter is used, what it holds afterwards is the very
   * filter the request ran with: it keeps every key it had and gains every
   * path condition with the condition's value.
   */
  lemma {:induction false} DefaultFilterKeepsConditions(defaultFilter: Doc, conditions: Doc)
    requires defaultFilter.Valid() && conditions.Valid()
    ensures var after := DefaultFilterAfter(None, Some(defaultFilter), conditions).value;
      && Ok(after) == MergeFilter(None, Some(defaultFilter), conditions)
      && (forall k :: k in defaultFilter.vals ==> k in after.vals)
      && (forall k :: k in conditions.vals ==> k in after.vals && after.vals[k] == conditions.vals[k])
  {
    ConditionsWin(None, Some(defaultFilter), conditions);
  }

  /** The filter a request names, before the path conditions go over it. */
  function BaseFilter(filterParam: Option<Json<Doc>>, defaultFilter: Option<Doc>): Doc
    requires filterParam.Some? ==> filterParam.value.Parsed?
  {
    if filterParam.Some? then filterParam.value.value else defaultFilter.GetOr(Empty())
  }

  /**
   * Path conditions always win: every condition is in the merged filter
   * with its own value, and every other key keeps the value the query
   * filter (or the default filter) gave it.
   */
  lemma {:induction false} ConditionsWin(filterParam: Option<Json<Doc>>, defaultFilter: Option<Doc>, conditions: Doc)
    requires filterParam.Some? ==> filterParam.value.Parsed? && filterParam.value.value.Valid()
    requires defaultFilter.Some? ==> defaultFilter.value.Valid()
    requires conditions.Valid()
    ensures MergeFilter(filterParam, defaultFilter, conditions).Ok?
    ensures var f := MergeFilter(filterParam, defaultFilter, conditions).value;
            var base := BaseFilter(filterParam, defaultFilter);
      && (forall k :: k in f.vals <==> k in base.vals || k in conditions.vals)
      && (forall k :: k in conditions.vals ==> f.vals[k] == conditions.vals[k])
      && (forall k :: k in base.vals && k !in conditions.vals ==> f.vals[k] == base.vals[k])
  {
    var base := BaseFilter(filterParam, defaultFilter);
    assert MergeFilter(filterParam, defaultFilter, conditions) == Ok(Assign(base, conditions));
  }
}
