/** The symbol-search endpoint: query guard, name fallbacks and the result limit. */
module SearchRoute {
  import opened Wrappers
  import opened Http

  /** One entry of the provider's `quotes` list. */
  datatype SearchQuote = SearchQuote(
    symbol: Option<string>,
    shortname: Option<string>,
    longname: Option<string>,
    name: Option<string>,
    exchange: Option<string>,
    currency: Option<string>)

  /** The search body as far as `quotes` goes. */
  type SearchBody = Option<seq<SearchQuote>>

  datatype SearchItem = SearchItem(
    symbol: Option<string>,
    shortName: Option<string>,
    longName: Option<string>,
    exchange: Option<string>,
    currency: Option<string>)

  /** The default number of results. */
  const DefaultLimit: int := 6

  /** The mapping of one provider entry to a result. */
  function ToItem(q: SearchQuote): (item: SearchItem)
    ensures item.symbol == q.symbol && item.exchange == q.exchange && item.currency == q.currency
    ensures item.shortName == Coalesce(q.shortname, Coalesce(q.longname, q.name))
    ensures item.longName == Coalesce(q.longname, q.shortname)
  {
    SearchItem(q.symbol, Coalesce(q.shortname, Coalesce(q.longname, q.name)), Coalesce(q.longname, q.shortname),
               q.exchange, q.currency)
  }

  /** `s.slice(0, limit)`, where a negative limit counts back from the end. */
  function SliceTo<T>(s: seq<T>, limit: int): (r: seq<T>)
    ensures |r| <= |s| && r == s[..|r|]
    ensures limit >= 0 ==> |r| == if limit < |s| then limit else |s|
    ensures limit < 0 ==> |r| == if |s| + limit > 0 then |s| + limit else 0
  {
    if limit >= 0 then (if limit < |s| then s[..limit] else s)
    else if |s| + limit > 0 then s[..|s| + limit]
    else []
  }

  /**
   * `GET /api/search`. `limit` is the parsed `limit` parameter, `None` when
   * it is absent or empty.
   */
  function SearchGet(q: Option<string>, limit: Option<int>, res: HttpOutcome<SearchBody>): (items: seq<SearchItem>)
    ensures q.None? || q == Some("") || !(res.Response? && res.ok) ==> items == []
    ensures limit.None? ==> |items| <= DefaultLimit
    ensures limit.Some? && limit.value >= 0 ==> |items| <= limit.value
    ensures q.Some? && q.value != "" && res.Response? && res.ok ==>
      var quotes, n := res.body.GetOr([]), limit.GetOr(DefaultLimit);
      && (n >= 0 ==> |items| == if n < |quotes| then n else |quotes|)
      && (n < 0 ==> |items| == if |quotes| + n > 0 then |quotes| + n else 0)
      && forall k :: 0 <= k < |items| ==> items[k] == ToItem(quotes[k])
  {
    if q.None? || q.value == "" then []
    else
      match res
      case Threw => []
      case Response(ok, body) =>
        if !ok then []
        else
          var quotes := body.GetOr([]);
          var mapped := seq(|quotes|, k requires 0 <= k < |quotes| => ToItem(quotes[k]));
          SliceTo(mapped, limit.GetOr(DefaultLimit))
  }
}
