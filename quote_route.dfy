/**
 * The quote endpoint: it fetches the quote and the industry directly from
 * the provider (without the session client), picks the status and shapes the
 * response with `??` fallback chains.
 */
module QuoteRoute {
  import opened Wrappers
  import opened Http
  import Yahoo

  /** `fetchQuote`: a thrown error or a non-ok response fails; otherwise the first result or null. */
  function FetchQuote(res: HttpOutcome<Yahoo.QuoteBody>): (q: Result<Option<Yahoo.QuoteResult>, ()>)
    ensures q.Success? <==> res.Response? && res.ok
    ensures q.Success? ==> q.value == FirstResult(res.body)
  {
    match res
    case Threw => Failure(())
    case Response(ok, body) => if ok then Success(FirstResult(body)) else Failure(())
  }

  /** `fetchIndustry`: never fails; every failure is null. */
  function FetchIndustry(res: HttpOutcome<Yahoo.SummaryBody>): (industry: Option<string>)
    ensures !(res.Response? && res.ok) ==> industry == None
    ensures res.Response? && res.ok ==> industry == Yahoo.IndustryFromSummary(res.body)
  {
    match res
    case Threw => None
    case Response(ok, body) => if ok then Yahoo.IndustryFromSummary(body) else None
  }

  /** The JSON body of a successful reply. */
  datatype QuoteView = QuoteView(
    symbol: string,
    shortName: Option<string>,
    longName: Option<string>,
    currentPrice: Option<real>,
    regularMarketChangePercent: Option<real>,
    currency: Option<string>,
    exchange: Option<string>,
    industry: Option<string>)

  datatype QuoteReply = BadRequest | NotFound | ServerError | QuoteOk(view: QuoteView)

  /** `regularMarketPrice ?? postMarketPrice ?? preMarketPrice ?? null`. */
  function CurrentPrice(q: Yahoo.QuoteResult): (p: Option<real>)
    ensures q.regularMarketPrice.Some? ==> p == q.regularMarketPrice
    ensures q.regularMarketPrice.None? && q.postMarketPrice.Some? ==> p == q.postMarketPrice
    ensures q.regularMarketPrice.None? && q.postMarketPrice.None? ==> p == q.preMarketPrice
  {
    Coalesce(q.regularMarketPrice, Coalesce(q.postMarketPrice, q.preMarketPrice))
  }

  /** The response body for a found quote. */
  function Shape(symbol: string, q: Yahoo.QuoteResult, industry: Option<string>): (v: QuoteView)
    ensures v.symbol == q.symbol.GetOr(symbol)
    ensures v.shortName == (if q.shortName.Some? then q.shortName else q.longName)
    ensures v.longName == q.longName
    ensures v.currentPrice == CurrentPrice(q)
    ensures v.regularMarketChangePercent == q.regularMarketChangePercent
    ensures v.currency == q.currency && v.exchange == q.exchange && v.industry == industry
  {
    QuoteView(
      q.symbol.GetOr(symbol),
      Coalesce(q.shortName, q.longName),
      q.longName,
      CurrentPrice(q),
      q.regularMarketChangePercent,
      q.currency,
      q.exchange,
      industry)
  }

  /** `GET /api/quote`, given what the two upstream fetches produced. */
  function QuoteGet(symbol: Option<string>, quoteRes: HttpOutcome<Yahoo.QuoteBody>,
                    industryRes: HttpOutcome<Yahoo.SummaryBody>): (reply: QuoteReply)
    ensures reply == BadRequest <==> symbol.None? || symbol == Some("")
    ensures reply == ServerError <==> symbol.Some? && symbol.value != "" && !(quoteRes.Response? && quoteRes.ok)
    ensures reply == NotFound <==>
      symbol.Some? && symbol.value != "" && quoteRes.Response? && quoteRes.ok && FirstResult(quoteRes.body).None?
    ensures reply.QuoteOk? ==>
      && quoteRes.Response? && FirstResult(quoteRes.body).Some?
      && reply.view == Shape(symbol.value, FirstResult(quoteRes.body).value, FetchIndustry(industryRes))
  {
    if symbol.None? || symbol.value == "" then BadRequest
    else
      match FetchQuote(quoteRes)
      case Failure(_) => ServerError
      case Success(None) => NotFound
      case Success(Some(q)) => QuoteOk(Shape(symbol.value, q, FetchIndustry(industryRes)))
  }

  /** The displayed price never comes from the previous close, and a zero price is kept. */
  lemma PriceIgnoresPreviousClose(q: Yahoo.QuoteResult)
    ensures CurrentPrice(q).Some? <==>
      q.regularMarketPrice.Some? || q.postMarketPrice.Some? || q.preMarketPrice.Some?
    ensures q.regularMarketPrice == Some(0.0) ==> CurrentPrice(q) == Some(0.0)
    ensures CurrentPrice(q.(regularMarketPreviousClose := None)) == CurrentPrice(q)
  {
  }

  /** A failed industry lookup never turns into an error reply. */
  lemma IndustryFailureHarmless(symbol: Option<string>, quoteRes: HttpOutcome<Yahoo.QuoteBody>,
                                industryRes: HttpOutcome<Yahoo.SummaryBody>)
    requires !(industryRes.Response? && industryRes.ok)
    ensures var reply := QuoteGet(symbol, quoteRes, industryRes);
      && (reply == ServerError <==> symbol.Some? && symbol.value != "" && !(quoteRes.Response? && quoteRes.ok))
      && (reply.QuoteOk? ==> reply.view.industry == None)
  {
  }
}
