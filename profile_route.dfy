/**
 * The company-profile endpoint: market classification, company name, and the
 * choice between generated bullets and a fixed three-line template.
 */
module ProfileRoute {
  import opened Wrappers
  import opened Http
  import opened Text
  import Yahoo
  import Claude

  datatype Market = Korea | USA

  function MarketName(m: Market): string {
    match m
    case Korea => "Korea"
    case USA => "USA"
  }

  /** The exchange codes of the Korean markets. */
  const KoreanExchanges: seq<string> := ["KSE", "KOE", "KSC", "KOSDAQ"]

  /** A ticker of a Korean listing: upper-cased, it ends in `.KS` or `.KQ`. */
  predicate HasKoreanSuffix(ticker: string) {
    EndsWith(ToUpper(ticker), ".KS") || EndsWith(ToUpper(ticker), ".KQ")
  }

  /** `getMarketFromQuote`. */
  function MarketFromQuote(symbol: string, currency: Option<string>, exchange: Option<string>): (m: Market)
    ensures m == Korea <==>
      || HasKoreanSuffix(symbol)
      || ToUpper(currency.GetOr("")) == "KRW"
      || ToUpper(exchange.GetOr("")) in KoreanExchanges
  {
    var exchangeUpper := ToUpper(exchange.GetOr(""));
    var currencyUpper := ToUpper(currency.GetOr(""));
    if HasKoreanSuffix(symbol) then Korea
    else if currencyUpper == "KRW" || exchangeUpper in KoreanExchanges then Korea
    else USA
  }

  /** The classification ignores the letter case of ticker, currency and exchange. */
  lemma MarketIgnoresCase(symbol: string, currency: string, exchange: string)
    ensures MarketFromQuote(ToUpper(symbol), Some(ToUpper(currency)), Some(ToUpper(exchange)))
         == MarketFromQuote(symbol, Some(currency), Some(exchange))
  {
    ToUpperIdempotent(symbol);
    ToUpperIdempotent(currency);
    ToUpperIdempotent(exchange);
  }

  const IndustryPlaceholder: string := "산업 정보 확인 중"

  /** `buildFallbackBullets`: always three lines; the second names the industry or a placeholder. */
  function FallbackBullets(symbol: string, companyName: string, industry: Option<string>, market: Market): (b: seq<string>)
    ensures |b| == 3
    ensures forall k :: 0 <= k < 3 ==> |b[k]| > 2 && b[k][..2] == Claude.Dot
    ensures b[1] == Claude.Dot + "핵심 사업 영역은 "
                  + (if industry.Some? && industry.value != "" then industry.value else IndustryPlaceholder)
                  + "입니다."
  {
    [ Claude.Dot + companyName + " (" + symbol + ")은 " + MarketName(market) + " 시장에 상장된 종목입니다.",
      Claude.Dot + "핵심 사업 영역은 "
        + (if industry.Some? && industry.value != "" then industry.value else IndustryPlaceholder) + "입니다.",
      Claude.Dot + "최근 공시/뉴스와 함께 실적, 밸류에이션, 리스크를 함께 확인하세요." ]
  }

  /** `longName ?? shortName ?? symbol`: the long name is preferred, unlike the quote endpoint. */
  function CompanyName(q: Yahoo.QuoteResult, symbol: string): (name: string)
    ensures q.longName.Some? ==> name == q.longName.value
    ensures q.longName.None? && q.shortName.Some? ==> name == q.shortName.value
    ensures q.longName.None? && q.shortName.None? ==> name == symbol
  {
    Coalesce(q.longName, q.shortName).GetOr(symbol)
  }

  datatype Source = FromClaude | Fallback

  /** The `source` field as sent: "claude" or "fallback". */
  function SourceName(s: Source): string {
    match s
    case FromClaude => "claude"
    case Fallback => "fallback"
  }

  datatype Profile = Profile(
    symbol: string,
    companyName: string,
    market: Market,
    industry: Option<string>,
    bullets: seq<string>,
    source: Source)

  datatype ProfileReply = BadRequest | NotFound | ServerError | ProfileOk(profile: Profile)

  /**
   * `GET /api/profile`, given the outcomes of `fetchYahooQuote` and
   * `fetchYahooIndustry`, whether an API key is configured and the
   * text-generation response.
   */
  function ProfileGet(symbol: Option<string>, quote: Result<Option<Yahoo.QuoteResult>, Yahoo.YahooError>,
                      industry: Option<string>, apiKeyPresent: bool, claudeRes: HttpOutcome<Claude.ClaudeBody>): (reply: ProfileReply)
    ensures reply == BadRequest <==> symbol.None? || symbol == Some("")
    ensures reply == NotFound <==> symbol.Some? && symbol.value != "" && quote == Success(None)
    ensures reply == ServerError <==>
      && symbol.Some? && symbol.value != ""
      && (quote.Failure? || (quote.value.Some? && Claude.Summarize(apiKeyPresent, claudeRes).Failure?))
    ensures reply.ProfileOk? ==>
      var q, p := quote.value.value, reply.profile;
      && p.symbol == symbol.value
      && p.companyName == CompanyName(q, symbol.value)
      && p.market == MarketFromQuote(symbol.value, q.currency, q.exchange)
      && p.industry == industry
  {
    if symbol.None? || symbol.value == "" then BadRequest
    else
      match quote
      case Failure(_) => ServerError
      case Success(None) => NotFound
      case Success(Some(q)) =>
        var name := CompanyName(q, symbol.value);
        var market := MarketFromQuote(symbol.value, q.currency, q.exchange);
        match Claude.Summarize(apiKeyPresent, claudeRes)
        case Failure(_) => ServerError
        case Success(generated) =>
          var bullets := if generated.Some? then generated.value else FallbackBullets(symbol.value, name, industry, market);
          var source := if generated.Some? then FromClaude else Fallback;
          ProfileOk(Profile(symbol.value, name, market, industry, bullets, source))
  }

  /**
   * A profile always has exactly three bullets, each starting with "• ";
   * they are the generated ones exactly when the source says so, and the
   * template otherwise.
   */
  lemma ProfileBullets(symbol: Option<string>, quote: Result<Option<Yahoo.QuoteResult>, Yahoo.YahooError>,
                       industry: Option<string>, apiKeyPresent: bool, claudeRes: HttpOutcome<Claude.ClaudeBody>)
    requires ProfileGet(symbol, quote, industry, apiKeyPresent, claudeRes).ProfileOk?
    ensures var p := ProfileGet(symbol, quote, industry, apiKeyPresent, claudeRes).profile;
      var generated := Claude.Summarize(apiKeyPresent, claudeRes);
      && |p.bullets| == 3
      && (forall k :: 0 <= k < 3 ==> |p.bullets[k]| > 2 && p.bullets[k][..2] == Claude.Dot)
      && generated.Success?
      && (p.source == FromClaude <==> generated.value.Some?)
      && SourceName(p.source) == (if generated.value.Some? then "claude" else "fallback")
      && (p.source == FromClaude ==> p.bullets == generated.value.value)
      && (p.source == Fallback ==> p.bullets == FallbackBullets(p.symbol, p.companyName, industry, p.market))
  {
    var generated := Claude.Summarize(apiKeyPresent, claudeRes);
    if generated.Success? && generated.value.Some? {
      Claude.SummaryBulletsWellFormed(apiKeyPresent, claudeRes);
    }
  }
}
