/**
 * The authenticated quote-provider client: a cached session (crumb and
 * cookie with an expiry), its acquisition through a two-step handshake, and
 * the JSON fetch that attaches the session to a request.
 */
module Yahoo {
  import opened Wrappers
  import opened Http
  import opened Text

  /** A session lives for twenty minutes. */
  const SessionTtlMs: int := 1000 * 60 * 20

  datatype Session = Session(crumb: string, cookie: string, expiresAt: int)

  /** Why an acquisition failed. */
  datatype SessionError =
    | HandshakeThrew     // one of the two handshake requests rejected
    | MissingCookie      // no usable `set-cookie` value
    | CrumbFetchFailed   // the crumb response was not ok
    | InvalidCrumb       // empty crumb, or one that says "unauthorized"

  /**
   * What one acquisition would observe: the seed response (its body is the
   * `set-cookie` header, if any), the crumb response (its body is the text),
   * and the clock reading taken once both have arrived.
   */
  datatype Attempt = Attempt(seed: HttpOutcome<Option<string>>, crumb: HttpOutcome<string>, clock: int)

  /** The cookie is the part of the `set-cookie` header before the first `;`. */
  function CookieOf(setCookie: Option<string>): (cookie: string)
    ensures var h := setCookie.GetOr("");
      && |cookie| <= |h| && cookie == h[..|cookie|]
      && ';' !in cookie
      && (|cookie| < |h| ==> h[|cookie|] == ';')
    ensures setCookie.None? ==> cookie == ""
  {
    BeforeFirst(setCookie.GetOr(""), ';')
  }

  /** A crumb is usable when it is non-empty and does not say "unauthorized" in any letter case. */
  predicate CrumbUsable(crumb: string) {
    crumb != "" && !Contains(ToLower(crumb), "unauthorized")
  }

  /** One acquisition: validate the cookie, then the crumb, then stamp the expiry. */
  function RequestSession(a: Attempt): (r: Result<Session, SessionError>)
    ensures r.Success? <==>
      && a.seed.Response? && CookieOf(a.seed.body) != ""
      && a.crumb.Response? && a.crumb.ok && CrumbUsable(Trim(a.crumb.body))
    ensures r.Success? ==>
      && r.value.cookie == CookieOf(a.seed.body)
      && r.value.crumb == Trim(a.crumb.body)
      && r.value.expiresAt == a.clock + SessionTtlMs
    ensures r == Failure(MissingCookie) <==> a.seed.Response? && CookieOf(a.seed.body) == ""
  {
    if a.seed.Threw? then Failure(HandshakeThrew)
    else
      var cookie := CookieOf(a.seed.body);
      if cookie == "" then Failure(MissingCookie)
      else if a.crumb.Threw? then Failure(HandshakeThrew)
      else if !a.crumb.ok then Failure(CrumbFetchFailed)
      else
        var crumb := Trim(a.crumb.body);
        if !CrumbUsable(crumb) then Failure(InvalidCrumb)
        else Success(Session(crumb, cookie, a.clock + SessionTtlMs))
  }

  /**
   * Every acquired session carries a non-empty cookie with no attribute part,
   * a crumb that does not say "unauthorized", and an expiry twenty minutes
   * after the acquisition finished.
   */
  lemma {:induction false} AcquiredSessionUsable(a: Attempt, s: Session)
    requires RequestSession(a) == Success(s)
    ensures s.cookie != "" && ';' !in s.cookie
    ensures !Contains(ToLower(s.crumb), "unauthorized")
    ensures s.expiresAt - a.clock == 1_200_000
  {
  }

  /** The crumb of an acquired session is non-empty and has no surrounding white space. */
  lemma {:induction false} AcquiredCrumbTrimmed(a: Attempt, s: Session)
    requires RequestSession(a) == Success(s)
    ensures s.crumb != "" && !IsSpace(s.crumb[0]) && !IsSpace(s.crumb[|s.crumb| - 1])
  {
    var c := Trim(a.crumb.body);
    assert s.crumb == c && CrumbUsable(c);
  }

  /** A cached session is reused while its expiry lies strictly in the future. */
  predicate Reusable(cached: Option<Session>, now: int) {
    cached.Some? && cached.value.expiresAt > now
  }

  /** The session a lookup at time `now` resolves to. */
  function SessionFor(cached: Option<Session>, now: int, a: Attempt): Result<Session, SessionError>
  {
    if Reusable(cached, now) then Success(cached.value) else RequestSession(a)
  }

  /** The cached session after a lookup at time `now`. */
  function CacheAfter(cached: Option<Session>, now: int, a: Attempt): Option<Session>
  {
    if Reusable(cached, now) then cached
    else
      match RequestSession(a)
      case Success(s) => Some(s)
      case Failure(_) => cached
  }

  /** A lookup does no handshake exactly when the cached session has not expired. */
  lemma ReuseIffUnexpired(cached: Option<Session>, now: int, a: Attempt, b: Attempt)
    requires RequestSession(a) != RequestSession(b)
    ensures Reusable(cached, now) <==> SessionFor(cached, now, a) == SessionFor(cached, now, b)
    ensures Reusable(cached, now) ==> CacheAfter(cached, now, a) == cached
  {
  }

  /** A session whose expiry equals the current time is not reused. */
  lemma ExpiryIsStrict(s: Session, a: Attempt)
    ensures SessionFor(Some(s), s.expiresAt, a) == RequestSession(a)
  {
  }

  /** A failed acquisition leaves the cache as it was; a successful one replaces it. */
  lemma AcquisitionUpdatesCache(cached: Option<Session>, now: int, a: Attempt)
    requires !Reusable(cached, now)
    ensures RequestSession(a).Failure? ==> CacheAfter(cached, now, a) == cached
    ensures RequestSession(a).Success? ==>
      && CacheAfter(cached, now, a) == Some(RequestSession(a).value)
      && CacheAfter(cached, now, a).value.expiresAt == a.clock + 1_200_000
  {
  }

  /**
   * The process-wide session cache. `pending` stands for the in-flight
   * acquisition marker; in this sequential model it is set for the duration of
   * one acquisition and is clear between calls.
   */
  class SessionCache {
    var cached: Option<Session>
    var pending: bool

    ghost predicate Valid()
      reads this
    {
      !pending
    }

    constructor ()
      ensures Valid() && cached == None
    {
      cached := None;
      pending := false;
    }

    /** `getYahooSession`. */
    method GetSession(now: int, a: Attempt) returns (r: Result<Session, SessionError>)
      requires Valid()
      modifies this
      ensures Valid()
      ensures r == SessionFor(old(cached), now, a)
      ensures cached == CacheAfter(old(cached), now, a)
    {
      if cached.Some? && cached.value.expiresAt > now {
        return Success(cached.value);
      }
      pending := true;
      r := RequestSession(a);
      pending := false;
      if r.Success? {
        cached := Some(r.value);
      }
    }
  }

  /** Why an authenticated fetch failed. */
  datatype YahooError = SessionFailed(cause: SessionError) | Transport | BadStatus

  /** The parts of the outbound request this model tracks: its query and its cookie header. */
  datatype Request = Request(query: map<string, string>, cookie: Option<string>)

  /** The entries of a `Record<string, string>`: each key once. */
  predicate DistinctKeys(params: seq<(string, string)>) {
    forall i, j :: 0 <= i < j < |params| ==> params[i].0 != params[j].0
  }

  /**
   * The query of an authenticated request: every parameter with a non-empty
   * value, and the session crumb when it is non-empty, overriding any `crumb`
   * parameter.
   */
  ghost predicate QueryFor(params: seq<(string, string)>, crumb: string, query: map<string, string>) {
    && (forall k :: k in query <==>
          (k == "crumb" && crumb != "") || exists i :: 0 <= i < |params| && params[i].0 == k && params[i].1 != "")
    && (crumb != "" ==> query["crumb"] == crumb)
    && (forall i :: 0 <= i < |params| && params[i].1 != "" && (params[i].0 != "crumb" || crumb == "") ==>
          query[params[i].0] == params[i].1)
  }

  /** The `forEach` over the parameters, then the crumb. */
  method SearchParams(params: seq<(string, string)>, crumb: string) returns (query: map<string, string>)
    requires DistinctKeys(params)
    ensures QueryFor(params, crumb, query)
    ensures forall k :: k in query ==> query[k] != ""
  {
    query := map[];
    var i := 0;
    while i < |params|
      invariant 0 <= i <= |params|
      invariant forall k :: k in query <==> exists j :: 0 <= j < i && params[j].0 == k && params[j].1 != ""
      invariant forall j :: 0 <= j < i && params[j].1 != "" ==> query[params[j].0] == params[j].1
      invariant forall k :: k in query ==> query[k] != ""
    {
      var (key, value) := params[i];
      if value != "" {
        query := query[key := value];
      }
      i := i + 1;
    }
    if crumb != "" {
      query := query["crumb" := crumb];
    }
  }

  /** What an authenticated fetch resolves to once the session is known. */
  function Reply<T>(session: Result<Session, SessionError>, res: HttpOutcome<T>): (r: Result<T, YahooError>)
    ensures session.Failure? ==> r == Failure(SessionFailed(session.error))
    ensures r.Success? <==> session.Success? && res.Response? && res.ok
    ensures r.Success? ==> r.value == res.body
  {
    match session
    case Failure(e) => Failure(SessionFailed(e))
    case Success(_) =>
      match res
      case Threw => Failure(Transport)
      case Response(ok, body) => if ok then Success(body) else Failure(BadStatus)
  }

  /** `yahooFetchJson`: obtain the session, build the request, classify the response. */
  method FetchJson<T>(cache: SessionCache, now: int, a: Attempt, params: seq<(string, string)>, res: HttpOutcome<T>)
    returns (req: Option<Request>, r: Result<T, YahooError>)
    requires cache.Valid() && DistinctKeys(params)
    modifies cache
    ensures cache.Valid() && cache.cached == CacheAfter(old(cache.cached), now, a)
    ensures var s := SessionFor(old(cache.cached), now, a);
      && r == Reply(s, res)
      && (req.Some? <==> s.Success?)
      && (req.Some? ==> QueryFor(params, s.value.crumb, req.value.query))
      && (req.Some? ==> req.value.cookie == if s.value.cookie != "" then Some(s.value.cookie) else None)
  {
    var session := cache.GetSession(now, a);
    if session.Failure? {
      return None, Failure(SessionFailed(session.error));
    }
    var query := SearchParams(params, session.value.crumb);
    var cookie := if session.value.cookie != "" then Some(session.value.cookie) else None;
    req := Some(Request(query, cookie));
    r := Reply(session, res);
  }

  /** The fields of one provider quote record. */
  datatype QuoteResult = QuoteResult(
    symbol: Option<string>,
    shortName: Option<string>,
    longName: Option<string>,
    regularMarketPrice: Option<real>,
    postMarketPrice: Option<real>,
    preMarketPrice: Option<real>,
    regularMarketPreviousClose: Option<real>,
    regularMarketChangePercent: Option<real>,
    currency: Option<string>,
    exchange: Option<string>)

  /** The quote body as far as `quoteResponse.result` goes. */
  type QuoteBody = Option<seq<QuoteResult>>

  /** The company-summary body as far as `quoteSummary.result` goes. */
  datatype AssetProfile = AssetProfile(industry: Option<string>)
  datatype SummaryResult = SummaryResult(assetProfile: Option<AssetProfile>)
  type SummaryBody = Option<seq<SummaryResult>>

  /** `data?.quoteSummary?.result?.[0]?.assetProfile?.industry ?? null`. */
  function IndustryFromSummary(body: SummaryBody): (industry: Option<string>)
    ensures industry.Some? <==>
      && body.Some? && |body.value| > 0
      && body.value[0].assetProfile.Some? && body.value[0].assetProfile.value.industry.Some?
    ensures industry.Some? ==> industry == body.value[0].assetProfile.value.industry
  {
    match FirstResult(body)
    case None => None
    case Some(first) =>
      match first.assetProfile
      case None => None
      case Some(profile) => profile.industry
  }

  /** `fetchYahooQuote` after the fetch: the first quote, or null when there is none. */
  function QuoteOf(r: Result<QuoteBody, YahooError>): (q: Result<Option<QuoteResult>, YahooError>)
    ensures r.Failure? ==> q == Failure(r.error)
    ensures r.Success? ==> q.Success? && q.value == FirstResult(r.value)
  {
    match r
    case Failure(e) => Failure(e)
    case Success(body) => Success(FirstResult(body))
  }

  /** `fetchYahooIndustry` after the fetch: any failure becomes null. */
  function IndustryOf(r: Result<SummaryBody, YahooError>): (industry: Option<string>)
    ensures r.Failure? ==> industry == None
    ensures r.Success? ==> industry == IndustryFromSummary(r.value)
  {
    match r
    case Failure(_) => None
    case Success(body) => IndustryFromSummary(body)
  }

  /** `fetchYahooQuote(symbol)`. */
  method FetchQuote(cache: SessionCache, now: int, a: Attempt, symbol: string, res: HttpOutcome<QuoteBody>)
    returns (req: Option<Request>, q: Result<Option<QuoteResult>, YahooError>)
    requires cache.Valid()
    modifies cache
    ensures cache.Valid() && cache.cached == CacheAfter(old(cache.cached), now, a)
    ensures var s := SessionFor(old(cache.cached), now, a);
      && q == QuoteOf(Reply(s, res))
      && (req.Some? <==> s.Success?)
      && (req.Some? ==> QueryFor([("symbols", symbol)], s.value.crumb, req.value.query))
      && (req.Some? ==> req.value.cookie == if s.value.cookie != "" then Some(s.value.cookie) else None)
  {
    var r;
    req, r := FetchJson(cache, now, a, [("symbols", symbol)], res);
    q := QuoteOf(r);
  }

  /** `fetchYahooIndustry(symbol)`: never fails. */
  method FetchIndustry(cache: SessionCache, now: int, a: Attempt, symbol: string, res: HttpOutcome<SummaryBody>)
    returns (req: Option<Request>, industry: Option<string>)
    requires cache.Valid()
    modifies cache
    ensures cache.Valid() && cache.cached == CacheAfter(old(cache.cached), now, a)
    ensures var s := SessionFor(old(cache.cached), now, a);
      && industry == IndustryOf(Reply(s, res))
      && (req.Some? <==> s.Success?)
      && (req.Some? ==> QueryFor([("modules", "assetProfile")], s.value.crumb, req.value.query))
      && (req.Some? ==> req.value.cookie == if s.value.cookie != "" then Some(s.value.cookie) else None)
  {
    var r;
    req, r := FetchJson(cache, now, a, [("modules", "assetProfile")], res);
    industry := IndustryOf(r);
  }
}
