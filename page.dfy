/**
 * The client page's list logic: the market label of a watchlist card, adding
 * and deleting watchlist tickers, the USA/Korea grouping, the search
 * suggestion list, and the exchange-rate state that is filled from the
 * forex endpoint or from stored snapshots.
 */
module Page {
  import opened Wrappers
  import opened Http
  import opened Text
  import opened Seqs
  import ProfileRoute

  /** A quote as the page receives it from the quote or search endpoint. */
  datatype QuoteData = QuoteData(
    symbol: Option<string>,
    shortName: Option<string>,
    longName: Option<string>,
    currentPrice: Option<real>,
    regularMarketChangePercent: Option<real>,
    currency: Option<string>,
    exchange: Option<string>,
    industry: Option<string>)

  // ---------------------------------------------------------------------------
  // Market label

  /**
   * `getMarketLabel`: the page's own copy of the market rule, which must
   * classify a card the same way the profile endpoint does.
   */
  function MarketLabel(ticker: string, info: Option<QuoteData>): (m: ProfileRoute.Market)
    ensures m == ProfileRoute.MarketFromQuote(
                   ticker,
                   if info.Some? then info.value.currency else None,
                   if info.Some? then info.value.exchange else None)
  {
    var exchange := ToUpper(if info.Some? then info.value.exchange.GetOr("") else "");
    var currency := ToUpper(if info.Some? then info.value.currency.GetOr("") else "");
    var tickerUpper := ToUpper(ticker);
    if EndsWith(tickerUpper, ".KS") || EndsWith(tickerUpper, ".KQ") then ProfileRoute.Korea
    else if currency == "KRW" || exchange in ProfileRoute.KoreanExchanges then ProfileRoute.Korea
    else ProfileRoute.USA
  }

  // ---------------------------------------------------------------------------
  // Watchlist

  /** `handleAddTicker`: the upper-cased ticker is appended unless already present. */
  function AddTicker(watchlist: seq<string>, ticker: string): (w: seq<string>)
    ensures ToUpper(ticker) in w
    ensures ToUpper(ticker) in watchlist ==> w == watchlist
    ensures ToUpper(ticker) !in watchlist ==> w == watchlist + [ToUpper(ticker)]
  {
    var symbol := ToUpper(ticker);
    if symbol in watchlist then watchlist else watchlist + [symbol]
  }

  /** A watchlist without duplicates stays without duplicates. */
  lemma AddKeepsDistinct(watchlist: seq<string>, ticker: string)
    requires Distinct(watchlist)
    ensures Distinct(AddTicker(watchlist, ticker))
    ensures multiset(AddTicker(watchlist, ticker))[ToUpper(ticker)] == 1
  {
    var w := AddTicker(watchlist, ticker);
    var symbol := ToUpper(ticker);
    if symbol !in watchlist {
      assert w == watchlist + [symbol];
      assert multiset(w) == multiset(watchlist) + multiset{symbol};
    }
    DistinctCount(w, symbol);
  }

  /** In a sequence without duplicates each member occurs once. */
  lemma {:induction false} DistinctCount(s: seq<string>, x: string)
    requires Distinct(s) && x in s
    ensures multiset(s)[x] == 1
    decreases |s|
  {
    assert s == [s[0]] + s[1..];
    if s[0] == x {
      assert x !in s[1..];
    } else {
      DistinctCount(s[1..], x);
    }
  }

  /** `handleDeleteTicker`: every entry equal to the ticker is removed. */
  function DeleteTicker(watchlist: seq<string>, ticker: string): (w: seq<string>)
    ensures ticker !in w
    ensures forall x :: x != ticker ==> multiset(w)[x] == multiset(watchlist)[x]
  {
    var keep := (item: string) => item != ticker;
    FilterMembers(watchlist, keep, ticker);
    assert forall x :: multiset(Filter(watchlist, keep))[x]
                       == if keep(x) then multiset(watchlist)[x] else 0 by {
      forall x { FilterCount(watchlist, keep, x); }
    }
    Filter(watchlist, keep)
  }

  /** Deleting works piecewise, so the remaining entries keep their order. */
  lemma DeleteKeepsOrder(a: seq<string>, b: seq<string>, ticker: string)
    ensures DeleteTicker(a + b, ticker) == DeleteTicker(a, ticker) + DeleteTicker(b, ticker)
  {
    FilterAppend(a, b, (item: string) => item != ticker);
  }

  /** Deleting a ticker that was just added restores the watchlist. */
  lemma DeleteUndoesAdd(watchlist: seq<string>, ticker: string)
    requires ToUpper(ticker) !in watchlist
    ensures DeleteTicker(AddTicker(watchlist, ticker), ToUpper(ticker)) == watchlist
  {
    var symbol := ToUpper(ticker);
    var keep := (item: string) => item != symbol;
    FilterAppend(watchlist, [symbol], keep);
    FilterKeepsAll(watchlist, keep);
    assert Filter([symbol], keep) == [];
  }

  /** The grouping test of the watchlist: the upper-cased ticker ends in `.KS` or `.KQ`. */
  predicate IsKoreanTicker(ticker: string) {
    EndsWith(ToUpper(ticker), ".KS") || EndsWith(ToUpper(ticker), ".KQ")
  }

  predicate IsUsaTicker(ticker: string) {
    !IsKoreanTicker(ticker)
  }

  /**
   * The watchlist grouping: each ticker goes to exactly one group, the Korean
   * group holding the tickers with a Korean suffix, both in watchlist order.
   */
  method PartitionWatchlist(watchlist: seq<string>) returns (usa: seq<string>, korea: seq<string>)
    ensures korea == Filter(watchlist, IsKoreanTicker)
    ensures usa == Filter(watchlist, IsUsaTicker)
    ensures multiset(usa) + multiset(korea) == multiset(watchlist)
    ensures forall t :: t in korea <==> t in watchlist && IsKoreanTicker(t)
    ensures forall t :: t in usa <==> t in watchlist && !IsKoreanTicker(t)
  {
    usa, korea := [], [];
    for i := 0 to |watchlist|
      invariant korea == Filter(watchlist[..i], IsKoreanTicker)
      invariant usa == Filter(watchlist[..i], IsUsaTicker)
    {
      var ticker := watchlist[i];
      assert watchlist[..i + 1] == watchlist[..i] + [ticker];
      FilterAppend(watchlist[..i], [ticker], IsKoreanTicker);
      FilterAppend(watchlist[..i], [ticker], IsUsaTicker);
      if EndsWith(ToUpper(ticker), ".KS") || EndsWith(ToUpper(ticker), ".KQ") {
        korea := korea + [ticker];
      } else {
        usa := usa + [ticker];
      }
    }
    assert watchlist[..|watchlist|] == watchlist;
    FilterSplits(watchlist, IsUsaTicker, IsKoreanTicker);
    forall t ensures t in korea <==> t in watchlist && IsKoreanTicker(t) {
      FilterMembers(watchlist, IsKoreanTicker, t);
    }
    forall t ensures t in usa <==> t in watchlist && !IsKoreanTicker(t) {
      FilterMembers(watchlist, IsUsaTicker, t);
    }
  }

  /** A ticker grouped as Korean is labelled Korea on its card, whatever its quote says. */
  lemma KoreanGroupIsKoreaMarket(ticker: string, info: Option<QuoteData>)
    requires IsKoreanTicker(ticker)
    ensures MarketLabel(ticker, info) == ProfileRoute.Korea
  {
  }

  // ---------------------------------------------------------------------------
  // Search suggestions

  /** The suggestion search runs only on a trimmed query of at least two characters. */
  function SuggestionQuery(searchQuery: string): (q: Option<string>)
    ensures q.None? <==> |Trim(searchQuery)| < 2
    ensures q.Some? ==> q.value == Trim(searchQuery) && |q.value| >= 2
    ensures searchQuery == [] ==> q.None?
  {
    if searchQuery == [] || |Trim(searchQuery)| < 2 then None else Some(Trim(searchQuery))
  }

  /** The local table from company names to tickers. */
  const KoreanCompanies: map<string, string> := map[
    "삼성전자" := "005930.KS",
    "삼성" := "005930.KS",
    "lg전자" := "066570.KS",
    "lg" := "066570.KS",
    "현대차" := "005380.KS",
    "현대" := "005380.KS",
    "기아" := "000270.KS",
    "sk하이닉스" := "000660.KS",
    "인텔" := "INTC",
    "intel" := "INTC",
    "nvidia" := "NVDA",
    "엔비디아" := "NVDA",
    "테슬라" := "TSLA",
    "tesla" := "TSLA",
    "아마존" := "AMZN",
    "amazon" := "AMZN",
    "애플" := "AAPL",
    "apple" := "AAPL",
    "구글" := "GOOGL",
    "google" := "GOOGL",
    "마이크로소프트" := "MSFT",
    "microsoft" := "MSFT"
  ]

  /** The table lookup: first by the query itself, then by its lower-case form. */
  function LocalMatch(query: string): (r: Option<string>)
    ensures query in KoreanCompanies ==> r == Some(KoreanCompanies[query])
    ensures query !in KoreanCompanies ==>
      r == if ToLower(query) in KoreanCompanies then Some(KoreanCompanies[ToLower(query)]) else None
  {
    if query in KoreanCompanies && KoreanCompanies[query] != "" then Some(KoreanCompanies[query])
    else if ToLower(query) in KoreanCompanies && KoreanCompanies[ToLower(query)] != "" then
      Some(KoreanCompanies[ToLower(query)])
    else None
  }

  /** Every name in the table is already in lower case. */
  lemma KeysAreLowerCase(key: string)
    requires key in KoreanCompanies
    ensures ToLower(key) == key
  {
    assert forall i :: 0 <= i < |key| ==> !('A' <= key[i] <= 'Z');
    ToLowerNoCapitals(key);
  }

  /** Matching ignores ASCII case: every query matches exactly as its lower-case spelling does. */
  lemma LocalMatchFoldsCase(query: string)
    ensures LocalMatch(query) == LocalMatch(ToLower(query))
  {
    ToLowerIdempotent(query);
    if query in KoreanCompanies {
      KeysAreLowerCase(query);
    }
  }

  /**
   * The candidate list before de-duplication: the quote of the local match
   * when it was fetched with an ok status, then the search results when
   * that fetch was ok.
   */
  function SuggestionItems(local: Option<HttpOutcome<QuoteData>>, search: HttpOutcome<seq<QuoteData>>): (items: seq<QuoteData>)
    ensures |items| == (if local.Some? && local.value.Response? && local.value.ok then 1 else 0)
                     + (if search.Response? && search.ok then |search.body| else 0)
    ensures search.Response? && search.ok ==>
      |items| >= |search.body| && items[|items| - |search.body|..] == search.body
    ensures local.Some? && local.value.Response? && local.value.ok ==>
      |items| >= 1 && items[0] == local.value.body
  {
    var head := if local.Some? && local.value.Response? && local.value.ok then [local.value.body] else [];
    head + (if search.Response? && search.ok then search.body else [])
  }

  /** An item enters the suggestion map only when its symbol is a non-empty string. */
  predicate HasSymbol(item: QuoteData) {
    item.symbol.Some? && item.symbol.value != ""
  }

  /** The symbols of the items that have one, in item order. */
  function Symbols(items: seq<QuoteData>): (r: seq<string>)
    ensures forall s :: s in r ==> s != ""
    decreases |items|
  {
    if |items| == 0 then []
    else
      var last := items[|items| - 1];
      Symbols(items[..|items| - 1]) + (if HasSymbol(last) then [last.symbol.value] else [])
  }

  /** The last item whose symbol is `symbol`. */
  function LastWith(items: seq<QuoteData>, symbol: string): (r: Option<QuoteData>)
    ensures r.Some? ==> r.value in items && r.value.symbol == Some(symbol)
    ensures r.None? <==> forall k :: 0 <= k < |items| ==> items[k].symbol != Some(symbol)
    decreases |items|
  {
    if |items| == 0 then None
    else if items[|items| - 1].symbol == Some(symbol) then Some(items[|items| - 1])
    else LastWith(items[..|items| - 1], symbol)
  }

  /** The item found is the last one carrying the symbol. */
  lemma {:induction false} LastWithIsLast(items: seq<QuoteData>, symbol: string, k: nat)
    requires k < |items| && items[k].symbol == Some(symbol)
    requires forall j :: k < j < |items| ==> items[j].symbol != Some(symbol)
    ensures LastWith(items, symbol) == Some(items[k])
    decreases |items|
  {
    if k < |items| - 1 {
      var init := items[..|items| - 1];
      assert forall j :: 0 <= j < |init| ==> init[j] == items[j];
      LastWithIsLast(init, symbol, k);
    }
  }

  const MaxSuggestions := 6

  /** How the symbol list, its de-duplication and the last item change when one item is added. */
  lemma SuggestionStep(items: seq<QuoteData>, i: nat)
    requires i < |items|
    ensures HasSymbol(items[i]) ==>
      Symbols(items[..i + 1]) == Symbols(items[..i]) + [items[i].symbol.value]
    ensures !HasSymbol(items[i]) ==> Symbols(items[..i + 1]) == Symbols(items[..i])
    ensures HasSymbol(items[i]) ==>
      var d := Dedup(Symbols(items[..i]));
      Dedup(Symbols(items[..i + 1])) == if items[i].symbol.value in d then d else d + [items[i].symbol.value]
  {
    assert items[..i + 1][..i] == items[..i];
    var before := Symbols(items[..i]);
    if HasSymbol(items[i]) {
      var symbol := items[i].symbol.value;
      assert (before + [symbol])[..|before|] == before;
    }
  }

  /** The last item with a symbol, one item later. */
  lemma LastWithStep(items: seq<QuoteData>, i: nat, s: string)
    requires i < |items|
    ensures LastWith(items[..i + 1], s)
            == if items[i].symbol == Some(s) then Some(items[i]) else LastWith(items[..i], s)
  {
    assert items[..i + 1][..i] == items[..i];
  }

  /**
   * The de-duplication through a JavaScript `Map` keyed by symbol: items
   * without a symbol are dropped, each symbol keeps the position where it
   * was first seen and the item where it was last seen, and the first six
   * entries are kept.
   */
  method DedupSuggestions(items: seq<QuoteData>) returns (suggestions: seq<QuoteData>)
    ensures var keys := Dedup(Symbols(items));
      && |suggestions| == (if |keys| < MaxSuggestions then |keys| else MaxSuggestions)
      && forall k :: 0 <= k < |suggestions| ==>
           LastWith(items, keys[k]) == Some(suggestions[k])
  {
    var keys: seq<string> := [];
    var values: map<string, QuoteData> := map[];
    for i := 0 to |items|
      invariant keys == Dedup(Symbols(items[..i]))
      invariant forall s :: s in values <==> s in keys
      invariant "" !in values
      invariant forall s :: s in values ==> LastWith(items[..i], s) == Some(values[s])
    {
      var item := items[i];
      SuggestionStep(items, i);
      ghost var previous := values;
      if item.symbol.Some? && item.symbol.value != "" {
        var symbol := item.symbol.value;
        if symbol !in values {
          keys := keys + [symbol];
        }
        values := values[symbol := item];
      }
      forall s | s in values
        ensures LastWith(items[..i + 1], s) == Some(values[s])
      {
        LastWithStep(items, i, s);
        if items[i].symbol != Some(s) {
          assert values[s] == previous[s];
        }
      }
    }
    assert items[..|items|] == items;
    var n := if |keys| < MaxSuggestions then |keys| else MaxSuggestions;
    suggestions := seq(n, k requires 0 <= k < n => values[keys[k]]);
  }

  /**
   * The suggestions carry distinct, non-empty symbols, in the order in which
   * those symbols were first seen among the items.
   */
  lemma SuggestionsDistinct(items: seq<QuoteData>, suggestions: seq<QuoteData>)
    requires var keys := Dedup(Symbols(items));
      && |suggestions| <= |keys|
      && forall k :: 0 <= k < |suggestions| ==> LastWith(items, keys[k]) == Some(suggestions[k])
    ensures forall k :: 0 <= k < |suggestions| ==>
              HasSymbol(suggestions[k]) && suggestions[k].symbol.value in Symbols(items)
    ensures forall i, j :: 0 <= i < j < |suggestions| ==> suggestions[i].symbol != suggestions[j].symbol
    ensures forall i, j :: 0 <= i < j < |suggestions| ==>
              FirstIndex(Symbols(items), suggestions[i].symbol.value)
              < FirstIndex(Symbols(items), suggestions[j].symbol.value)
  {
    var keys := Dedup(Symbols(items));
    DedupSpec(Symbols(items));
    forall k | 0 <= k < |suggestions|
      ensures suggestions[k].symbol == Some(keys[k]) && keys[k] in Symbols(items)
    {
      assert keys[k] in keys;
    }
  }

  // ---------------------------------------------------------------------------
  // Exchange-rate state

  /** `getStateValue`: the stored number of an ok reply, else null. */
  function StateValue(res: HttpOutcome<Option<real>>): (v: Option<real>)
    ensures v.Some? ==> res.Response? && res.ok && res.body == v
    ensures res.Response? && res.ok ==> v == res.body
  {
    if res.Response? && res.ok then res.body else None
  }

  /** The body of a forex reply. */
  datatype ForexData = ForexData(rate: real, prevRate: real)

  /** Snapshots are stored only for positive values, the previous rate first. */
  function Snapshots(data: ForexData): (writes: seq<(string, real)>)
    ensures forall k :: 0 <= k < |writes| ==> writes[k].1 > 0.0
    ensures ("krw_rate_prev", data.prevRate) in writes <==> data.prevRate > 0.0
    ensures ("krw_rate_today", data.rate) in writes <==> data.rate > 0.0
    ensures |writes| <= 2
  {
    (if data.prevRate > 0.0 then [("krw_rate_prev", data.prevRate)] else [])
    + (if data.rate > 0.0 then [("krw_rate_today", data.rate)] else [])
  }

  /** The page's current and previous won-per-dollar rates; null until known. */
  class FxState {
    var krwRate: Option<real>
    var krwPrev: Option<real>

    constructor (rate: Option<real>, prev: Option<real>)
      ensures krwRate == rate && krwPrev == prev
    {
      krwRate := rate;
      krwPrev := prev;
    }

    /**
     * `loadRates`: an ok reply sets both rates and returns the snapshots to
     * store; any failure keeps the current rates and stores nothing.
     */
    method ApplyForex(res: HttpOutcome<ForexData>) returns (writes: seq<(string, real)>)
      modifies this
      ensures res.Response? && res.ok ==>
        krwRate == Some(res.body.rate) && krwPrev == Some(res.body.prevRate)
        && writes == Snapshots(res.body)
      ensures !(res.Response? && res.ok) ==>
        krwRate == old(krwRate) && krwPrev == old(krwPrev) && writes == []
    {
      if res.Response? && res.ok {
        var data := res.body;
        krwRate := Some(data.rate);
        krwPrev := Some(data.prevRate);
        writes := [];
        if data.prevRate > 0.0 {
          writes := writes + [("krw_rate_prev", data.prevRate)];
        }
        if data.rate > 0.0 {
          writes := writes + [("krw_rate_today", data.rate)];
        }
      } else {
        writes := [];
      }
    }

    /**
     * `hydrateFromDb`: stored snapshots are read only when a rate is still
     * null, and each fills only its own null rate.
     */
    method Hydrate(dbPrev: HttpOutcome<Option<real>>, dbToday: HttpOutcome<Option<real>>) returns (queried: bool)
      modifies this
      ensures queried <==> old(krwRate).None? || old(krwPrev).None?
      ensures krwPrev == if old(krwPrev).None? then StateValue(dbPrev) else old(krwPrev)
      ensures krwRate == if old(krwRate).None? then StateValue(dbToday) else old(krwRate)
    {
      if krwRate.Some? && krwPrev.Some? {
        return false;
      }
      queried := true;
      var prev := StateValue(dbPrev);
      var today := StateValue(dbToday);
      if prev.Some? && krwPrev.None? {
        krwPrev := prev;
      }
      if today.Some? && krwRate.None? {
        krwRate := today;
      }
    }
  }
}
