/**
 * The market-list side of `DataProvider`: the active-market filter and its
 * sort, the case-insensitive symbol search, the quote-currency categories,
 * the exchange id and the two constant tables. The exchange's market table
 * is a parameter (`None` when there is no exchange or loading it fails).
 */
module Markets {
  import opened Wrappers
  import opened Strings

  // ---------------------------------------------------------------------------
  // Constant tables
  // ---------------------------------------------------------------------------

  const SupportedExchanges: map<string, string> := map[
    "binance" := "Binance", "coinbase" := "Coinbase", "kraken" := "Kraken",
    "bitfinex" := "Bitfinex", "bybit" := "Bybit", "okx" := "OKX",
    "kucoin" := "KuCoin", "huobi" := "Huobi", "gateio" := "Gate.io", "mexc" := "MEXC"]

  const Timeframes: map<string, string> := map[
    "1m" := "1 minute", "5m" := "5 minutes", "15m" := "15 minutes", "30m" := "30 minutes",
    "1h" := "1 hour", "4h" := "4 hours", "1d" := "1 day", "1w" := "1 week"]

  /** `get_supported_exchanges`: a copy of the table, the default `binance` among its ids. */
  function GetSupportedExchanges(): (r: map<string, string>)
    ensures r == SupportedExchanges
    ensures "binance" in r && r["binance"] == "Binance"
  {
    SupportedExchanges
  }

  /** `get_supported_timeframes`: a copy of the table; eight entries, the bot's default `5m` among them. */
  function GetSupportedTimeframes(): (r: map<string, string>)
    ensures r == Timeframes
    ensures |r| == 8
    ensures "5m" in r && r["5m"] == "5 minutes"
  {
    assert Timeframes.Keys == {"1m", "5m", "15m", "30m", "1h", "4h", "1d", "1w"};
    Timeframes
  }

  /** The exchange id `__init__` stores: the given name lower-cased. */
  function ExchangeId(name: string): (r: string)
    ensures |r| == |name|
    ensures forall i :: 0 <= i < |r| ==> !IsUpperLetter(r[i])
    ensures forall i :: 0 <= i < |r| && !IsUpperLetter(name[i]) ==> r[i] == name[i]
  {
    Lower(name)
  }

  lemma ExchangeIdIdempotent(name: string)
    ensures ExchangeId(ExchangeId(name)) == ExchangeId(name)
  {
    LowerIdempotent(name);
  }

  // ---------------------------------------------------------------------------
  // get_available_markets
  // ---------------------------------------------------------------------------

  /** A market's `active` entry: missing, a boolean, or present but null. */
  datatype ActiveField = Absent | Flag(on: bool) | Null

  /** `markets[symbol].get('active', True)` taken as a truth value. */
  predicate IsActive(a: ActiveField) {
    match a
    case Absent => true
    case Flag(on) => on
    case Null => false
  }

  datatype Listing = Listing(symbol: string, active: ActiveField)

  /** The symbols of the active listings, in table order. */
  function ActiveSymbols(ms: seq<Listing>): (r: seq<string>)
    ensures |r| <= |ms|
    ensures forall x :: x in r <==> exists l :: l in ms && l.symbol == x && IsActive(l.active)
    ensures UniqueSymbols(ms) ==> forall i, j :: 0 <= i < j < |r| ==> r[i] != r[j]
  {
    if ms == [] then []
    else
      var r := ActiveSymbols(ms[..|ms| - 1]);
      var l := ms[|ms| - 1];
      assert forall x :: x in ms <==> x in ms[..|ms| - 1] || x == l;
      if IsActive(l.active) then
        assert UniqueSymbols(ms) ==> l.symbol !in r by {
          if UniqueSymbols(ms) && l.symbol in r {
            assert false;
          }
        }
        r + [l.symbol]
      else r
  }

  /** Dictionary keys: no two listings share a symbol. */
  predicate UniqueSymbols(ms: seq<Listing>) {
    forall i, j :: 0 <= i < j < |ms| ==> ms[i].symbol != ms[j].symbol
  }

  /** `get_available_markets`: the active symbols, sorted; nothing when the table is missing. */
  function AvailableMarkets(ms: Option<seq<Listing>>): (r: seq<string>)
    ensures Sorted(r)
    ensures ms.None? ==> r == []
    ensures ms.Some? ==> multiset(r) == multiset(ActiveSymbols(ms.value))
    ensures forall x :: x in r <==> ms.Some? && exists l :: l in ms.value && l.symbol == x && IsActive(l.active)
  {
    if ms.None? then []
    else
      var a := ActiveSymbols(ms.value);
      var r := Sort(a);
      assert forall x :: x in r <==> x in a by {
        forall x ensures x in r <==> x in a {
          assert x in r <==> x in multiset(r);
          assert x in a <==> x in multiset(a);
        }
      }
      r
  }

  /** Only the set of active symbols matters: the table's order does not. */
  lemma AvailableMarketsOrderFree(a: seq<Listing>, b: seq<Listing>)
    requires multiset(ActiveSymbols(a)) == multiset(ActiveSymbols(b))
    ensures AvailableMarkets(Some(a)) == AvailableMarkets(Some(b))
  {
    SortedUnique(AvailableMarkets(Some(a)), AvailableMarkets(Some(b)));
  }

  // ---------------------------------------------------------------------------
  // search_symbols
  // ---------------------------------------------------------------------------

  predicate Matches(symbol: string, query: string) {
    Contains(Upper(symbol), Upper(query))
  }

  /** The markets whose upper-cased symbol contains the upper-cased query, in order. */
  function Matching(xs: seq<string>, query: string): (r: seq<string>)
    ensures |r| <= |xs|
    ensures forall x :: x in r <==> x in xs && Matches(x, query)
    ensures multiset(r) <= multiset(xs)
    ensures Sorted(xs) ==> Sorted(r)
  {
    if xs == [] then []
    else
      var r := Matching(xs[..|xs| - 1], query);
      var x := xs[|xs| - 1];
      assert xs == xs[..|xs| - 1] + [x];
      assert forall y :: y in xs <==> y in xs[..|xs| - 1] || y == x;
      if Matches(x, query) then
        if Sorted(xs) then SortedAppend(r, xs[..|xs| - 1], x); r + [x] else r + [x]
      else r
  }

  /** `search_symbols`: the available markets that match, still sorted. */
  function SearchSymbols(ms: Option<seq<Listing>>, query: string): (r: seq<string>)
    ensures Sorted(r)
    ensures forall x :: x in r <==> x in AvailableMarkets(ms) && Matches(x, query)
  {
    Matching(AvailableMarkets(ms), query)
  }

  /** One step of `Matching`: the last market is kept iff it matches. */
  lemma MatchingSnoc(init: seq<string>, x: string, query: string)
    ensures Matching(init + [x], query) == if Matches(x, query) then Matching(init, query) + [x] else Matching(init, query)
  {
    assert (init + [x])[..|init|] == init;
  }

  /** The empty query keeps every market. */
  lemma {:induction false} EmptyQueryMatchesAll(xs: seq<string>)
    ensures Matching(xs, "") == xs
  {
    if xs != [] {
      var init, x := xs[..|xs| - 1], xs[|xs| - 1];
      assert xs == init + [x];
      EmptyQueryMatchesAll(init);
      assert OccursAt(Upper(x), "", 0);
      MatchingSnoc(init, x, "");
    }
  }

  lemma UpperOfLower(q: string)
    ensures Upper(Lower(q)) == Upper(q)
  {
    assert forall i :: 0 <= i < |q| ==> Upper(Lower(q))[i] == Upper(q)[i];
  }

  /** The search ignores the query's case. */
  lemma {:induction false} SearchIgnoresCase(xs: seq<string>, query: string)
    ensures Matching(xs, Lower(query)) == Matching(xs, query)
    ensures Matching(xs, Upper(query)) == Matching(xs, query)
  {
    UpperOfLower(query);
    UpperIdempotent(query);
    if xs != [] {
      SearchIgnoresCase(xs[..|xs| - 1], query);
    }
  }

  // ---------------------------------------------------------------------------
  // get_market_categories
  // ---------------------------------------------------------------------------

  const CategoryNames: seq<string> := ["USDT", "BTC", "ETH", "USD", "EUR", "Other"]

  /** The category of a symbol: the first quote marker it contains, in the order USDT, BTC, ETH, USD, EUR. */
  function CategoryOf(symbol: string): (c: string)
    ensures c in CategoryNames
    ensures c == "USDT" <==> Contains(symbol, "/USDT")
    ensures c == "BTC" <==> !Contains(symbol, "/USDT") && Contains(symbol, "/BTC")
    ensures c == "ETH" <==> !Contains(symbol, "/USDT") && !Contains(symbol, "/BTC") && Contains(symbol, "/ETH")
    ensures c == "USD" <==>
      !Contains(symbol, "/USDT") && !Contains(symbol, "/BTC") && !Contains(symbol, "/ETH") && Contains(symbol, "/USD")
    ensures c == "EUR" <==>
      !Contains(symbol, "/USDT") && !Contains(symbol, "/BTC") && !Contains(symbol, "/ETH")
      && !Contains(symbol, "/USD") && Contains(symbol, "/EUR")
    ensures c == "Other" <==>
      !Contains(symbol, "/USDT") && !Contains(symbol, "/BTC") && !Contains(symbol, "/ETH")
      && !Contains(symbol, "/USD") && !Contains(symbol, "/EUR")
  {
    if Contains(symbol, "/USDT") then "USDT"
    else if Contains(symbol, "/BTC") then "BTC"
    else if Contains(symbol, "/ETH") then "ETH"
    else if Contains(symbol, "/USD") then "USD"
    else if Contains(symbol, "/EUR") then "EUR"
    else "Other"
  }

  /** Every `/USDT` symbol also contains `/USD`, which is why USDT has to be tested first. */
  lemma UsdtContainsUsd(symbol: string)
    requires Contains(symbol, "/USDT")
    ensures Contains(symbol, "/USD")
  {
    assert "/USDT"[0..4] == "/USD";
    ContainsSubstring(symbol, "/USDT", "/USD", 0);
  }

  /** The markets of category `c`, in order. */
  function InCategory(xs: seq<string>, c: string): (r: seq<string>)
    ensures |r| <= |xs|
    ensures forall x :: x in r <==> x in xs && CategoryOf(x) == c
    ensures Sorted(xs) ==> Sorted(r)
  {
    if xs == [] then []
    else
      var r := InCategory(xs[..|xs| - 1], c);
      var x := xs[|xs| - 1];
      assert xs == xs[..|xs| - 1] + [x];
      assert forall y :: y in xs <==> y in xs[..|xs| - 1] || y == x;
      if CategoryOf(x) == c then
        if Sorted(xs) then SortedAppend(r, xs[..|xs| - 1], x); r + [x] else r + [x]
      else r
  }

  /** One step of `InCategory`: the last market joins the list of its own category. */
  lemma InCategorySnoc(init: seq<string>, x: string, c: string)
    ensures InCategory(init + [x], c) == if CategoryOf(x) == c then InCategory(init, c) + [x] else InCategory(init, c)
  {
    assert (init + [x])[..|init|] == init;
  }

  function CategorySizes(xs: seq<string>): nat {
    |InCategory(xs, "USDT")| + |InCategory(xs, "BTC")| + |InCategory(xs, "ETH")|
    + |InCategory(xs, "USD")| + |InCategory(xs, "EUR")| + |InCategory(xs, "Other")|
  }

  /** The six lists partition the markets: each market is counted in exactly one. */
  lemma {:induction false} CategoriesPartition(xs: seq<string>)
    ensures CategorySizes(xs) == |xs|
  {
    if xs != [] {
      CategoriesPartition(xs[..|xs| - 1]);
    }
  }

  /** `get_market_categories` on the available markets. */
  method GetMarketCategories(ms: Option<seq<Listing>>) returns (categories: map<string, seq<string>>)
    ensures categories.Keys == SetOfNames()
    ensures forall c :: c in categories ==> categories[c] == InCategory(AvailableMarkets(ms), c)
  {
    categories := GroupByCategory(AvailableMarkets(ms));
  }

  /** The loop of `get_market_categories`: appends each market to its category's list, in order. */
  method GroupByCategory(markets: seq<string>) returns (categories: map<string, seq<string>>)
    ensures Grouped(categories, markets)
  {
    categories := map c | c in SetOfNames() :: [];
    for i := 0 to |markets|
      invariant Grouped(categories, markets[..i])
    {
      var symbol := markets[i];
      assert markets[..i + 1] == markets[..i] + [symbol];
      CategoriesStep(categories, markets[..i], symbol);
      var c := CategoryOf(symbol);
      categories := categories[c := categories[c] + [symbol]];
    }
    assert markets[..|markets|] == markets;
  }

  /** `categories` holds, under each category name and only those, that category's markets of `xs`, in order. */
  ghost predicate Grouped(categories: map<string, seq<string>>, xs: seq<string>) {
    && categories.Keys == SetOfNames()
    && forall c :: c in categories ==> categories[c] == InCategory(xs, c)
  }

  /** One turn of the loop of `GetMarketCategories` keeps every list equal to its category's markets so far. */
  lemma CategoriesStep(categories: map<string, seq<string>>, xs: seq<string>, x: string)
    requires Grouped(categories, xs)
    ensures CategoryOf(x) in categories
    ensures Grouped(categories[CategoryOf(x) := categories[CategoryOf(x)] + [x]], xs + [x])
  {
    var m := categories[CategoryOf(x) := categories[CategoryOf(x)] + [x]];
    forall c | c in m
      ensures m[c] == InCategory(xs + [x], c)
    {
      InCategorySnoc(xs, x, c);
    }
  }

  function SetOfNames(): (r: set<string>)
    ensures forall c :: c in r <==> c in CategoryNames
  {
    set c | c in CategoryNames
  }
}
