/**
 * The list and URL logic of the main window: the exchange trade-page URL of
 * an order, the three watch lists (favourite markets, stocks, forex pairs)
 * with their add rules, the autotrade list with its checked state, and the
 * pending browser orders. Widgets, dialogs and the browser are not modelled;
 * the configured exchange id is a parameter.
 */
module Gui {
  import opened Wrappers
  import opened Strings

  // ---------------------------------------------------------------------------
  // get_trade_url
  // ---------------------------------------------------------------------------

  datatype AssetType = Crypto | Stock | Forex | OtherAsset

  /**
   * An order dictionary's `symbol` and `asset_type` entries (`None` is a
   * missing key), and whether it holds any other key.
   */
  datatype Order = Order(symbol: Option<string>, assetType: Option<AssetType>, otherKeys: bool)

  /** An empty dictionary, which Python takes as false. */
  predicate IsEmptyOrder(o: Order) {
    o.symbol.None? && o.assetType.None? && !o.otherKeys
  }

  /** `(config.get('exchange_id') or 'binance').lower()`. */
  function ExchangeIdOf(setting: Option<string>): (id: string)
    ensures setting.None? || setting.value == "" ==> id == "binance"
    ensures setting.Some? && setting.value != "" ==> id == Lower(setting.value)
    ensures |id| > 0
  {
    if setting.None? || setting.value == "" then "binance" else Lower(setting.value)
  }

  /** The branch of `get_trade_url` an order takes. */
  datatype UrlBranch = BinanceSpot | BinanceFutures | Bybit | Okx | Kraken | Fallback | StockChart | ForexChart | NoUrl

  /** The branch chosen by the tests in source order, the `binanceusdm` test included. */
  function BranchOf(t: AssetType, id: string): (b: UrlBranch)
    ensures t == Crypto && Contains(id, "binance") ==> b == BinanceSpot
    ensures t == Crypto && !Contains(id, "binance") && Contains(id, "bybit") ==> b == Bybit
    ensures t == Crypto && !Contains(id, "binance") && !Contains(id, "bybit") && Contains(id, "okx") ==> b == Okx
    ensures t == Crypto && !Contains(id, "binance") && !Contains(id, "bybit") && !Contains(id, "okx") && Contains(id, "kraken")
      ==> b == Kraken
    ensures t == Crypto && !Contains(id, "binance") && !Contains(id, "bybit") && !Contains(id, "okx") && !Contains(id, "kraken")
      ==> b == Fallback
  {
    assert id == "binanceusdm" ==> OccursAt(id, "binance", 0);
    match t
    case Crypto =>
      if Contains(id, "binance") then BinanceSpot
      else if id == "binanceusdm" then BinanceFutures
      else if Contains(id, "bybit") then Bybit
      else if Contains(id, "okx") then Okx
      else if Contains(id, "kraken") then Kraken
      else Fallback
    case Stock => StockChart
    case Forex => ForexChart
    case OtherAsset => NoUrl
  }

  const BinanceTradePrefix := "https://www.binance.com/en/trade/"
  const BinanceFuturesPrefix := "https://www.binance.com/en/futures/"
  const BybitPrefix := "https://www.bybit.com/trade/usdt/"
  const OkxPrefix := "https://www.okx.com/trade-spot/"
  const KrakenCharts := "https://www.kraken.com/charts"
  const TradingViewPrefix := "https://www.tradingview.com/chart/?symbol="
  const ForexChartPrefix := "https://www.tradingview.com/chart/?symbol=FX%3A"

  function UrlOf(b: UrlBranch, symbol: string): string {
    match b
    case BinanceSpot => BinanceTradePrefix + ReplaceChar(symbol, '/', '_')
    case BinanceFutures => BinanceFuturesPrefix + ReplaceChar(symbol, '/', '_')
    case Bybit => BybitPrefix + ReplaceChar(symbol, '/', '_')
    case Okx => OkxPrefix + Lower(symbol)
    case Kraken => KrakenCharts
    case Fallback => BinanceTradePrefix + ReplaceChar(symbol, '/', '_')
    case StockChart => TradingViewPrefix + symbol
    case ForexChart => ForexChartPrefix + RemoveChar(symbol, '/')
    case NoUrl => ""
  }

  /** `get_trade_url`: a missing symbol is `""`, a missing asset type is crypto. */
  function GetTradeUrl(order: Order, exchangeSetting: Option<string>): (url: string)
    ensures var symbol, t, id := order.symbol.GetOr(""), order.assetType.GetOr(Crypto), ExchangeIdOf(exchangeSetting);
      && (t == Crypto && Contains(id, "binance") ==> url == BinanceTradePrefix + ReplaceChar(symbol, '/', '_'))
      && (t == Crypto && !Contains(id, "binance") && Contains(id, "bybit")
          ==> url == BybitPrefix + ReplaceChar(symbol, '/', '_'))
      && (t == Crypto && !Contains(id, "binance") && !Contains(id, "bybit") && Contains(id, "okx")
          ==> url == OkxPrefix + Lower(symbol))
      && (t == Crypto && !Contains(id, "binance") && !Contains(id, "bybit") && !Contains(id, "okx") && Contains(id, "kraken")
          ==> url == KrakenCharts)
      && (t == Crypto && !Contains(id, "binance") && !Contains(id, "bybit") && !Contains(id, "okx") && !Contains(id, "kraken")
          ==> url == BinanceTradePrefix + ReplaceChar(symbol, '/', '_'))
      && (t == Stock ==> url == TradingViewPrefix + symbol)
      && (t == Forex ==> url == ForexChartPrefix + RemoveChar(symbol, '/'))
      && (t == OtherAsset ==> url == "")
  {
    var id := ExchangeIdOf(exchangeSetting);
    UrlOf(BranchOf(order.assetType.GetOr(Crypto), id), order.symbol.GetOr(""))
  }

  /** The `binanceusdm` futures branch is dead: that id contains `binance`, which is tested first. */
  lemma FuturesBranchUnreachable(t: AssetType, id: string)
    ensures BranchOf(t, id) != BinanceFutures
  {
    if id == "binanceusdm" {
      assert OccursAt(id, "binance", 0);
    }
  }

  /** Only an asset type other than crypto, stock and forex yields no URL. */
  lemma NoUrlIff(order: Order, exchangeSetting: Option<string>)
    ensures GetTradeUrl(order, exchangeSetting) == "" <==> order.assetType == Some(OtherAsset)
  {
    var b := BranchOf(order.assetType.GetOr(Crypto), ExchangeIdOf(exchangeSetting));
    assert b != NoUrl ==> |UrlOf(b, order.symbol.GetOr(""))| > 0;
  }

  /** A crypto order on an exchange none of the tests recognise opens the same page as the default: Binance spot. */
  lemma UnknownExchangeFallsBack(order: Order, setting: string)
    requires order.assetType.GetOr(Crypto) == Crypto
    requires var id := ExchangeIdOf(Some(setting));
      !Contains(id, "binance") && !Contains(id, "bybit") && !Contains(id, "okx") && !Contains(id, "kraken")
    ensures GetTradeUrl(order, Some(setting)) == GetTradeUrl(order, None)
  {
    assert OccursAt("binance", "binance", 0);
  }

  // ---------------------------------------------------------------------------
  // Watch lists
  // ---------------------------------------------------------------------------

  predicate NoDuplicates(xs: seq<string>) {
    forall i, j :: 0 <= i < j < |xs| ==> xs[i] != xs[j]
  }

  /** Appends `s` unless it is empty or already listed (`findItems` with exact match). */
  function AddUnique(xs: seq<string>, s: string): (r: seq<string>)
    ensures s != "" && s !in xs ==> r == xs + [s]
    ensures s == "" || s in xs ==> r == xs
    ensures NoDuplicates(xs) ==> NoDuplicates(r)
    ensures "" !in xs ==> "" !in r
  {
    if s != "" && s !in xs then xs + [s] else xs
  }

  lemma AddUniqueIdempotent(xs: seq<string>, s: string)
    ensures AddUnique(AddUnique(xs, s), s) == AddUnique(xs, s)
  {
  }

  /** The stock-symbol normalisation: stripped and upper-cased. */
  function StockText(input: string): string {
    Upper(Strip(input))
  }

  /** The forex-pair normalisation: stripped, upper-cased, spaces removed. */
  function ForexText(input: string): (text: string)
    ensures ' ' !in text
    ensures forall i :: 0 <= i < |text| ==> !IsLowerLetter(text[i])
  {
    var r := RemoveChar(Upper(Strip(input)), ' ');
    assert forall i :: 0 <= i < |r| ==> r[i] in Upper(Strip(input));
    r
  }

  /** Every listed pair is non-empty, upper-case, without spaces, and has a `/`. */
  ghost predicate ForexWellFormed(xs: seq<string>) {
    forall i :: 0 <= i < |xs| ==>
      && xs[i] != "" && '/' in xs[i] && ' ' !in xs[i]
      && (forall k :: 0 <= k < |xs[i]| ==> !IsLowerLetter(xs[i][k]))
  }

  /** `add_forex_pair`'s list update: the normalised text is appended only when it has a `/` and is new. */
  function AddForexPair(xs: seq<string>, input: string): (r: seq<string>)
    ensures var t := ForexText(input);
      (t != "" && '/' in t && t !in xs ==> r == xs + [t])
      && (t == "" || '/' !in t || t in xs ==> r == xs)
    ensures NoDuplicates(xs) ==> NoDuplicates(r)
    ensures ForexWellFormed(xs) ==> ForexWellFormed(r)
  {
    var t := ForexText(input);
    if '/' in t then AddUnique(xs, t) else xs
  }

  // ---------------------------------------------------------------------------
  // Autotrade list
  // ---------------------------------------------------------------------------

  /** An autotrade list entry: symbol, asset type and check state. */
  datatype Item = Item(symbol: string, assetType: AssetType, checked: bool)

  /** The entries `refresh_autotrade_list` builds for one asset type: checked iff the allow-set is empty or holds the symbol. */
  function ItemsOf(symbols: seq<string>, t: AssetType, allow: set<string>): (r: seq<Item>)
    ensures |r| == |symbols|
    ensures forall i :: 0 <= i < |r| ==> r[i].symbol == symbols[i] && r[i].assetType == t
    ensures forall i :: 0 <= i < |r| ==> (r[i].checked <==> allow == {} || symbols[i] in allow)
  {
    seq(|symbols|, i requires 0 <= i < |symbols| => Item(symbols[i], t, allow == {} || symbols[i] in allow))
  }

  /** The checked symbols of type `t`, in list order. */
  function CheckedOf(items: seq<Item>, t: AssetType): (r: seq<string>)
    ensures |r| <= |items|
    ensures forall s :: s in r <==> exists i :: 0 <= i < |items| && items[i].checked && items[i].assetType == t && items[i].symbol == s
  {
    if items == [] then []
    else
      var r := CheckedOf(items[..|items| - 1], t);
      var it := items[|items| - 1];
      assert forall i :: 0 <= i < |items| - 1 ==> items[..|items| - 1][i] == items[i];
      if it.checked && it.assetType == t then r + [it.symbol] else r
  }

  lemma {:induction false} CheckedOfAppend(a: seq<Item>, b: seq<Item>, t: AssetType)
    ensures CheckedOf(a + b, t) == CheckedOf(a, t) + CheckedOf(b, t)
  {
    if b == [] {
      assert a + b == a;
    } else {
      var b' := b[..|b| - 1];
      assert (a + b)[..|a + b| - 1] == a + b';
      assert (a + b)[|a + b| - 1] == b[|b| - 1];
      CheckedOfAppend(a, b', t);
    }
  }

  /** The symbols a refresh marks checked: all of them when the allow-set is empty, else those in it. */
  function Allowed(symbols: seq<string>, allow: set<string>): (r: seq<string>)
    ensures allow == {} ==> r == symbols
    ensures forall s :: s in r <==> s in symbols && (allow == {} || s in allow)
  {
    if symbols == [] then []
    else
      var r := Allowed(symbols[..|symbols| - 1], allow);
      var s := symbols[|symbols| - 1];
      assert symbols == symbols[..|symbols| - 1] + [s];
      if allow == {} || s in allow then r + [s] else r
  }

  lemma {:induction false} CheckedOfItems(symbols: seq<string>, t: AssetType, allow: set<string>, u: AssetType)
    ensures CheckedOf(ItemsOf(symbols, t, allow), u) == if t == u then Allowed(symbols, allow) else []
  {
    if symbols != [] {
      var init := symbols[..|symbols| - 1];
      CheckedOfItems(init, t, allow, u);
      assert ItemsOf(symbols, t, allow)[..|symbols| - 1] == ItemsOf(init, t, allow);
    }
  }

  datatype Selection = Selection(crypto: seq<string>, stocks: seq<string>, forex: seq<string>)

  /** What `start_trading_bot` collects from the list: the checked symbols of each type, in order. */
  function Collected(items: seq<Item>): Selection {
    Selection(CheckedOf(items, Crypto), CheckedOf(items, Stock), CheckedOf(items, Forex))
  }

  /** The three lists a refresh shows, one after the other. */
  function Refreshed(crypto: seq<string>, stocks: seq<string>, forex: seq<string>,
                     allowCrypto: set<string>, allowStocks: set<string>, allowForex: set<string>): seq<Item>
  {
    ItemsOf(crypto, Crypto, allowCrypto) + ItemsOf(stocks, Stock, allowStocks) + ItemsOf(forex, Forex, allowForex)
  }

  lemma CheckedOfThree(a: seq<Item>, b: seq<Item>, c: seq<Item>, u: AssetType)
    ensures CheckedOf(a + b + c, u) == CheckedOf(a, u) + CheckedOf(b, u) + CheckedOf(c, u)
  {
    CheckedOfAppend(a + b, c, u);
    CheckedOfAppend(a, b, u);
  }

  /**
   * Collecting right after a refresh gives each type's symbols that its
   * allow-set admits; with empty allow-sets, the whole lists.
   */
  lemma RefreshThenCollect(crypto: seq<string>, stocks: seq<string>, forex: seq<string>,
                           allowCrypto: set<string>, allowStocks: set<string>, allowForex: set<string>)
    ensures Collected(Refreshed(crypto, stocks, forex, allowCrypto, allowStocks, allowForex))
      == Selection(Allowed(crypto, allowCrypto), Allowed(stocks, allowStocks), Allowed(forex, allowForex))
  {
    var a, b, c := ItemsOf(crypto, Crypto, allowCrypto), ItemsOf(stocks, Stock, allowStocks), ItemsOf(forex, Forex, allowForex);
    CheckedOfThree(a, b, c, Crypto);
    CheckedOfThree(a, b, c, Stock);
    CheckedOfThree(a, b, c, Forex);
    CheckedOfItems(crypto, Crypto, allowCrypto, Crypto);
    CheckedOfItems(crypto, Crypto, allowCrypto, Stock);
    CheckedOfItems(crypto, Crypto, allowCrypto, Forex);
    CheckedOfItems(stocks, Stock, allowStocks, Crypto);
    CheckedOfItems(stocks, Stock, allowStocks, Stock);
    CheckedOfItems(stocks, Stock, allowStocks, Forex);
    CheckedOfItems(forex, Forex, allowForex, Crypto);
    CheckedOfItems(forex, Forex, allowForex, Stock);
    CheckedOfItems(forex, Forex, allowForex, Forex);
  }

  // ---------------------------------------------------------------------------
  // The window's list state
  // ---------------------------------------------------------------------------

  class Window {
    var favorites: seq<string>
    var stocks: seq<string>
    var forex: seq<string>
    var autotrade: seq<Item>
    var pendingOrders: seq<Order>
    var lastOrder: Option<Order>

    constructor ()
      ensures favorites == [] && stocks == [] && forex == [] && autotrade == []
      ensures pendingOrders == [] && lastOrder.None?
    {
      favorites, stocks, forex, autotrade := [], [], [], [];
      pendingOrders, lastOrder := [], None;
    }

    /** `add_favorite_market` with the market box showing `current`. */
    method AddFavoriteMarket(current: string)
      modifies this
      ensures favorites == AddUnique(old(favorites), current)
      ensures stocks == old(stocks) && forex == old(forex) && autotrade == old(autotrade)
      ensures pendingOrders == old(pendingOrders) && lastOrder == old(lastOrder)
    {
      if current != "" && current !in favorites {
        favorites := favorites + [current];
      }
    }

    /** `add_stock_symbol` with `input` typed in; `cleared` says whether the input box is cleared. */
    method AddStockSymbol(input: string) returns (cleared: bool)
      modifies this
      ensures stocks == AddUnique(old(stocks), StockText(input))
      ensures cleared <==> stocks != old(stocks)
      ensures favorites == old(favorites) && forex == old(forex) && autotrade == old(autotrade)
      ensures pendingOrders == old(pendingOrders) && lastOrder == old(lastOrder)
    {
      var text := Upper(Strip(input));
      cleared := false;
      if text != "" && text !in stocks {
        stocks := stocks + [text];
        cleared := true;
      }
    }

    /** `add_forex_pair` with `input` typed in; `cleared` says whether the input box is cleared. */
    method AddForexPairText(input: string) returns (cleared: bool)
      modifies this
      ensures forex == AddForexPair(old(forex), input)
      ensures cleared <==> forex != old(forex)
      ensures favorites == old(favorites) && stocks == old(stocks) && autotrade == old(autotrade)
      ensures pendingOrders == old(pendingOrders) && lastOrder == old(lastOrder)
    {
      var text := RemoveChar(Upper(Strip(input)), ' ');
      cleared := false;
      if text != "" && '/' in text && text !in forex {
        forex := forex + [text];
        cleared := true;
      }
    }

    /** `refresh_autotrade_list` from the configured lists and allow-sets (missing entries are empty). */
    method RefreshAutotradeList(crypto: seq<string>, stockSymbols: seq<string>, forexPairs: seq<string>,
                                allowCrypto: set<string>, allowStocks: set<string>, allowForex: set<string>)
      modifies this
      ensures autotrade == Refreshed(crypto, stockSymbols, forexPairs, allowCrypto, allowStocks, allowForex)
      ensures favorites == old(favorites) && stocks == old(stocks) && forex == old(forex)
      ensures pendingOrders == old(pendingOrders) && lastOrder == old(lastOrder)
    {
      var items := [];
      for i := 0 to |crypto|
        invariant items == ItemsOf(crypto[..i], Crypto, allowCrypto)
      {
        items := items + [Item(crypto[i], Crypto, allowCrypto == {} || crypto[i] in allowCrypto)];
      }
      assert crypto[..|crypto|] == crypto;
      ghost var a := items;
      for i := 0 to |stockSymbols|
        invariant items == a + ItemsOf(stockSymbols[..i], Stock, allowStocks)
      {
        items := items + [Item(stockSymbols[i], Stock, allowStocks == {} || stockSymbols[i] in allowStocks)];
      }
      assert stockSymbols[..|stockSymbols|] == stockSymbols;
      ghost var b := items;
      for i := 0 to |forexPairs|
        invariant items == b + ItemsOf(forexPairs[..i], Forex, allowForex)
      {
        items := items + [Item(forexPairs[i], Forex, allowForex == {} || forexPairs[i] in allowForex)];
      }
      assert forexPairs[..|forexPairs|] == forexPairs;
      autotrade := items;
    }

    /** The collection loop of `start_trading_bot`: unchecked entries are skipped. */
    method CollectAutotrade() returns (selection: Selection)
      ensures selection == Collected(autotrade)
    {
      var crypto, stocks', forex' := [], [], [];
      for i := 0 to |autotrade|
        invariant crypto == CheckedOf(autotrade[..i], Crypto)
        invariant stocks' == CheckedOf(autotrade[..i], Stock)
        invariant forex' == CheckedOf(autotrade[..i], Forex)
      {
        assert autotrade[..i + 1][..i] == autotrade[..i];
        var item := autotrade[i];
        if item.checked {
          match item.assetType
          case Crypto => crypto := crypto + [item.symbol];
          case Stock => stocks' := stocks' + [item.symbol];
          case Forex => forex' := forex' + [item.symbol];
          case OtherAsset =>
        }
      }
      assert autotrade[..|autotrade|] == autotrade;
      selection := Selection(crypto, stocks', forex');
    }

    /** `on_trade_signal_from_bot`: the order is queued and becomes the last one. */
    method OnTradeSignal(order: Order, exchangeSetting: Option<string>) returns (url: Option<string>)
      modifies this
      ensures pendingOrders == old(pendingOrders) + [order] && lastOrder == Some(order)
      ensures favorites == old(favorites) && stocks == old(stocks) && forex == old(forex) && autotrade == old(autotrade)
      ensures url.Some? <==> GetTradeUrl(order, exchangeSetting) != ""
      ensures url.Some? ==> url.value == GetTradeUrl(order, exchangeSetting)
    {
      pendingOrders := pendingOrders + [order];
      lastOrder := Some(order);
      var u := GetTradeUrl(order, exchangeSetting);
      url := if u != "" then Some(u) else None;
    }

    /** `open_pending_order_in_browser` on the selected `row`: the URL the browser is sent to, if any. */
    method OpenPendingOrder(row: int, exchangeSetting: Option<string>) returns (url: Option<string>)
      ensures url.Some? <==> 0 <= row < |pendingOrders| && GetTradeUrl(pendingOrders[row], exchangeSetting) != ""
      ensures url.Some? ==> url.value == GetTradeUrl(pendingOrders[row], exchangeSetting)
    {
      if row < 0 || row >= |pendingOrders| {
        return None;
      }
      var u := GetTradeUrl(pendingOrders[row], exchangeSetting);
      url := if u != "" then Some(u) else None;
    }

    /** `open_ai_order_in_browser`: the URL of the last order, unless there is none or it is an empty dictionary. */
    method OpenLastOrder(exchangeSetting: Option<string>) returns (url: Option<string>)
      ensures url.Some? <==>
        lastOrder.Some? && !IsEmptyOrder(lastOrder.value) && GetTradeUrl(lastOrder.value, exchangeSetting) != ""
      ensures url.Some? ==> url.value == GetTradeUrl(lastOrder.value, exchangeSetting)
    {
      if lastOrder.None? || IsEmptyOrder(lastOrder.value) {
        return None;
      }
      var u := GetTradeUrl(lastOrder.value, exchangeSetting);
      url := if u != "" then Some(u) else None;
    }
  }
}
