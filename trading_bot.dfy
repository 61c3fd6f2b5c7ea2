/**
 * `TradingBot`: open positions keyed by symbol, an append-only trade history,
 * and one cycle of its run loop: close what hit stop-loss, take-profit or a
 * strong SELL signal, then, below `max_trades`, scan the configured symbols
 * for a strong BUY.
 *
 * The data provider and the analyzer are passed in as a `Market` of three
 * functions. The state the methods change is described by value-level
 * functions on a `Book` (positions, their dictionary order, history); the
 * class `Bot` holds that state in fields and its methods are proved to
 * produce exactly the `Book` those functions compute.
 */
module TradingBot {
  import opened Wrappers
  import opened Indicators
  import opened Signals

  // ---------------------------------------------------------------------------
  // Configuration
  // ---------------------------------------------------------------------------

  /** The configuration dictionary's entries the bot reads; `None` is a missing key. */
  datatype Settings = Settings(
    maxTrades: Option<int>, tradeAmount: Option<real>,
    stopLossPercent: Option<real>, takeProfitPercent: Option<real>,
    checkInterval: Option<int>, favoriteMarkets: Option<seq<string>>, defaultTimeframe: Option<string>)

  datatype Config = Config(
    maxTrades: int, tradeAmount: real, stopLossPercent: real, takeProfitPercent: real,
    checkInterval: int, symbols: seq<string>, timeframe: string)

  /** `config.get(key, default)` for every setting. */
  function ConfigOf(s: Settings): (c: Config)
    ensures s.maxTrades.None? ==> c.maxTrades == 3
    ensures s.tradeAmount.None? ==> c.tradeAmount == 100.0
    ensures s.stopLossPercent.None? ==> c.stopLossPercent == 2.0
    ensures s.takeProfitPercent.None? ==> c.takeProfitPercent == 5.0
    ensures s.checkInterval.None? ==> c.checkInterval == 60
    ensures s.favoriteMarkets.None? ==> c.symbols == ["BTC/USDT"]
    ensures s.defaultTimeframe.None? ==> c.timeframe == "5m"
    ensures s.maxTrades.Some? ==> c.maxTrades == s.maxTrades.value
    ensures s.favoriteMarkets.Some? ==> c.symbols == s.favoriteMarkets.value
  {
    Config(s.maxTrades.GetOr(3), s.tradeAmount.GetOr(100.0),
           s.stopLossPercent.GetOr(2.0), s.takeProfitPercent.GetOr(5.0),
           s.checkInterval.GetOr(60), s.favoriteMarkets.GetOr(["BTC/USDT"]), s.defaultTimeframe.GetOr("5m"))
  }

  // ---------------------------------------------------------------------------
  // Positions, history and the outside world
  // ---------------------------------------------------------------------------

  /** An open position (the `order` dictionary of `_execute_buy`; side `buy`, type `market`, status `open`). */
  datatype Position = Position(
    symbol: string, amount: real, price: real, stopLoss: real, takeProfit: real,
    strength: real, details: Details)

  datatype ExitReason = StopLoss | TakeProfit | SignalExit

  /** A trade-history entry. */
  datatype Record =
    | Bought(symbol: string, price: real, amount: real, strength: real)
    | Sold(symbol: string, price: real, amount: real, reason: ExitReason, pnl: real, pnlPercent: real)

  /**
   * The data provider and the analyzer: candles for a symbol (`None` when
   * the fetch fails), the last traded price (`None` when there is no ticker or
   * no `last` price), and the analysis of a candle frame.
   */
  datatype Market = Market(
    ohlcv: string -> Option<seq<Candle>>,
    ticker: string -> Option<real>,
    analyze: seq<Candle> -> Analysis)

  /** The bot's state: open positions, their symbols in dictionary (insertion) order, and the history. */
  datatype Book = Book(trades: map<string, Position>, order: seq<string>, history: seq<Record>)

  predicate Distinct(xs: seq<string>) {
    forall i, j :: 0 <= i < j < |xs| ==> xs[i] != xs[j]
  }

  /** At most one position per symbol, stored under its own symbol, and the order lists each key once. */
  ghost predicate BookValid(b: Book) {
    && Distinct(b.order)
    && (forall s :: s in b.trades <==> s in b.order)
    && (forall s :: s in b.trades ==> b.trades[s].symbol == s)
  }

  function SetOf(xs: seq<string>): (r: set<string>)
    ensures forall x :: x in r <==> x in xs
  {
    set x | x in xs
  }

  /** Deleting keys from a dictionary keeps the others in their order. */
  function Without(xs: seq<string>, gone: set<string>): (r: seq<string>)
    ensures forall x :: x in r <==> x in xs && x !in gone
    ensures Distinct(xs) ==> Distinct(r)
  {
    if xs == [] then []
    else
      var r := Without(xs[..|xs| - 1], gone);
      var x := xs[|xs| - 1];
      assert Distinct(xs) ==> x !in xs[..|xs| - 1];
      if x in gone then r else r + [x]
  }

  /** Deleting keys keeps a book valid. */
  lemma RemovalKeepsValid(b: Book, gone: set<string>)
    requires BookValid(b)
    ensures BookValid(Book(b.trades - gone, Without(b.order, gone), b.history))
  {
  }

  lemma MinusTwice(trades: map<string, Position>, gone: set<string>, x: string)
    ensures trades - gone - {x} == trades - (gone + {x})
  {
  }

  lemma {:induction false} WithoutNothing(xs: seq<string>)
    ensures Without(xs, {}) == xs
  {
    if xs != [] {
      WithoutNothing(xs[..|xs| - 1]);
      assert xs == xs[..|xs| - 1] + [xs[|xs| - 1]];
    }
  }

  lemma {:induction false} WithoutTwice(xs: seq<string>, a: set<string>, b: set<string>)
    ensures Without(Without(xs, a), b) == Without(xs, a + b)
  {
    if xs != [] {
      var init := xs[..|xs| - 1];
      WithoutTwice(init, a, b);
      var x := xs[|xs| - 1];
      if x !in a {
        var r := Without(init, a);
        assert (r + [x])[..|r + [x]| - 1] == r;
      }
    }
  }

  // ---------------------------------------------------------------------------
  // Buying and selling
  // ---------------------------------------------------------------------------

  /** The position `_execute_buy` opens at `price`; none when the price is 0 (the division raises). */
  function Opened(cfg: Config, symbol: string, price: real, strength: real, details: Details): (p: Option<Position>)
    ensures p.None? <==> price == 0.0
    ensures p.Some? ==> p.value.symbol == symbol && p.value.price == price && p.value.strength == strength
  {
    if price == 0.0 then None
    else Some(Position(symbol, cfg.tradeAmount / price, price,
                       price * (1.0 - cfg.stopLossPercent / 100.0),
                       price * (1.0 + cfg.takeProfitPercent / 100.0),
                       strength, details))
  }

  /** With a positive price and percentages in range, stop-loss < entry < take-profit, and the size buys `trade_amount`. */
  lemma OpenedLevels(cfg: Config, symbol: string, price: real, strength: real, details: Details)
    requires 0.0 < price && 0.0 < cfg.stopLossPercent < 100.0 && 0.0 < cfg.takeProfitPercent
    ensures var p := Opened(cfg, symbol, price, strength, details).value;
      && 0.0 < p.stopLoss < p.price < p.takeProfit
      && p.amount * p.price == cfg.tradeAmount
      && (0.0 < cfg.tradeAmount ==> 0.0 < p.amount)
  {
    var p := Opened(cfg, symbol, price, strength, details).value;
    var down := 1.0 - cfg.stopLossPercent / 100.0;
    var up := 1.0 + cfg.takeProfitPercent / 100.0;
    assert 0.0 < down < 1.0 < up;
    assert p.stopLoss == price * down && p.takeProfit == price * up;
    assert price * down < price * 1.0 < price * up;
    assert 0.0 < price * down;
    assert p.amount * price == cfg.tradeAmount;
    DivSign(cfg.tradeAmount, price);
  }

  /** `_execute_buy` on the last close of `df`: a missing close or a zero price leave everything as it was. */
  function OpenPosition(b: Book, cfg: Config, symbol: string, df: seq<Candle>, strength: real, details: Details): (r: Book)
    ensures BookValid(b) ==> BookValid(r)
    ensures |df| > 0 && df[|df| - 1].close != 0.0 ==>
      && r.trades == b.trades[symbol := Opened(cfg, symbol, df[|df| - 1].close, strength, details).value]
      && r.history == b.history + [Bought(symbol, df[|df| - 1].close, r.trades[symbol].amount, strength)]
      && r.order == (if symbol in b.trades then b.order else b.order + [symbol])
    ensures (|df| == 0 || df[|df| - 1].close == 0.0) ==> r == b
  {
    if |df| == 0 then b
    else
      var price := df[|df| - 1].close;
      var p := Opened(cfg, symbol, price, strength, details);
      if p.None? then b
      else
        var order := if symbol in b.trades then b.order else b.order + [symbol];
        assert symbol !in b.trades && BookValid(b) ==> Distinct(order);
        Book(b.trades[symbol := p.value], order, b.history + [Bought(symbol, price, p.value.amount, strength)])
  }

  /** The SELL entry for closing `pos` at `price`. */
  function SellRecord(symbol: string, pos: Position, price: real, reason: ExitReason): (r: Record)
    requires pos.price != 0.0
    ensures r.Sold? && r.symbol == symbol && r.price == price && r.amount == pos.amount && r.reason == reason
    ensures r.pnl == (price - pos.price) * pos.amount
    ensures (r.pnl < 0.0 <==> price < pos.price) || pos.amount <= 0.0
  {
    var pnl := (price - pos.price) * pos.amount;
    assert 0.0 < pos.amount ==> (pnl < 0.0 <==> price < pos.price);
    Sold(symbol, price, pos.amount, reason, pnl, (price - pos.price) / pos.price * 100.0)
  }

  /** `_execute_sell`: appends one SELL entry; an unknown symbol or a zero entry price changes nothing. Positions stay. */
  function RecordSell(b: Book, symbol: string, price: real, reason: ExitReason): (r: Book)
    ensures r.trades == b.trades && r.order == b.order
    ensures symbol !in b.trades || b.trades[symbol].price == 0.0 ==> r == b
    ensures symbol in b.trades && b.trades[symbol].price != 0.0 ==>
      r.history == b.history + [SellRecord(symbol, b.trades[symbol], price, reason)]
  {
    if symbol !in b.trades || b.trades[symbol].price == 0.0 then b
    else Book(b.trades, b.order, b.history + [SellRecord(symbol, b.trades[symbol], price, reason)])
  }

  // ---------------------------------------------------------------------------
  // _check_active_trades
  // ---------------------------------------------------------------------------

  const MinStrength: real := 0.6

  /** A strong SELL on fresh candles for `symbol`. */
  predicate StrongSell(m: Market, symbol: string) {
    var df := m.ohlcv(symbol);
    df.Some? && |df.value| > 0 && m.analyze(df.value).signal == -1 && m.analyze(df.value).strength >= MinStrength
  }

  datatype Exit = Exit(reason: ExitReason, price: real)

  /**
   * Why and at what price the check closes `pos`, tried in the order
   * stop-loss, take-profit, signal. No ticker, or a zero entry price (the P&L
   * division raises), keeps the position.
   */
  function ExitOf(symbol: string, pos: Position, m: Market): (e: Option<Exit>)
    ensures e.Some? ==> m.ticker(symbol).Some? && pos.price != 0.0 && e.value.price == m.ticker(symbol).value
    ensures e.Some? && e.value.reason == StopLoss <==>
      m.ticker(symbol).Some? && pos.price != 0.0 && m.ticker(symbol).value <= pos.stopLoss
    ensures e.Some? && e.value.reason == TakeProfit <==>
      m.ticker(symbol).Some? && pos.price != 0.0 && !(m.ticker(symbol).value <= pos.stopLoss)
      && m.ticker(symbol).value >= pos.takeProfit
    ensures e.Some? && e.value.reason == SignalExit <==>
      m.ticker(symbol).Some? && pos.price != 0.0 && !(m.ticker(symbol).value <= pos.stopLoss)
      && !(m.ticker(symbol).value >= pos.takeProfit) && StrongSell(m, symbol)
  {
    var t := m.ticker(symbol);
    if t.None? || pos.price == 0.0 then None
    else if t.value <= pos.stopLoss then Some(Exit(StopLoss, t.value))
    else if t.value >= pos.takeProfit then Some(Exit(TakeProfit, t.value))
    else if StrongSell(m, symbol) then Some(Exit(SignalExit, t.value))
    else None
  }

  datatype Pass = Pass(sold: seq<Record>, closing: seq<string>)

  /** The SELL entry for a position `ExitOf` closes: at the exit's price, with its reason. */
  function ExitRecord(symbol: string, pos: Position, m: Market): (r: Record)
    requires ExitOf(symbol, pos, m).Some?
    ensures var e := ExitOf(symbol, pos, m).value;
      r == SellRecord(symbol, pos, e.price, e.reason)
  {
    var e := ExitOf(symbol, pos, m).value;
    SellRecord(symbol, pos, e.price, e.reason)
  }

  /** The open positions the check leaves alone. */
  function Staying(b: Book, m: Market): (r: set<string>)
    ensures forall s :: s in r <==> s in b.trades && ExitOf(s, b.trades[s], m).None?
  {
    set s | s in b.trades && ExitOf(s, b.trades[s], m).None?
  }

  /** The loop of the check over `syms`: the SELL entries it appends and the symbols it marks for closing. */
  function CheckPass(b: Book, m: Market, syms: seq<string>): (p: Pass)
    requires forall s :: s in syms ==> s in b.trades
    ensures |p.sold| == |p.closing|
    ensures p.closing == Without(syms, Staying(b, m))
    ensures forall k :: 0 <= k < |p.closing| ==>
      p.closing[k] in b.trades && ExitOf(p.closing[k], b.trades[p.closing[k]], m).Some?
      && p.sold[k] == ExitRecord(p.closing[k], b.trades[p.closing[k]], m)
    ensures forall s :: s in p.closing <==> s in syms && ExitOf(s, b.trades[s], m).Some?
    ensures Distinct(syms) ==> Distinct(p.closing)
    ensures forall k :: 0 <= k < |p.closing| ==> p.sold[k].Sold? && p.sold[k].symbol == p.closing[k]
  {
    if syms == [] then Pass([], [])
    else
      var p := CheckPass(b, m, syms[..|syms| - 1]);
      var s := syms[|syms| - 1];
      assert forall x :: x in syms <==> x in syms[..|syms| - 1] || x == s;
      var pos := b.trades[s];
      var e := ExitOf(s, pos, m);
      if e.None? then p
      else Pass(p.sold + [ExitRecord(s, pos, m)], p.closing + [s])
  }

  /** `_check_active_trades`: one SELL per closed position, the closed ones removed, the others untouched. */
  function Check(b: Book, m: Market): (r: Book)
    requires BookValid(b)
    ensures BookValid(r)
    ensures b.trades == map[] ==> r == b
    ensures forall s :: s in r.trades <==> s in b.trades && ExitOf(s, b.trades[s], m).None?
    ensures forall s :: s in r.trades ==> r.trades[s] == b.trades[s]
    ensures b.history <= r.history
    ensures r.history == b.history + CheckPass(b, m, b.order).sold
  {
    if b.trades == map[] then b
    else
      var p := CheckPass(b, m, b.order);
      Book(b.trades - SetOf(p.closing), Without(b.order, SetOf(p.closing)), b.history + p.sold)
  }

  // ---------------------------------------------------------------------------
  // _scan_opportunities and one cycle of _run_loop
  // ---------------------------------------------------------------------------

  /** A strong BUY on the candles of a symbol without a position. */
  predicate StrongBuy(m: Market, df: seq<Candle>) {
    m.analyze(df).signal == 1 && m.analyze(df).strength >= MinStrength
  }

  /** The scan buys `symbol`: not held, with candles whose last close is not 0, and a strong BUY on them. */
  predicate Buys(b: Book, m: Market, symbol: string) {
    var df := m.ohlcv(symbol);
    symbol !in b.trades && df.Some? && |df.value| > 0 && df.value[|df.value| - 1].close != 0.0 && StrongBuy(m, df.value)
  }

  /** One symbol of the scan: skipped when held or when there are no candles, bought on a strong BUY. */
  function ScanStep(b: Book, cfg: Config, m: Market, symbol: string): (r: Book)
    ensures BookValid(b) ==> BookValid(r)
    ensures symbol in b.trades ==> r == b
    ensures b.history <= r.history
    ensures forall s :: s in b.trades ==> s in r.trades && r.trades[s] == b.trades[s]
    ensures forall s :: s in r.trades ==> s in b.trades || s == symbol
    ensures Buys(b, m, symbol) ==>
      var df := m.ohlcv(symbol).value;
      var a := m.analyze(df);
      var price := df[|df| - 1].close;
      && r.trades == b.trades[symbol := Opened(cfg, symbol, price, a.strength, a.details).value]
      && r.order == b.order + [symbol]
      && r.history == b.history + [Bought(symbol, price, r.trades[symbol].amount, a.strength)]
    ensures !Buys(b, m, symbol) ==> r == b
  {
    if symbol in b.trades then b
    else
      var df := m.ohlcv(symbol);
      if df.None? || |df.value| == 0 then b
      else
        var a := m.analyze(df.value);
        if StrongBuy(m, df.value) then OpenPosition(b, cfg, symbol, df.value, a.strength, a.details) else b
  }

  /** `_scan_opportunities` over `syms`, in order. */
  function Scan(b: Book, cfg: Config, m: Market, syms: seq<string>): (r: Book)
    ensures BookValid(b) ==> BookValid(r)
    ensures b.history <= r.history
    ensures forall s :: s in b.trades ==> s in r.trades && r.trades[s] == b.trades[s]
    ensures forall s :: s in r.trades ==> s in b.trades || s in syms
  {
    if syms == [] then b
    else
      var r := Scan(b, cfg, m, syms[..|syms| - 1]);
      assert forall x :: x in syms[..|syms| - 1] ==> x in syms;
      ScanStep(r, cfg, m, syms[|syms| - 1])
  }

  /** One step of `Scan`: symbol `i` is scanned after the ones before it. */
  lemma ScanPrefix(b: Book, cfg: Config, m: Market, xs: seq<string>, i: nat)
    requires i < |xs|
    ensures Scan(b, cfg, m, xs[..i + 1]) == ScanStep(Scan(b, cfg, m, xs[..i]), cfg, m, xs[i])
  {
    assert xs[..i + 1][..i] == xs[..i];
  }

  /** One step of `CheckPass`: symbol `i` is checked after the ones before it. */
  lemma CheckPassPrefix(b: Book, m: Market, xs: seq<string>, i: nat)
    requires i < |xs| && forall s :: s in xs ==> s in b.trades
    ensures forall s :: s in xs[..i] ==> s in b.trades
    ensures var p := CheckPass(b, m, xs[..i]);
      var e := ExitOf(xs[i], b.trades[xs[i]], m);
      CheckPass(b, m, xs[..i + 1])
        == if e.None? then p else Pass(p.sold + [SellRecord(xs[i], b.trades[xs[i]], e.value.price, e.value.reason)], p.closing + [xs[i]])
  {
    assert xs[..i + 1][..i] == xs[..i];
    assert forall s :: s in xs[..i] ==> s in xs;
  }

  /** The part of the check's pass that has looked at the first `i` positions of a valid book. */
  ghost function CheckedUpTo(b: Book, m: Market, i: nat): (p: Pass)
    requires BookValid(b) && i <= |b.order|
    ensures i == |b.order| ==> p == CheckPass(b, m, b.order)
  {
    assert forall s :: s in b.order[..i] ==> s in b.order;
    assert i == |b.order| ==> b.order[..i] == b.order;
    CheckPass(b, m, b.order[..i])
  }

  /** One step of `CheckedUpTo`: position `i` is an open trade, checked after the ones before it. */
  lemma CheckedStep(b: Book, m: Market, i: nat)
    requires BookValid(b) && i < |b.order|
    ensures b.order[i] in b.trades
    ensures var p := CheckedUpTo(b, m, i);
      var s := b.order[i];
      var e := ExitOf(s, b.trades[s], m);
      CheckedUpTo(b, m, i + 1)
        == if e.None? then p else Pass(p.sold + [SellRecord(s, b.trades[s], e.value.price, e.value.reason)], p.closing + [s])
  {
    CheckPassPrefix(b, m, b.order, i);
  }

  lemma AppendAssoc<T>(a: seq<T>, b: seq<T>, x: T)
    ensures a + b + [x] == a + (b + [x])
  {
  }

  /** One pass of `_run_loop`: check the open positions, then scan if fewer than `max_trades` remain. */
  function Cycle(b: Book, cfg: Config, m: Market): (r: Book)
    requires BookValid(b)
    ensures BookValid(r)
  {
    var c := Check(b, m);
    if |c.trades| < cfg.maxTrades then Scan(c, cfg, m, cfg.symbols) else c
  }

  // ---------------------------------------------------------------------------
  // get_statistics
  // ---------------------------------------------------------------------------

  datatype Statistics = Statistics(totalTrades: nat, wins: nat, losses: nat, winRate: real, totalPnl: real, avgPnl: real)

  function SellRecords(h: seq<Record>): (r: seq<Record>)
    ensures |r| <= |h|
    ensures forall k :: 0 <= k < |r| ==> r[k].Sold? && r[k] in h
    ensures forall x :: x in h && x.Sold? ==> x in r
    ensures forall x :: multiset(r)[x] == if x.Sold? then multiset(h)[x] else 0
  {
    if h == [] then []
    else
      var r := SellRecords(h[..|h| - 1]);
      assert h == h[..|h| - 1] + [h[|h| - 1]];
      if h[|h| - 1].Sold? then r + [h[|h| - 1]] else r
  }

  function Wins(sells: seq<Record>): nat
    requires forall k :: 0 <= k < |sells| ==> sells[k].Sold?
  {
    if sells == [] then 0 else Wins(sells[..|sells| - 1]) + (if sells[|sells| - 1].pnl > 0.0 then 1 else 0)
  }

  function Losses(sells: seq<Record>): nat
    requires forall k :: 0 <= k < |sells| ==> sells[k].Sold?
  {
    if sells == [] then 0 else Losses(sells[..|sells| - 1]) + (if sells[|sells| - 1].pnl <= 0.0 then 1 else 0)
  }

  function TotalPnl(sells: seq<Record>): real
    requires forall k :: 0 <= k < |sells| ==> sells[k].Sold?
  {
    if sells == [] then 0.0 else TotalPnl(sells[..|sells| - 1]) + sells[|sells| - 1].pnl
  }

  /** Every closed trade is a win (positive P&L) or a loss, never both. */
  lemma {:induction false} WinsAndLosses(sells: seq<Record>)
    requires forall k :: 0 <= k < |sells| ==> sells[k].Sold?
    ensures Wins(sells) + Losses(sells) == |sells|
  {
    if sells != [] {
      WinsAndLosses(sells[..|sells| - 1]);
    }
  }

  /** `get_statistics`: aggregates over the SELL entries only. */
  function GetStatistics(h: seq<Record>): (s: Statistics)
    ensures h == [] ==> s == Statistics(0, 0, 0, 0.0, 0.0, 0.0)
    ensures s.totalTrades == |SellRecords(h)|
    ensures s.wins == Wins(SellRecords(h)) && s.losses == Losses(SellRecords(h))
    ensures s.wins + s.losses == s.totalTrades
    ensures s.totalPnl == TotalPnl(SellRecords(h))
    ensures 0.0 <= s.winRate <= 100.0
    ensures s.totalTrades == 0 ==> s.winRate == 0.0 && s.avgPnl == 0.0
    ensures s.totalTrades > 0 ==>
      s.winRate == s.wins as real / s.totalTrades as real * 100.0 && s.avgPnl == s.totalPnl / s.totalTrades as real
  {
    if h == [] then Statistics(0, 0, 0, 0.0, 0.0, 0.0)
    else
      var sells := SellRecords(h);
      var wins, losses, total := Wins(sells), Losses(sells), TotalPnl(sells);
      WinsAndLosses(sells);
      var n := |sells|;
      if n > 0 then
        RateWithin(wins, n);
        Statistics(n, wins, losses, wins as real / n as real * 100.0, total, total / n as real)
      else Statistics(0, wins, losses, 0.0, total, 0.0)
  }

  /** A share of `n` given as a percentage lies in `[0, 100]`. */
  lemma RateWithin(k: nat, n: nat)
    requires k <= n && 0 < n
    ensures 0.0 <= k as real / n as real * 100.0 <= 100.0
  {
    DivWithin(k as real, n as real, 0.0, 1.0);
  }

  // ---------------------------------------------------------------------------
  // The bot
  // ---------------------------------------------------------------------------

  class Bot {
    const config: Config
    var running: bool
    var activeTrades: map<string, Position>
    /** The keys of `activeTrades` in the order the dictionary iterates them. */
    var tradeOrder: seq<string>
    var tradeHistory: seq<Record>

    function State(): Book
      reads this
    {
      Book(activeTrades, tradeOrder, tradeHistory)
    }

    ghost predicate Valid()
      reads this
    {
      BookValid(State())
    }

    /** `__init__`: the configuration with its defaults, stopped, no positions, no history. */
    constructor (settings: Settings)
      ensures config == ConfigOf(settings)
      ensures !running && activeTrades == map[] && tradeOrder == [] && tradeHistory == []
      ensures Valid()
    {
      config := ConfigOf(settings);
      running := false;
      activeTrades := map[];
      tradeOrder := [];
      tradeHistory := [];
    }

    /** `start`: sets the flag (a second start changes nothing); the thread is not modelled. */
    method Start()
      modifies this
      ensures running
      ensures State() == old(State())
    {
      running := true;
    }

    /** `stop`: clears the flag. */
    method Stop()
      modifies this
      ensures !running
      ensures State() == old(State())
    {
      running := false;
    }

    /** `get_active_trades`: a copy; later changes to the bot do not reach it. */
    method GetActiveTrades() returns (trades: map<string, Position>)
      ensures trades == activeTrades
    {
      trades := activeTrades;
    }

    /** `get_trade_history`: a copy. */
    method GetTradeHistory() returns (history: seq<Record>)
      ensures history == tradeHistory
    {
      history := tradeHistory;
    }

    /** `_execute_buy`. */
    method ExecuteBuy(symbol: string, df: seq<Candle>, strength: real, details: Details)
      requires Valid()
      modifies this
      ensures Valid() && running == old(running)
      ensures State() == OpenPosition(old(State()), config, symbol, df, strength, details)
    {
      if |df| == 0 {
        return;
      }
      var price := df[|df| - 1].close;
      if price == 0.0 {
        return;
      }
      var order := Opened(config, symbol, price, strength, details).value;
      if symbol !in activeTrades {
        tradeOrder := tradeOrder + [symbol];
      }
      activeTrades := activeTrades[symbol := order];
      tradeHistory := tradeHistory + [Bought(symbol, price, order.amount, strength)];
    }

    /** `_execute_sell`. */
    method ExecuteSell(symbol: string, price: real, reason: ExitReason)
      requires Valid()
      modifies this
      ensures Valid() && running == old(running)
      ensures State() == RecordSell(old(State()), symbol, price, reason)
    {
      if symbol !in activeTrades {
        return;
      }
      var trade := activeTrades[symbol];
      if trade.price == 0.0 {
        return;
      }
      var record := SellRecord(symbol, trade, price, reason);
      tradeHistory := tradeHistory + [record];
    }

    /** One turn of the check's loop: sells `symbol` when `ExitOf` gives a reason, and says whether it did. */
    method CheckOne(symbol: string, m: Market) returns (closed: bool)
      requires Valid() && symbol in activeTrades
      modifies this
      ensures Valid() && running == old(running)
      ensures activeTrades == old(activeTrades) && tradeOrder == old(tradeOrder)
      ensures var e := ExitOf(symbol, old(activeTrades)[symbol], m);
        && closed == e.Some?
        && tradeHistory == old(tradeHistory)
             + (if e.Some? then [SellRecord(symbol, old(activeTrades)[symbol], e.value.price, e.value.reason)] else [])
    {
      closed := false;
      var trade := activeTrades[symbol];
      var ticker := m.ticker(symbol);
      if ticker.None? || trade.price == 0.0 {
        return;
      }
      var price := ticker.value;
      if price <= trade.stopLoss {
        ExecuteSell(symbol, price, StopLoss);
        closed := true;
      } else if price >= trade.takeProfit {
        ExecuteSell(symbol, price, TakeProfit);
        closed := true;
      } else {
        var df := m.ohlcv(symbol);
        if df.Some? && |df.value| > 0 {
          var a := m.analyze(df.value);
          if a.signal == -1 && a.strength >= MinStrength {
            ExecuteSell(symbol, price, SignalExit);
            closed := true;
          }
        }
      }
    }

    /** `_check_active_trades`. */
    method CheckActiveTrades(m: Market)
      requires Valid()
      modifies this
      ensures Valid() && running == old(running)
      ensures State() == Check(old(State()), m)
    {
      if activeTrades == map[] {
        return;
      }
      ghost var b0 := State();
      var symbols := tradeOrder;
      var closing: seq<string> := [];
      for i := 0 to |symbols|
        invariant Valid() && activeTrades == b0.trades && tradeOrder == b0.order && running == old(running)
        invariant tradeHistory == b0.history + CheckedUpTo(b0, m, i).sold
        invariant closing == CheckedUpTo(b0, m, i).closing
      {
        CheckedStep(b0, m, i);
        ghost var p := CheckedUpTo(b0, m, i);
        var closed := CheckOne(symbols[i], m);
        if closed {
          closing := closing + [symbols[i]];
          AppendAssoc(b0.history, p.sold, tradeHistory[|tradeHistory| - 1]);
        }
      }
      RemoveClosed(closing);
    }

    /** The deletion loop of the check: `del active_trades[s]` for each closed symbol. */
    method RemoveClosed(closing: seq<string>)
      requires Valid()
      modifies this
      ensures Valid() && running == old(running) && tradeHistory == old(tradeHistory)
      ensures activeTrades == old(activeTrades) - SetOf(closing)
      ensures tradeOrder == Without(old(tradeOrder), SetOf(closing))
    {
      ghost var b0 := State();
      WithoutNothing(b0.order);
      assert SetOf(closing[..0]) == {};
      for j := 0 to |closing|
        invariant activeTrades == b0.trades - SetOf(closing[..j])
        invariant tradeOrder == Without(b0.order, SetOf(closing[..j]))
        invariant tradeHistory == b0.history && running == old(running)
      {
        ghost var done := SetOf(closing[..j]);
        assert SetOf(closing[..j + 1]) == done + {closing[j]};
        WithoutTwice(b0.order, done, {closing[j]});
        MinusTwice(b0.trades, done, closing[j]);
        activeTrades := activeTrades - {closing[j]};
        tradeOrder := Without(tradeOrder, {closing[j]});
      }
      assert closing[..|closing|] == closing;
      RemovalKeepsValid(b0, SetOf(closing));
    }

    /** `_scan_opportunities`. */
    method ScanOpportunities(m: Market)
      requires Valid()
      modifies this
      ensures Valid() && running == old(running)
      ensures State() == Scan(old(State()), config, m, config.symbols)
    {
      ghost var b0 := State();
      var symbols := config.symbols;
      for i := 0 to |symbols|
        invariant Valid() && running == old(running)
        invariant State() == Scan(b0, config, m, symbols[..i])
      {
        ScanPrefix(b0, config, m, symbols, i);
        var symbol := symbols[i];
        if symbol !in activeTrades {
          var df := m.ohlcv(symbol);
          if df.Some? && |df.value| > 0 {
            var a := m.analyze(df.value);
            if a.signal == 1 && a.strength >= MinStrength {
              ExecuteBuy(symbol, df.value, a.strength, a.details);
            }
          }
        }
      }
      assert symbols[..|symbols|] == symbols;
    }

    /** One iteration of `_run_loop`, without the wait. */
    method RunCycle(m: Market)
      requires Valid()
      modifies this
      ensures Valid() && running == old(running)
      ensures State() == Cycle(old(State()), config, m)
    {
      CheckActiveTrades(m);
      if |activeTrades| < config.maxTrades {
        ScanOpportunities(m);
      }
    }
  }

  // ---------------------------------------------------------------------------
  // Properties of a cycle
  // ---------------------------------------------------------------------------

  /** History is append-only across a whole cycle. */
  lemma CycleKeepsHistory(b: Book, cfg: Config, m: Market)
    requires BookValid(b)
    ensures b.history <= Cycle(b, cfg, m).history
  {
  }

  /** A cycle opens nothing once the check leaves `max_trades` or more positions. */
  lemma CycleGate(b: Book, cfg: Config, m: Market)
    requires BookValid(b)
    requires |Check(b, m).trades| >= cfg.maxTrades
    ensures Cycle(b, cfg, m) == Check(b, m)
  {
  }

  /** A scan opens at most one position per listed symbol. */
  lemma {:induction false} ScanGrowth(b: Book, cfg: Config, m: Market, syms: seq<string>)
    ensures |Scan(b, cfg, m, syms).trades| <= |b.trades| + |syms|
  {
    if syms != [] {
      var r := Scan(b, cfg, m, syms[..|syms| - 1]);
      ScanGrowth(b, cfg, m, syms[..|syms| - 1]);
      var r' := ScanStep(r, cfg, m, syms[|syms| - 1]);
      assert r'.trades.Keys <= r.trades.Keys + {syms[|syms| - 1]};
      SubsetCard(r'.trades.Keys, r.trades.Keys + {syms[|syms| - 1]});
    }
  }

  lemma SubsetCard(a: set<string>, b: set<string>)
    requires a <= b
    ensures |a| <= |b|
  {
    assert b == a + (b - a);
  }

  /** An analyzer whose strength stays under 0.6 never opens a position. */
  lemma {:induction false} WeakAnalyzerNeverBuys(b: Book, cfg: Config, m: Market, syms: seq<string>)
    requires forall df :: m.analyze(df).strength < MinStrength
    ensures Scan(b, cfg, m, syms) == b
  {
    if syms != [] {
      WeakAnalyzerNeverBuys(b, cfg, m, syms[..|syms| - 1]);
    }
  }

  /** An analyzer whose strength stays under 0.6 never closes on a signal. */
  lemma WeakAnalyzerNeverSignalExits(symbol: string, pos: Position, m: Market)
    requires forall df :: m.analyze(df).strength < MinStrength
    ensures ExitOf(symbol, pos, m).Some? ==> ExitOf(symbol, pos, m).value.reason != SignalExit
  {
  }

  /** The bot's own analyzer (enrich, then score): its strength never reaches 0.6. */
  function MarketAnalyzer(sqrt: real -> real): (analyze: seq<Candle> -> Analysis)
    ensures forall df :: analyze(df).strength < MinStrength
  {
    df => AnalyzeCandles(df, sqrt)
  }

  /** Composed with the bot's own analyzer, a cycle opens no position and adds no SIGNAL exit. */
  lemma RealAnalyzerIsInert(b: Book, cfg: Config, m: Market, sqrt: real -> real)
    requires BookValid(b) && m.analyze == MarketAnalyzer(sqrt)
    ensures Cycle(b, cfg, m) == Check(b, m)
    ensures forall s :: s in b.trades && ExitOf(s, b.trades[s], m).Some? ==>
      ExitOf(s, b.trades[s], m).value.reason != SignalExit
  {
    WeakAnalyzerNeverBuys(Check(b, m), cfg, m, cfg.symbols);
    forall s | s in b.trades {
      WeakAnalyzerNeverSignalExits(s, b.trades[s], m);
    }
  }

  /** A market where every symbol has one flat candle and the analyzer always answers a full-strength BUY. */
  function EveryBuy(): Market {
    Market(s => Some([Candle(1.0, 1.0, 1.0, 1.0, 1.0)]), s => None, df => Analysis(1, 1.0, NoDetails))
  }

  /** Two symbols to scan, at most one trade. */
  const TwoSymbols: Config := Config(1, 100.0, 2.0, 5.0, 60, ["A", "B"], "5m")

  /** On `EveryBuy`, scanning a symbol without a position opens one. */
  lemma EveryBuyStep(b: Book, symbol: string)
    requires symbol !in b.trades
    ensures symbol in ScanStep(b, TwoSymbols, EveryBuy(), symbol).trades
  {
    var m := EveryBuy();
    assert m.ohlcv(symbol) == Some([Candle(1.0, 1.0, 1.0, 1.0, 1.0)]);
    assert StrongBuy(m, m.ohlcv(symbol).value);
  }

  /** From no position, a cycle is just the scan. */
  lemma EmptyCycleIsScan(cfg: Config, m: Market)
    requires 0 < cfg.maxTrades
    ensures Cycle(Book(map[], [], []), cfg, m) == Scan(Book(map[], [], []), cfg, m, cfg.symbols)
  {
  }

  /** A scan of two symbols is two scan steps. */
  lemma ScanTwo(b: Book, cfg: Config, m: Market, syms: seq<string>)
    requires |syms| == 2
    ensures Scan(b, cfg, m, syms) == ScanStep(ScanStep(b, cfg, m, syms[0]), cfg, m, syms[1])
  {
    ScanPrefix(b, cfg, m, syms, 0);
    ScanPrefix(b, cfg, m, syms, 1);
    assert syms[..0] == [] && syms[..2] == syms;
  }

  /**
   * The gate is tested once per cycle, so one scan can open several
   * positions: from no position and `max_trades = 1`, a cycle with two
   * strong BUYs ends with two.
   */
  lemma OneCycleCanExceedMaxTrades()
    ensures |Cycle(Book(map[], [], []), TwoSymbols, EveryBuy()).trades| == 2 > TwoSymbols.maxTrades
  {
    var m, cfg, b := EveryBuy(), TwoSymbols, Book(map[], [], []);
    EmptyCycleIsScan(cfg, m);
    ScanTwo(b, cfg, m, cfg.symbols);
    var b1 := ScanStep(b, cfg, m, "A");
    EveryBuyStep(b, "A");
    var b2 := ScanStep(b1, cfg, m, "B");
    EveryBuyStep(b1, "B");
    assert b2.trades.Keys == {"A", "B"};
  }

  /** A position bought at 100 with 2% stop-loss is closed at 97 with a loss of 3 per unit. */
  lemma StopLossScenario()
    ensures var pos := Position("BTC/USDT", 1.0, 100.0, 98.0, 105.0, 0.7, NoDetails);
      var b := Book(map["BTC/USDT" := pos], ["BTC/USDT"], []);
      var m := Market(s => None, s => Some(97.0), df => Analysis(0, 0.0, NoDetails));
      var r := Check(b, m);
      r.trades == map[] && r.order == []
      && r.history == [Sold("BTC/USDT", 97.0, 1.0, StopLoss, -3.0, -3.0)]
  {
    var pos := Position("BTC/USDT", 1.0, 100.0, 98.0, 105.0, 0.7, NoDetails);
    var b := Book(map["BTC/USDT" := pos], ["BTC/USDT"], []);
    var m := Market(s => None, s => Some(97.0), df => Analysis(0, 0.0, NoDetails));
    assert BookValid(b);
    assert ExitOf("BTC/USDT", pos, m) == Some(Exit(StopLoss, 97.0));
    assert b.order[..0] == [] && b.order[..|b.order| - 1] == [];
    assert CheckPass(b, m, []) == Pass([], []);
    var p := CheckPass(b, m, b.order);
    assert p.closing == ["BTC/USDT"];
    assert p.sold == [SellRecord("BTC/USDT", pos, 97.0, StopLoss)];
    var r := Check(b, m);
    assert SetOf(p.closing) == {"BTC/USDT"};
    assert Without([], {"BTC/USDT"}) == [];
    assert r.order == Without(["BTC/USDT"], {"BTC/USDT"});
  }
}
