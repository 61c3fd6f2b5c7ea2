/**
 * The signal scorer of `MarketAnalyzer`: `generate_signals` reads the last two
 * rows of an enriched frame, lets five indicator families vote for BUY or
 * SELL with a budget each, and turns the net vote into a decision and a
 * strength; `predict_direction` renames the decision.
 *
 * Every family adds to one side only and never more than its budget, so the
 * strength, `|net| / (2·total)`, is at most 0.5 although the documented range
 * is 0.0 to 1.0.
 */
module Signals {
  import opened Wrappers
  import opened Indicators

  // ---------------------------------------------------------------------------
  // Votes
  // ---------------------------------------------------------------------------

  /** What one indicator family adds to `buy_signals`, `sell_signals` and `total_signals`, and its detail label. */
  datatype Vote = Vote(buy: nat, sell: nat, budget: nat, detail: string)

  /** A family adds to one side at most, and never more than the budget it adds to the total. */
  predicate Fair(v: Vote) {
    (v.buy == 0 || v.sell == 0) && v.buy <= v.budget && v.sell <= v.budget
  }

  /** NaN compares false with everything. */
  predicate LessEq(a: Option<real>, b: Option<real>) {
    a.Some? && b.Some? && a.value <= b.value
  }

  predicate GreaterEq(a: Option<real>, b: Option<real>) {
    a.Some? && b.Some? && a.value >= b.value
  }

  /** RSI: strong buy under 30, buy under 40, strong sell over 70, sell over 60; budget 2. */
  function RsiVote(rsi: Option<real>): (v: Option<Vote>)
    ensures v.Some? <==> rsi.Some?
    ensures v.Some? ==> Fair(v.value) && v.value.budget == 2
    ensures v.Some? ==> (v.value.buy == 2 <==> rsi.value < 30.0) && (v.value.buy == 1 <==> 30.0 <= rsi.value < 40.0)
    ensures v.Some? ==> (v.value.sell == 2 <==> rsi.value > 70.0) && (v.value.sell == 1 <==> 60.0 < rsi.value <= 70.0)
  {
    if rsi.None? then None
    else if rsi.value < 30.0 then Some(Vote(2, 0, 2, "STRONG BUY (Oversold)"))
    else if rsi.value < 40.0 then Some(Vote(1, 0, 2, "BUY"))
    else if rsi.value > 70.0 then Some(Vote(0, 2, 2, "STRONG SELL (Overbought)"))
    else if rsi.value > 60.0 then Some(Vote(0, 1, 2, "SELL"))
    else Some(Vote(0, 0, 2, "NEUTRAL"))
  }

  /**
   * MACD against its signal line, and EMA9 against EMA21: a strong vote needs
   * a crossover since the previous row, otherwise the vote follows the
   * current relation; budget 2.
   */
  function CrossoverVote(fast: Option<real>, slow: Option<real>, prevFast: Option<real>, prevSlow: Option<real>,
                         strongBuy: string, strongSell: string): (v: Option<Vote>)
    ensures v.Some? <==> fast.Some? && slow.Some?
    ensures v.Some? ==> Fair(v.value) && v.value.budget == 2
    ensures v.Some? ==> (v.value.buy == 2 <==> fast.value > slow.value && LessEq(prevFast, prevSlow))
    ensures v.Some? ==> (v.value.buy == 1 <==> fast.value > slow.value && !LessEq(prevFast, prevSlow))
    ensures v.Some? ==> (v.value.sell == 2 <==> fast.value < slow.value && GreaterEq(prevFast, prevSlow))
    ensures v.Some? ==> (v.value.sell == 1 <==> fast.value < slow.value && !GreaterEq(prevFast, prevSlow))
  {
    if fast.None? || slow.None? then None
    else if fast.value > slow.value && LessEq(prevFast, prevSlow) then Some(Vote(2, 0, 2, strongBuy))
    else if fast.value > slow.value then Some(Vote(1, 0, 2, "BUY"))
    else if fast.value < slow.value && GreaterEq(prevFast, prevSlow) then Some(Vote(0, 2, 2, strongSell))
    else if fast.value < slow.value then Some(Vote(0, 1, 2, "SELL"))
    else Some(Vote(0, 0, 2, "NEUTRAL"))
  }

  predicate PercentBelow(percent: Option<real>, x: real) {
    percent.Some? && percent.value < x
  }

  predicate PercentAbove(percent: Option<real>, x: real) {
    percent.Some? && percent.value > x
  }

  /**
   * Bollinger bands, tested in this order: close under the lower band (strong
   * buy), `%b` under 0.2 (buy), close over the upper band (strong sell), `%b`
   * over 0.8 (sell); budget 2.
   */
  function BollingerVote(close: real, upper: Option<real>, lower: Option<real>, percent: Option<real>): (v: Option<Vote>)
    ensures v.Some? <==> upper.Some? && lower.Some?
    ensures v.Some? ==> Fair(v.value) && v.value.budget == 2
    ensures v.Some? ==> (v.value.buy == 2 <==> close < lower.value)
    ensures v.Some? ==> (v.value.buy == 1 <==> !(close < lower.value) && PercentBelow(percent, 0.2))
    ensures v.Some? ==> (v.value.sell == 2 <==>
      !(close < lower.value) && !PercentBelow(percent, 0.2) && close > upper.value)
    ensures v.Some? ==> (v.value.sell == 1 <==>
      !(close < lower.value) && !PercentBelow(percent, 0.2) && !(close > upper.value) && PercentAbove(percent, 0.8))
  {
    if upper.None? || lower.None? then None
    else if close < lower.value then Some(Vote(2, 0, 2, "STRONG BUY (Below Lower Band)"))
    else if PercentBelow(percent, 0.2) then Some(Vote(1, 0, 2, "BUY"))
    else if close > upper.value then Some(Vote(0, 2, 2, "STRONG SELL (Above Upper Band)"))
    else if PercentAbove(percent, 0.8) then Some(Vote(0, 1, 2, "SELL"))
    else Some(Vote(0, 0, 2, "NEUTRAL"))
  }

  /** MFI: buy under 20, sell over 80; budget 1. */
  function MfiVote(mfi: Option<real>): (v: Option<Vote>)
    ensures v.Some? <==> mfi.Some?
    ensures v.Some? ==> Fair(v.value) && v.value.budget == 1
    ensures v.Some? ==> (v.value.buy == 1 <==> mfi.value < 20.0) && (v.value.sell == 1 <==> mfi.value > 80.0)
  {
    if mfi.None? then None
    else if mfi.value < 20.0 then Some(Vote(1, 0, 1, "BUY (Oversold)"))
    else if mfi.value > 80.0 then Some(Vote(0, 1, 1, "SELL (Overbought)"))
    else Some(Vote(0, 0, 1, "NEUTRAL"))
  }

  /** ADX does not vote; it only labels the trend. */
  function TrendStrength(adx: Option<real>): (trend: Option<string>)
    ensures trend.None? <==> adx.None?
    ensures trend == Some("STRONG") <==> adx.Some? && adx.value > 25.0
    ensures trend == Some("MODERATE") <==> adx.Some? && 20.0 < adx.value <= 25.0
    ensures trend == Some("WEAK") <==> adx.Some? && adx.value <= 20.0
  {
    if adx.None? then None
    else if adx.value > 25.0 then Some("STRONG")
    else if adx.value > 20.0 then Some("MODERATE")
    else Some("WEAK")
  }

  /** The five voting families, read from the last row and (for crossovers) the row before. */
  function Votes(last: Row, prev: Row): (vs: seq<Option<Vote>>)
    ensures |vs| == 5
    ensures forall k :: 0 <= k < |vs| && vs[k].Some? ==> Fair(vs[k].value)
    ensures Budgets(vs) <= 9
  {
    var rsi := RsiVote(last.rsi);
    var macd := CrossoverVote(last.macd, last.macdsignal, prev.macd, prev.macdsignal,
                              "STRONG BUY (Bullish Cross)", "STRONG SELL (Bearish Cross)");
    var bb := BollingerVote(last.candle.close, last.bbUpper, last.bbLower, last.bbPercent);
    var ema := CrossoverVote(last.ema9, last.ema21, prev.ema9, prev.ema21,
                             "STRONG BUY (Golden Cross)", "STRONG SELL (Death Cross)");
    var mfi := MfiVote(last.mfi);
    var vs := [rsi, macd, bb, ema, mfi];
    BudgetsOfFive(vs);
    vs
  }

  lemma BudgetsOfFive(vs: seq<Option<Vote>>)
    requires |vs| == 5
    ensures Budgets(vs) == BudgetOf(vs[0]) + BudgetOf(vs[1]) + BudgetOf(vs[2]) + BudgetOf(vs[3]) + BudgetOf(vs[4])
  {
    var t1 := vs[1..];
    var t2 := t1[1..];
    var t3 := t2[1..];
    var t4 := t3[1..];
    assert t4[1..] == [];
    assert Budgets(t4) == BudgetOf(vs[4]);
    assert Budgets(t3) == BudgetOf(vs[3]) + Budgets(t4);
    assert Budgets(t2) == BudgetOf(vs[2]) + Budgets(t3);
    assert Budgets(t1) == BudgetOf(vs[1]) + Budgets(t2);
  }

  function BudgetOf(v: Option<Vote>): nat {
    if v.Some? then v.value.budget else 0
  }

  function Budgets(vs: seq<Option<Vote>>): nat {
    if vs == [] then 0 else BudgetOf(vs[0]) + Budgets(vs[1..])
  }

  datatype Count = Count(buy: nat, sell: nat, total: nat)

  /** Adds one family's vote to the running totals; a family that did not vote adds nothing. */
  function Add(v: Option<Vote>, t: Count): Count {
    if v.None? then t else Count(v.value.buy + t.buy, v.value.sell + t.sell, v.value.budget + t.total)
  }

  /** The totals after all families have voted. */
  function Tally(vs: seq<Option<Vote>>): (t: Count)
    ensures t.total == Budgets(vs)
    ensures (forall k :: 0 <= k < |vs| && vs[k].Some? ==> Fair(vs[k].value)) ==> t.buy + t.sell <= t.total
  {
    if vs == [] then Count(0, 0, 0)
    else
      assert forall k :: 0 <= k < |vs| - 1 ==> vs[1..][k] == vs[k + 1];
      Add(vs[0], Tally(vs[1..]))
  }

  // ---------------------------------------------------------------------------
  // generate_signals and predict_direction
  // ---------------------------------------------------------------------------

  /** The details dictionary; `NoDetails` is the empty one returned for too short a frame. */
  datatype Details =
    | NoDetails
    | Details(
        rsiSignal: Option<string>, macdSignal: Option<string>, bbSignal: Option<string>,
        emaSignal: Option<string>, mfiSignal: Option<string>, trendStrength: Option<string>,
        decision: Decision, buySignals: nat, sellSignals: nat,
        currentPrice: real, rsiValue: real, macdValue: real, adxValue: real)

  datatype Analysis = Analysis(signal: int, strength: real, details: Details)

  function Label(v: Option<Vote>): Option<string> {
    if v.Some? then Some(v.value.detail) else None
  }

  /** `min(|net| / max_possible, 1.0) if max_possible > 0 else 0.0`. */
  function Strength(net: int, maxPossible: int): real {
    if maxPossible > 0 then
      var s := Abs(net as real) / maxPossible as real;
      if s < 1.0 then s else 1.0
    else 0.0
  }

  /** With at most `total` votes cast, the strength is exactly `|net| / (2·total)` and at most one half. */
  lemma StrengthOfTally(t: Count)
    requires t.buy + t.sell <= t.total
    ensures 0.0 <= Strength(t.buy - t.sell, 2 * t.total) <= 0.5
    ensures Strength(t.buy - t.sell, 2 * t.total) == NetShare(t)
    ensures Strength(t.buy - t.sell, 2 * t.total) == 0.0 <==> t.buy == t.sell
  {
    var net := Abs((t.buy - t.sell) as real);
    assert net <= t.total as real;
    if t.total > 0 {
      var m := (2 * t.total) as real;
      DivWithin(net, m, 0.0, 0.5);
      DivSign(net, m);
    }
  }

  /** The `decision` entry of the details: BUY, SELL or HOLD. */
  datatype Decision = Buy | Sell | Hold

  /** The net vote as a share of the largest possible, `|net| / (2·total)`: the strength with its cap at 1.0 removed. */
  function NetShare(t: Count): real {
    if t.total == 0 then 0.0 else Abs((t.buy - t.sell) as real) / (2 * t.total) as real
  }

  datatype Outcome = Outcome(signal: int, strength: real, decision: Decision)

  /** The decision taken on the totals: its sign is the sign of the net vote, its strength `|net| / (2·total)`. */
  function Decide(t: Count): (o: Outcome)
    requires t.buy + t.sell <= t.total
    ensures o.signal == 1 <==> t.buy > t.sell
    ensures o.signal == -1 <==> t.sell > t.buy
    ensures o.signal == 0 <==> t.buy == t.sell
    ensures 0.0 <= o.strength <= 0.5
    ensures o.strength == 0.0 <==> o.signal == 0
    ensures o.strength == NetShare(t)
    ensures o.decision == (if o.signal == 1 then Buy else if o.signal == -1 then Sell else Hold)
  {
    var net := t.buy - t.sell;
    StrengthOfTally(t);
    if net > 0 then Outcome(1, Strength(net, 2 * t.total), Buy)
    else if net < 0 then Outcome(-1, Strength(net, 2 * t.total), Sell)
    else Outcome(0, 0.0, Hold)
  }

  function ValueOr(x: Option<real>): real {
    if x.Some? then x.value else 0.0
  }

  /** The totals of the five families on the last two rows of a frame. */
  function TallyOf(df: seq<Row>): (t: Count)
    requires |df| >= 2
    ensures t.buy + t.sell <= t.total <= 9
  {
    Tally(Votes(df[|df| - 1], df[|df| - 2]))
  }

  /** `generate_signals`. */
  function GenerateSignals(df: seq<Row>): (r: Analysis)
    ensures |df| < 2 ==> r == Analysis(0, 0.0, NoDetails)
    ensures -1 <= r.signal <= 1
    ensures 0.0 <= r.strength <= 0.5
    ensures r.strength == 0.0 <==> r.signal == 0
    ensures |df| >= 2 ==>
      && (r.signal == 1 <==> TallyOf(df).buy > TallyOf(df).sell)
      && (r.signal == -1 <==> TallyOf(df).sell > TallyOf(df).buy)
      && r.strength == NetShare(TallyOf(df))
      && r.details.Details?
      && r.details.buySignals == TallyOf(df).buy && r.details.sellSignals == TallyOf(df).sell
      && r.details.decision == (if r.signal == 1 then Buy else if r.signal == -1 then Sell else Hold)
  {
    if |df| < 2 then Analysis(0, 0.0, NoDetails)
    else
      var last, prev := df[|df| - 1], df[|df| - 2];
      var vs := Votes(last, prev);
      var t := TallyOf(df);
      var o := Decide(t);
      Analysis(o.signal, o.strength,
        Details(Label(vs[0]), Label(vs[1]), Label(vs[2]), Label(vs[3]), Label(vs[4]), TrendStrength(last.adx),
                o.decision, t.buy, t.sell,
                last.candle.close, ValueOr(last.rsi), ValueOr(last.macd), ValueOr(last.adx)))
  }

  datatype Direction = Up | Down | Sideways

  datatype Prediction = Prediction(direction: Direction, confidence: real, signal: int, details: Details)

  /** `predict_direction`: UP for a BUY, DOWN for a SELL, otherwise SIDEWAYS; confidence in percent. */
  function PredictDirection(df: seq<Row>): (p: Prediction)
    ensures p.direction == Up <==> GenerateSignals(df).signal == 1
    ensures p.direction == Down <==> GenerateSignals(df).signal == -1
    ensures p.direction == Sideways <==> GenerateSignals(df).signal == 0
    ensures p.confidence == GenerateSignals(df).strength * 100.0
    ensures 0.0 <= p.confidence <= 50.0
  {
    var a := GenerateSignals(df);
    Prediction(if a.signal == 1 then Up else if a.signal == -1 then Down else Sideways,
               a.strength * 100.0, a.signal, a.details)
  }

  /** What the bot asks of `MarketAnalyzer`: enrich the candles, then score the result. */
  function AnalyzeCandles(df: seq<Candle>, sqrt: real -> real): (r: Analysis)
    ensures 0.0 <= r.strength <= 0.5
    ensures |df| < 2 ==> r == Analysis(0, 0.0, NoDetails)
  {
    GenerateSignals(PopulateIndicators(Some(df), sqrt).value)
  }

  // ---------------------------------------------------------------------------
  // Properties of the scorer
  // ---------------------------------------------------------------------------

  /** The net share is one half exactly when some vote was cast and every vote went to one side with full budgets. */
  lemma HalfShareIff(t: Count)
    requires t.buy + t.sell <= t.total
    ensures NetShare(t) == 0.5 <==> 0 < t.total && (t.buy == t.total || t.sell == t.total)
  {
    if t.total > 0 {
      var m := (2 * t.total) as real;
      var net := Abs((t.buy - t.sell) as real);
      assert NetShare(t) == net / m;
      assert net / m * m == net;
      if net / m == 0.5 {
        assert net == 0.5 * m == t.total as real;
      }
      if t.buy == t.total || t.sell == t.total {
        assert net == t.total as real;
        assert net / m == 0.5;
      }
    }
  }

  /** The strength reaches its bound one half exactly when every family that voted gave its whole budget to one side. */
  lemma FullStrengthIff(df: seq<Row>)
    requires |df| >= 2
    ensures var t := TallyOf(df);
      GenerateSignals(df).strength == 0.5 <==> 0 < t.total && (t.buy == t.total || t.sell == t.total)
  {
    HalfShareIff(TallyOf(df));
  }

  /** ADX never votes: changing it changes neither the decision nor the strength. */
  lemma AdxDoesNotVote(df: seq<Row>, adx: Option<real>)
    requires |df| >= 2
    ensures var df' := df[|df| - 1 := df[|df| - 1].(adx := adx)];
      GenerateSignals(df').signal == GenerateSignals(df).signal
      && GenerateSignals(df').strength == GenerateSignals(df).strength
  {
    var df' := df[|df| - 1 := df[|df| - 1].(adx := adx)];
    assert Votes(df'[|df'| - 1], df'[|df'| - 2]) == Votes(df[|df| - 1], df[|df| - 2]);
  }
}
