/** Simulated profit against the scanner's estimate on the same books and rates. */
module LegVersusScan {
  import opened Common
  import opened Market
  import opened Instrument
  import opened Scan
  import opened SimulateLeg

  /** What the run reports: proceeds less cost less both fees on what was actually exchanged. */
  function NetProfit(buy: SimLegResult, sell: SimLegResult, buyFeeRate: real, sellFeeRate: real): real {
    sell.quoteAmount - Times(sell.quoteAmount, sellFeeRate) - buy.quoteAmount - Times(buy.quoteAmount, buyFeeRate)
  }

  /** The scanner's profit after fees for a quantity it could sweep on both books. */
  function ScannedAfterFees(asks: seq<Level>, bids: seq<Level>, quantity: real, buyFeeRate: real, sellFeeRate: real): real
    requires SweepResult(asks, quantity).Ok? && SweepResult(bids, quantity).Ok?
  {
    var cost := SweepResult(asks, quantity).value.quoteAmount;
    var proceeds := SweepResult(bids, quantity).value.quoteAmount;
    proceeds - cost - (Times(cost, buyFeeRate) + Times(proceeds, sellFeeRate))
  }

  /** When both legs fill the same positive quantity, the simulated net profit is at most what
      the scanner would report after fees for that quantity. */
  lemma MatchedLegsNeverBeatScan(d: Direction, requested: real, config: LegConfig)
    requires GoodDirection(d) && ValidConfig(config) && requested > 0.0
    requires ValidRate(d.buyFeeRate) && ValidRate(d.sellFeeRate)
    ensures LegResult(Asks, d.buyBook, d.buyInstrument, requested, config).Ok?
    ensures LegResult(Bids, d.sellBook, d.sellInstrument, requested, config).Ok?
    ensures var buy := LegResult(Asks, d.buyBook, d.buyInstrument, requested, config).value;
            var sell := LegResult(Bids, d.sellBook, d.sellInstrument, requested, config).value;
            buy.filled == sell.filled > 0.0 ==>
              && SweepResult(d.buyBook.asks, buy.filled).Ok? && SweepResult(d.sellBook.bids, buy.filled).Ok?
              && NetProfit(buy, sell, d.buyFeeRate, d.sellFeeRate)
                 <= ScannedAfterFees(d.buyBook.asks, d.sellBook.bids, buy.filled, d.buyFeeRate, d.sellFeeRate)
  {
    hide LegResult, SweepResult, Times;
    LegNeverBeatsSweep(Asks, d.buyBook, d.buyInstrument, requested, config);
    LegNeverBeatsSweep(Bids, d.sellBook, d.sellInstrument, requested, config);
    var buy := LegResult(Asks, d.buyBook, d.buyInstrument, requested, config).value;
    var sell := LegResult(Bids, d.sellBook, d.sellInstrument, requested, config).value;
    if buy.filled == sell.filled > 0.0 {
      var cost := SweepResult(d.buyBook.asks, buy.filled).value.quoteAmount;
      var proceeds := SweepResult(d.sellBook.bids, buy.filled).value.quoteAmount;
      TimesDistributes(d.buyFeeRate, buy.quoteAmount, cost);
      TimesDistributes(d.sellFeeRate, proceeds, sell.quoteAmount);
      TimesDistributes(proceeds - sell.quoteAmount, 1.0, d.sellFeeRate);
      TimesSign(buy.quoteAmount - cost, d.buyFeeRate);
      TimesSign(proceeds - sell.quoteAmount, 1.0 - d.sellFeeRate);
    }
  }

  /** With both legs fully filled, the simulated net profit is at most the scanned opportunity's
      gross profit less its fees. */
  lemma FullFillsNeverBeatOpportunity(d: Direction, quantity: real, strategy: StrategyConfig, shared: seq<Rejection>, config: LegConfig)
    requires GoodDirection(d) && ValidConfig(config)
    requires ValidRate(d.buyFeeRate) && ValidRate(d.sellFeeRate)
    requires EvaluateDirection(d, quantity, strategy, shared).Ok?
    ensures LegResult(Asks, d.buyBook, d.buyInstrument, quantity, config).Ok?
    ensures LegResult(Bids, d.sellBook, d.sellInstrument, quantity, config).Ok?
    ensures var buy := LegResult(Asks, d.buyBook, d.buyInstrument, quantity, config).value;
            var sell := LegResult(Bids, d.sellBook, d.sellInstrument, quantity, config).value;
            var o := EvaluateDirection(d, quantity, strategy, shared).value;
            buy.filled == quantity && sell.filled == quantity ==>
              NetProfit(buy, sell, d.buyFeeRate, d.sellFeeRate) <= o.grossProfit - o.fees
  {
    hide LegResult, SweepResult, Times, Over, NetProfit, OrderRejectionReasons;
    SweepQuotePositive(Asks, d.buyBook.asks, quantity);
    MatchedLegsNeverBeatScan(d, quantity, config);
  }
}
