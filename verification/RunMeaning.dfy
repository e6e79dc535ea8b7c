/** What a simulated run reserves, books and reports, in terms of its input and configuration alone
    (crates/core/src/simulation.rs). */
module RunMeaning {
  import opened Common
  import opened Market
  import opened SimulatedOrders
  import opened SimulateLeg
  import opened LegMeaning
  import opened RunTrading
  import opened RunPreparation
  import opened SimulationRun
  import Instrument
  import Scan
  import SimRng
  import OrderModel
  import Execution
  import PaperRequest

  // ---------------------------------------------------------------- the request

  /** The cost of the target at the scanned worst price after the adverse move. */
  function MovedCost(target: real, o: Scan.Opportunity, leg: LegConfig): real {
    target * o.buyWorstPrice + target * o.buyWorstPrice * leg.adverseMoveBps / 10000.0
  }

  lemma RoundUp8Bounds(x: real)
    requires x >= 0.0
    ensures x <= RoundUp8(x) < x + 0.00000001
  {
    hide Times, Over;
    var scaled := Times(x, 100000000.0);
    TimesSign(x, 100000000.0);
    var n := Ceiling(scaled) as real;
    assert scaled <= n < scaled + 1.0;
    OverTimes(n, 100000000.0);
    ScaledBack(x, RoundUp8(x), n);
  }

  lemma ScaledBack(x: real, y: real, n: real)
    requires Times(x, 100000000.0) <= n < Times(x, 100000000.0) + 1.0 && Times(y, 100000000.0) == n
    ensures x <= y < x + 0.00000001
  {
  }

  lemma EstimateCovers(target: real, o: Scan.Opportunity, leg: LegConfig)
    requires target > 0.0 && o.buyWorstPrice > 0.0 && leg.adverseMoveBps >= 0.0
    ensures MovedCost(target, o, leg) <= QuoteCostEstimate(target, o, leg) < MovedCost(target, o, leg) + 0.00000001
  {
    hide Times, Over, RoundUp8;
    var base := Times(target, o.buyWorstPrice);
    TimesSign(target, o.buyWorstPrice);
    ShareLeft(base, leg.adverseMoveBps);
    var rate := 1.0 + Over(leg.adverseMoveBps, BPS_DENOMINATOR);
    OverBounds(leg.adverseMoveBps, BPS_DENOMINATOR, 0.0);
    TimesSign(base, rate);
    RoundUp8Bounds(Times(base, rate));
    BaseIs(target, o.buyWorstPrice);
  }

  lemma BaseIs(target: real, price: real)
    ensures Times(target, price) == target * price
  {
  }

  lemma LimitFills(side: BookSide, instrument: Instrument.InstrumentSpec, leg: LegConfig, price: real)
    requires Instrument.UsableFilters(instrument) && ValidConfig(leg) && price > 0.0
    ensures OffsetLevelPrice(price, side, leg.adverseMoveBps, instrument.priceTick).Ok?
    ensures var limit := OffsetLevelPrice(price, side, leg.adverseMoveBps, instrument.priceTick).value;
            MovesTo(side, instrument, leg, price, limit) && NoBetterThan(side, limit, price)
  {
    hide MovesTo, OffsetLevelPrice, AdversePrice, Times, Over;
    var t := TermsOf(side, instrument, leg);
    UsableTermsOf(side, instrument, leg);
    FillPriceFills(side, instrument, leg, price);
    FillPriceOfPositive(price, t);
    OffsetIsNearestAdverseTick(price, side, leg.adverseMoveBps, instrument.priceTick, 0);
  }

  /** What a run asks to reserve: one buy at the buying venue and one sell at the selling one, each
      for the whole quantity; the buy limited to the least tick at or above the buy worst price
      moved up, the sell to the greatest at or below the sell worst price moved down; quote funds
      for the moved cost, rounded up at the eighth decimal, and the whole quantity in base. */
  lemma RunRequestMeans(n: Names, input: RunInput, c: RunConfig, d: Scan.Direction, scale: real -> nat)
    requires Instrument.UsableFilters(d.buyInstrument) && Instrument.UsableFilters(d.sellInstrument) && ValidConfig(c.leg)
    requires input.opportunity.buyWorstPrice > 0.0 && input.opportunity.sellWorstPrice > 0.0 && input.scan.quantity > 0.0
    ensures var (o, q) := (input.opportunity, input.scan.quantity);
            var r := RunRequest(n, input, c, LimitsOf(d, q, o, c.leg), scale);
            && |r.intents| == 2 && |r.reservations| == 2
            && var (buy, sell, quote, base) := (r.intents[0], r.intents[1], r.reservations[0], r.reservations[1]);
               && buy.side == PaperRequest.Buy && buy.venue == o.buyVenue && buy.quantity.value == q
               && sell.side == PaperRequest.Sell && sell.venue == o.sellVenue && sell.quantity.value == q
               && MovesTo(Asks, d.buyInstrument, c.leg, o.buyWorstPrice, buy.limitPrice.value) && buy.limitPrice.value >= o.buyWorstPrice
               && MovesTo(Bids, d.sellInstrument, c.leg, o.sellWorstPrice, sell.limitPrice.value) && sell.limitPrice.value <= o.sellWorstPrice
               && quote.venue == o.buyVenue && quote.asset == input.quoteAsset
               && MovedCost(q, o, c.leg) <= quote.amount.value < MovedCost(q, o, c.leg) + 0.00000001
               && base.venue == o.sellVenue && base.asset == input.baseAsset && base.amount.value == q
               && r.targetQuantity.value == q && r.maxUnmatchedExposure.value == c.maxUnmatchedExposure
  {
    hide MovesTo, OffsetLevelPrice, QuoteCostEstimate, MovedCost;
    LimitFills(Asks, d.buyInstrument, c.leg, input.opportunity.buyWorstPrice);
    LimitFills(Bids, d.sellInstrument, c.leg, input.opportunity.sellWorstPrice);
    EstimateCovers(input.scan.quantity, input.opportunity, c.leg);
  }

  lemma RoundUp8IsCeiling(x: real)
    requires x >= 0.0
    ensures RoundUp8(x) == (Ceiling(x * 100000000.0) as real) / 100000000.0
  {
    TimesSign(x, 100000000.0);
  }

  lemma CeilingCovers(a: real, b: real)
    ensures Ceiling(a) as real >= b <==> (Ceiling(b) as real) < a + 1.0
  {
    var m, n := Ceiling(a), Ceiling(b);
    assert (m as real) - 1.0 < a <= m as real && (n as real) - 1.0 < b <= n as real;
    hide Ceiling;
    if m >= n {
      assert m as real >= n as real;
    } else {
      assert (m + 1) as real <= n as real;
    }
  }

  /** Rounding up decides comparisons by whole units of the eighth decimal. */
  lemma RoundedCovers(x: real, y: real)
    requires x >= 0.0 && y >= 0.0
    ensures RoundUp8(x) >= y <==> RoundUp8(y) < x + 0.00000001
  {
    hide RoundUp8, Ceiling;
    RoundUp8IsCeiling(x);
    RoundUp8IsCeiling(y);
    CeilingCovers(x * 100000000.0, y * 100000000.0);
  }

  /** Limits are rounded to ticks and the quote funds are not, so the funds reserved for a buy cover
      its quantity at its limit exactly when that money, rounded up at the eighth decimal, exceeds
      the moved cost by less than one unit of that decimal. */
  lemma ReserveCoversLimitExactlyWhen(target: real, o: Scan.Opportunity, leg: LegConfig, instrument: Instrument.InstrumentSpec)
    requires Instrument.UsableFilters(instrument) && ValidConfig(leg) && target > 0.0 && o.buyWorstPrice > 0.0
    ensures OffsetLevelPrice(o.buyWorstPrice, Asks, leg.adverseMoveBps, instrument.priceTick).Ok?
    ensures var limit := OffsetLevelPrice(o.buyWorstPrice, Asks, leg.adverseMoveBps, instrument.priceTick).value;
            QuoteCostEstimate(target, o, leg) >= Times(target, limit) <==>
            RoundUp8(Times(target, limit)) < MovedCost(target, o, leg) + 0.00000001
  {
    hide Times, Over, RoundUp8, OffsetLevelPrice, MovesTo;
    LimitFills(Asks, instrument, leg, o.buyWorstPrice);
    var limit := OffsetLevelPrice(o.buyWorstPrice, Asks, leg.adverseMoveBps, instrument.priceTick).value;
    var rate := 1.0 + Over(leg.adverseMoveBps, BPS_DENOMINATOR);
    var base := Times(target, o.buyWorstPrice);
    TimesSign(target, o.buyWorstPrice);
    TimesSign(target, limit);
    OverBounds(leg.adverseMoveBps, BPS_DENOMINATOR, 0.0);
    TimesSign(base, rate);
    ShareLeft(base, leg.adverseMoveBps);
    BaseIs(target, o.buyWorstPrice);
    RoundedCovers(Times(base, rate), Times(target, limit));
  }

  /** One unit at 100, moved by one basis point with a tick of one: the limit is 101 and the funds
      reserved are less. */
  lemma LimitMayExceedReserve(o: Scan.Opportunity, leg: LegConfig, instrument: Instrument.InstrumentSpec)
    requires Instrument.UsableFilters(instrument) && ValidConfig(leg)
    requires instrument.priceTick == 1.0 && o.buyWorstPrice == 100.0 && leg.adverseMoveBps == 1.0
    ensures OffsetLevelPrice(o.buyWorstPrice, Asks, leg.adverseMoveBps, instrument.priceTick) == Ok(101.0)
    ensures QuoteCostEstimate(1.0, o, leg) < 101.0
  {
    hide Times, Over, RoundUp8, QuoteCostEstimate, OffsetLevelPrice;
    var limit := OffsetLevelPrice(o.buyWorstPrice, Asks, leg.adverseMoveBps, instrument.priceTick);
    LimitFills(Asks, instrument, leg, o.buyWorstPrice);
    var m: int :| limit.value == Instrument.Multiple(m, 1.0);
    BaseIs(m as real, 1.0);
    assert limit.value == m as real && 100.01 <= limit.value < 101.01;
    EstimateCovers(1.0, o, leg);
  }

  // ---------------------------------------------------------------- the trades

  /** The one trade of a leg: all it filled at its average price, so that price times quantity is
      the leg's money, charged the venue's rate on that money; none if its order was never
      confirmed or filled nothing. */
  lemma LegTradesMean(venue: string, outcome: Confirmation, runId: string, intent: string, leg: string, fill: SimLegResult,
                      feeRate: real, feeAsset: string, occurredAtMs: nat, scale: real -> nat)
    requires fill.filled > 0.0 ==> fill.avgPrice * fill.filled == fill.quoteAmount
    ensures var trades := LegTrades(venue, outcome, runId, intent, leg, fill, feeRate, feeAsset, occurredAtMs, scale);
            && |trades| == (if outcome == UnknownUnrecoverable || fill.filled <= 0.0 then 0 else 1)
            && forall f | f in trades ::
                 && f.intentId == intent && outcome == AcceptedAs(f.trade.exchangeOrderId)
                 && f.trade.venue == venue && f.trade.tradeId == runId + "-" + leg + "-trade" && f.trade.feeAsset == feeAsset
                 && f.trade.quantity.value == fill.filled && f.trade.price.value * f.trade.quantity.value == fill.quoteAmount
                 && f.trade.feeAmount.value == fill.quoteAmount * feeRate
                 && f.trade.sourceSequence == 1 && f.trade.occurredAtMs == occurredAtMs
  {
  }

  // ---------------------------------------------------------------- the report

  /** The fee of a leg: its money at the rate, if its order was confirmed and filled something. */
  predicate FeeIs(outcome: Confirmation, fill: SimLegResult, rate: real, fee: real) {
    if outcome.AcceptedAs? && fill.filled > 0.0 then fee == fill.quoteAmount * rate else fee == 0.0
  }

  /** A run that traded reports as its profit what is left of the sell leg's money after the buy
      leg's and both fees, each at the rate of the venue that leg traded on; and its execution
      values the gap between the fills at the sell worst price, and to compensate it at the mean
      of both worst prices with the configured markup. */
  lemma ReportBalances(input: RunInput, c: RunConfig, orders: map<string, OrderModel.OrderFact>, execution: map<string, Execution.Fact>,
                       report: RunReport)
    requires Accounted(input, c, orders, execution, report)
    ensures DirectionOf(input).Some? && report.trading.Some?
    ensures var (s, o, l, e) := (input.scan, input.opportunity, report.trading.value.legs, report.trading.value.evaluation);
            var buyFees := if s.firstBook.venue == o.buyVenue then s.firstFees else s.secondFees;
            var sellFees := if s.firstBook.venue == o.sellVenue then s.firstFees else s.secondFees;
            var gap := if l.buy.filled >= l.sell.filled then l.buy.filled - l.sell.filled else l.sell.filled - l.buy.filled;
            && l.sell.quoteAmount == report.simulatedNetProfit + l.buy.quoteAmount + l.buyFee + l.sellFee
            && FeeIs(l.buyOutcome, l.buy, buyFees.buyTakerRate, l.buyFee)
            && FeeIs(l.sellOutcome, l.sell, sellFees.sellTakerRate, l.sellFee)
            && e.snapshot.unmatchedQuantity == gap
            && e.snapshot.unmatchedExposure == gap * o.sellWorstPrice
            && 20000.0 * e.estimatedCost == gap * ((o.buyWorstPrice + o.sellWorstPrice) * (10000.0 + c.compensationMarkupBps))
  {
    hide OrdersAgree, ExecutionAgrees, ReportTells, ScannedFrom, Scan.GoodDirection, LegResult, SellPriceVanishes, CompensationCost, Times,
         FullyFilled, Instrument.UsableFilters, RolledAs, BothRolls;
    var d, l, o := DirectionOf(input).value, report.trading.value.legs, input.opportunity;
    RatesOfDirection(input);
    FeesBooked(l.buyOutcome, l.buy, d.buyFeeRate);
    FeesBooked(l.sellOutcome, l.sell, d.sellFeeRate);
    GapCost(Abs(l.buy.filled - l.sell.filled), o, c.compensationMarkupBps);
  }

  lemma RatesOfDirection(input: RunInput)
    requires DirectionOf(input).Some?
    ensures var (s, o, d) := (input.scan, input.opportunity, DirectionOf(input).value);
            && d.buyFeeRate == (if s.firstBook.venue == o.buyVenue then s.firstFees else s.secondFees).buyTakerRate
            && d.sellFeeRate == (if s.firstBook.venue == o.sellVenue then s.firstFees else s.secondFees).sellTakerRate
  {
  }

  lemma FeesBooked(outcome: Confirmation, fill: SimLegResult, rate: real)
    ensures FeeIs(outcome, fill, rate, BookedFee(outcome, fill, rate))
  {
  }

  lemma GapCost(gap: real, o: Scan.Opportunity, markupBps: real)
    ensures Times(gap, o.sellWorstPrice) == gap * o.sellWorstPrice
    ensures 20000.0 * Times(gap, CompensationCost(o, markupBps)) == gap * ((o.buyWorstPrice + o.sellWorstPrice) * (10000.0 + markupBps))
  {
    var pair := o.buyWorstPrice + o.sellWorstPrice;
    assert 20000.0 * CompensationCost(o, markupBps) == pair * (10000.0 + markupBps) by { MarkedUp(pair, markupBps); }
    hide CompensationCost;
    var unit := CompensationCost(o, markupBps);
    assert 20000.0 * (gap * unit) == gap * (20000.0 * unit);
  }

  lemma MarkedUp(pair: real, markupBps: real)
    ensures 20000.0 * Times(Over(pair, 2.0), 1.0 + Over(markupBps, BPS_DENOMINATOR)) == pair * (10000.0 + markupBps)
  {
    hide Times;
    ShareLeft(Over(pair, 2.0), markupBps);
  }

  // ---------------------------------------------------------------- chance and time

  /** The sampled delays lie in their configured ranges, and the fills are dated by the evaluation
      time plus both, or by the largest 64-bit time when that is less. */
  lemma DelaysWithinRange(input: RunInput, c: RunConfig)
    requires ValidRunConfig(c)
    ensures var report := BlankReport(input, c);
            var sum := input.evaluatedAtMs + report.decisionToSubmitMs + report.fillLatencyMs;
            && c.decisionToSubmitMsMin <= report.decisionToSubmitMs <= c.decisionToSubmitMsMax
            && c.fillLatencyMsMin <= report.fillLatencyMs <= c.fillLatencyMsMax
            && FilledAtMs(input, report) == (if sum < U64_RANGE then sum else U64_RANGE - 1)
  {
    hide SimRng.Draw, NamesOf;
  }

  /** The nearest whole number of basis points, the even one of two. */
  lemma RoundsToNearestEven(x: real, n: int)
    ensures var r := RoundHalfEven(x);
            && -0.5 <= x - r as real <= 0.5
            && ((x - r as real == 0.5 || r as real - x == 0.5) ==> r % 2 == 0)
            && (x == n as real ==> r == n)
  {
  }

  /** A timeout or a found lookup happens exactly when the draw, reduced modulo 10001, is below the
      rounded probability: never at zero, and not always at the full ten thousand, for from any
      seed some draw of each period still decides against it. */
  lemma RollMeans(seed: nat, n: nat, bps: real)
    ensures Roll(seed, n, bps) <==> SimRng.Draw(seed, n) % 10001 < RoundHalfEven(bps)
    ensures !Roll(seed, n, 0.0)
    ensures exists k | n <= k < n + U64_RANGE :: !Roll(seed, k, 10000.0)
  {
    hide SimRng.Draw;
    SimRng.EveryValueIsSampled(seed, n, 0, BPS_RANGE, BPS_RANGE);
    var k :| n <= k < n + U64_RANGE && SimRng.InRange(SimRng.Draw(seed, k), 0, BPS_RANGE) == BPS_RANGE;
    assert !Roll(seed, k, 10000.0);
  }
}
