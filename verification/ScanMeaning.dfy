/** The scanner's report in terms of its input alone (crates/core/src/scan.rs). */
module ScanMeaning {
  import opened Common
  import opened Market
  import opened Instrument
  import opened Scan

  /** A scan succeeds exactly when both books are of one symbol, each instrument is its book's
      venue's, both books are good and every side holds the quantity, which is positive. */
  lemma ScansExactlyWhen(input: ScanInput)
    requires UsableFilters(input.firstInstrument) && UsableFilters(input.secondInstrument)
    ensures var scan := ScanPair(input);
            var (first, second) := (input.firstBook, input.secondBook);
            && (scan.Ok? <==>
                  && first.symbol == second.symbol
                  && input.firstInstrument.venue == first.venue && input.secondInstrument.venue == second.venue
                  && GoodBook(first) && GoodBook(second)
                  && 0.0 < input.quantity
                  && input.quantity <= Depth(first.bids) && input.quantity <= Depth(first.asks)
                  && input.quantity <= Depth(second.bids) && input.quantity <= Depth(second.asks))
            && (scan == Err(DifferentSymbols) <==> first.symbol != second.symbol)
            && (scan == Err(InstrumentMismatch) <==>
                  && first.symbol == second.symbol
                  && (input.firstInstrument.venue != first.venue || input.secondInstrument.venue != second.venue))
  {
    hide SweepResult, GoodBook, Validate, EvaluateDirection, SharedRejections;
    ValidateAcceptsExactlyGoodBooks(input.firstBook);
    ValidateAcceptsExactlyGoodBooks(input.secondBook);
    if GoodBook(input.firstBook) && GoodBook(input.secondBook) {
      DirectionSucceedsExactlyWhen(FirstToSecond(input), input.quantity, input.strategy, SharedRejections(input));
      DirectionSucceedsExactlyWhen(SecondToFirst(input), input.quantity, input.strategy, SharedRejections(input));
    }
  }

  lemma DirectionSucceedsExactlyWhen(d: Direction, quantity: real, strategy: StrategyConfig, shared: seq<Rejection>)
    requires GoodDirection(d)
    ensures EvaluateDirection(d, quantity, strategy, shared).Ok? <==>
            0.0 < quantity && quantity <= Depth(d.buyBook.asks) && quantity <= Depth(d.sellBook.bids)
    ensures EvaluateDirection(d, quantity, strategy, shared).Err? ==> EvaluateDirection(d, quantity, strategy, shared).error.BadSweep?
  {
    hide SweepResult, Judge;
    SweepIsOptimal(Asks, d.buyBook.asks, quantity);
    SweepIsOptimal(Bids, d.sellBook.bids, quantity);
  }

  /** The report repeats the symbol, the quantity and the time, and gives the distance of the two
      receive times. */
  lemma ReportRepeatsInput(input: ScanInput)
    requires UsableFilters(input.firstInstrument) && UsableFilters(input.secondInstrument) && ScanPair(input).Ok?
    ensures var (report, a, b) := (ScanPair(input).value, input.firstBook.receivedTimestampMs, input.secondBook.receivedTimestampMs);
            && report.symbol == input.firstBook.symbol == input.secondBook.symbol
            && report.quantity == input.quantity && report.observedAtMs == input.nowMs
            && (report.pairSkewMs + b == a || report.pairSkewMs + a == b)
            && |report.directions| == 2
  {
    hide GoodBook, Validate, EvaluateDirection, SharedRejections;
  }

  // ---------------------------------------------------------------- the money

  /** The charges of an opportunity, without divisions: each fee on its own side's money, the
      latency loss, the risk buffer and the net basis points as shares of the cost. */
  predicate ChargesAre(o: Opportunity, buyRate: real, sellRate: real, strategy: StrategyConfig) {
    && o.fees == o.buyCost * buyRate + o.sellProceeds * sellRate
    && 10000.0 * o.latencyLossEstimate == o.buyCost * strategy.latencyLossBps
    && 10000.0 * o.riskBuffer == o.buyCost * strategy.riskBufferBps
    && o.admissionNetBps * o.buyCost == 10000.0 * o.admissionProfit
  }

  /** What is left of the proceeds after the sell fee, less the cost with the buy fee, is the
      expected net profit and the charges that were taken off it. */
  predicate MoneyBalances(o: Opportunity, buyRate: real, sellRate: real, strategy: StrategyConfig) {
    && (o.sellProceeds - o.sellProceeds * sellRate) - (o.buyCost + o.buyCost * buyRate)
       == o.expectedNetProfit + o.latencyLossEstimate + strategy.rebalanceCost + strategy.otherDirectCost
    && o.expectedNetProfit == o.admissionProfit + o.riskBuffer
    && o.grossProfit == o.sellProceeds - o.buyCost
  }

  lemma ShareOf(x: real, bps: real)
    ensures 10000.0 * Over(Times(x, bps), BPS_DENOMINATOR) == x * bps
  {
  }

  lemma RateOf(part: real, whole: real)
    requires whole != 0.0
    ensures Times(Over(part, whole), BPS_DENOMINATOR) * whole == 10000.0 * part
  {
    OverTimes(part, whole);
  }

  lemma ProductIs(a: real, b: real)
    ensures Times(a, b) == a * b
  {
  }

  lemma JudgedMoney(d: Direction, quantity: real, strategy: StrategyConfig, shared: seq<Rejection>, buy: Sweep, sell: Sweep)
    requires d.buyInstrument.quantityStep > 0.0 && d.sellInstrument.quantityStep > 0.0 && buy.quoteAmount > 0.0
    ensures var o := Judge(d, quantity, strategy, shared, buy, sell);
            && ChargesAre(o, d.buyFeeRate, d.sellFeeRate, strategy) && MoneyBalances(o, d.buyFeeRate, d.sellFeeRate, strategy)
            && (o.buyVwap, o.sellVwap) == (buy.vwap, sell.vwap)
  {
    hide OrderRejectionReasons, Times, Over;
    var o := Judge(d, quantity, strategy, shared, buy, sell);
    ShareOf(o.buyCost, strategy.latencyLossBps);
    ShareOf(o.buyCost, strategy.riskBufferBps);
    RateOf(o.admissionProfit, o.buyCost);
    ProductIs(o.buyCost, d.buyFeeRate);
    ProductIs(o.sellProceeds, d.sellFeeRate);
  }

  /** Taking the quantity from the first level on ends in a level of this price. */
  predicate EndsAtPrice(levels: seq<Level>, quantity: real, price: real) {
    exists k | 0 <= k < |levels| ::
      Depth(levels[..k]) < quantity <= Depth(levels[..k]) + levels[k].quantity && levels[k].price == price
  }

  lemma SweptFacts(side: BookSide, levels: seq<Level>, quantity: real)
    requires GoodSide(side, levels) && 0.0 < quantity <= Depth(levels)
    ensures SweepResult(levels, quantity).Ok?
    ensures var s := SweepResult(levels, quantity).value;
            && BestQuote(side, levels, quantity, s.quoteAmount) && s.vwap * quantity == s.quoteAmount
            && EndsAtPrice(levels, quantity, s.worstPrice)
  {
    hide SweepResult, Times, BestQuote;
    SweepIsOptimal(side, levels, quantity);
    var k := VwapBetweenBestAndWorst(side, levels, quantity);
    ProductIs(SweepResult(levels, quantity).value.vwap, quantity);
  }

  /** The money of each of the two directions, the first buying on the first venue: the least cost
      and the greatest proceeds of the quantity on the two books, the averages and worst prices
      that go with them, and every charge from the right venue's rates and the strategy. */
  lemma ScannedMoney(input: ScanInput, k: nat)
    requires UsableFilters(input.firstInstrument) && UsableFilters(input.secondInstrument) && ScanPair(input).Ok? && k < 2
    ensures |ScanPair(input).value.directions| == 2
    ensures var o := ScanPair(input).value.directions[k];
            var (buyBook, sellBook) := if k == 0 then (input.firstBook, input.secondBook) else (input.secondBook, input.firstBook);
            var (buyFees, sellFees) := if k == 0 then (input.firstFees, input.secondFees) else (input.secondFees, input.firstFees);
            && (o.buyVenue, o.sellVenue) == (buyBook.venue, sellBook.venue)
            && BestQuote(Asks, buyBook.asks, input.quantity, o.buyCost)
            && BestQuote(Bids, sellBook.bids, input.quantity, o.sellProceeds)
            && o.buyVwap * input.quantity == o.buyCost && o.sellVwap * input.quantity == o.sellProceeds
            && EndsAtPrice(buyBook.asks, input.quantity, o.buyWorstPrice)
            && EndsAtPrice(sellBook.bids, input.quantity, o.sellWorstPrice)
            && ChargesAre(o, buyFees.buyTakerRate, sellFees.sellTakerRate, input.strategy)
            && MoneyBalances(o, buyFees.buyTakerRate, sellFees.sellTakerRate, input.strategy)
  {
    hide Judge, SharedRejections, SweepResult, GoodBook, Validate, BestQuote, EndsAtPrice, ChargesAre, MoneyBalances, FitsFilters, FreshPair;
    AcceptedExactlyWhen(input, k);
    var d := Evaluated(input, k);
    var shared := SharedRejections(input);
    SweptPositive(d, input.quantity, input.strategy, shared);
    DirectionSucceedsExactlyWhen(d, input.quantity, input.strategy, shared);
    GoodSides(d);
    SweptFacts(Asks, d.buyBook.asks, input.quantity);
    SweptFacts(Bids, d.sellBook.bids, input.quantity);
    var buy, sell := SweepResult(d.buyBook.asks, input.quantity).value, SweepResult(d.sellBook.bids, input.quantity).value;
    JudgedMoney(d, input.quantity, input.strategy, shared, buy, sell);
    JudgeAccepts(d, input.quantity, input.strategy, shared, buy, sell);
  }

  lemma GoodSides(d: Direction)
    requires GoodDirection(d)
    ensures GoodSide(Asks, d.buyBook.asks) && GoodSide(Bids, d.sellBook.bids)
  {
  }

  // ---------------------------------------------------------------- the reasons

  /** One venue refuses the order, for this reason. */
  ghost predicate VenueRefuses(spec: InstrumentSpec, quantity: real, notional: real, why: OrderRejection) {
    match why
    case QuantityBelowMinimum => quantity < spec.minQuantity
    case QuantityAboveMaximum => spec.maxQuantity.Some? && quantity > spec.maxQuantity.value
    case QuantityOffStep => !OnGrid(quantity, spec.quantityStep)
    case NotionalBelowMinimum => notional < spec.minNotional
    case NotionalAboveMaximum => spec.maxNotional.Some? && notional > spec.maxNotional.value
  }

  /** When a reason belongs on an opportunity's list. */
  ghost predicate Applies(input: ScanInput, o: Opportunity, buy: InstrumentSpec, sell: InstrumentSpec, why: Rejection) {
    match why
    case FirstSnapshotStale => input.nowMs > input.firstBook.receivedTimestampMs + input.freshness.maxSnapshotAgeMs
    case SecondSnapshotStale => input.nowMs > input.secondBook.receivedTimestampMs + input.freshness.maxSnapshotAgeMs
    case PairSkewed =>
      || input.firstBook.receivedTimestampMs > input.secondBook.receivedTimestampMs + input.freshness.maxPairSkewMs
      || input.secondBook.receivedTimestampMs > input.firstBook.receivedTimestampMs + input.freshness.maxPairSkewMs
    case NotAdmitted(reason) => reason in input.admissionRejections
    case OrderRejected(venue, order) =>
      || (venue == buy.venue && VenueRefuses(buy, input.quantity, o.buyCost, order))
      || (venue == sell.venue && VenueRefuses(sell, input.quantity, o.sellProceeds, order))
    case ProfitBelowMinimum => o.admissionProfit < input.strategy.minNetProfit
    case BpsBelowMinimum => o.admissionNetBps < input.strategy.minNetBps
  }

  lemma ReasonsOfVenue(spec: InstrumentSpec, quantity: real, notional: real, why: OrderRejection)
    requires spec.quantityStep > 0.0
    ensures why in OrderRejectionReasons(spec, quantity, notional) <==> VenueRefuses(spec, quantity, notional, why)
  {
    hide Remainder, OnGrid;
    RemainderVanishesOnSteps(quantity, spec.quantityStep);
  }

  lemma TaggedMeans(venue: string, reasons: seq<OrderRejection>, why: Rejection)
    ensures why in Tagged(venue, reasons) <==> why.OrderRejected? && why.venue == venue && why.order in reasons
  {
    if why.OrderRejected? && why.venue == venue && why.order in reasons {
      var i :| 0 <= i < |reasons| && reasons[i] == why.order;
      assert Tagged(venue, reasons)[i] == why;
    }
  }

  lemma SharedMeans(input: ScanInput, why: Rejection)
    ensures why in SharedRejections(input) <==>
            match why
            case FirstSnapshotStale => input.nowMs > input.firstBook.receivedTimestampMs + input.freshness.maxSnapshotAgeMs
            case SecondSnapshotStale => input.nowMs > input.secondBook.receivedTimestampMs + input.freshness.maxSnapshotAgeMs
            case PairSkewed =>
              || input.firstBook.receivedTimestampMs > input.secondBook.receivedTimestampMs + input.freshness.maxPairSkewMs
              || input.secondBook.receivedTimestampMs > input.firstBook.receivedTimestampMs + input.freshness.maxPairSkewMs
            case NotAdmitted(reason) => reason in input.admissionRejections
            case _ => false
  {
    var barred := seq(|input.admissionRejections|, i requires 0 <= i < |input.admissionRejections| => NotAdmitted(input.admissionRejections[i]));
    if why.NotAdmitted? && why.reason in input.admissionRejections {
      var i :| 0 <= i < |input.admissionRejections| && input.admissionRejections[i] == why.reason;
      assert barred[i] == why;
    }
  }

  lemma JudgedReasons(input: ScanInput, d: Direction, buy: Sweep, sell: Sweep, why: Rejection)
    requires d.buyInstrument.quantityStep > 0.0 && d.sellInstrument.quantityStep > 0.0 && buy.quoteAmount > 0.0
    ensures var o := Judge(d, input.quantity, input.strategy, SharedRejections(input), buy, sell);
            why in o.rejections <==> Applies(input, o, d.buyInstrument, d.sellInstrument, why)
  {
    hide OrderRejectionReasons, SharedRejections, Tagged, VenueRefuses, Times, Over;
    SharedMeans(input, why);
    TaggedMeans(d.buyInstrument.venue, OrderRejectionReasons(d.buyInstrument, input.quantity, buy.quoteAmount), why);
    TaggedMeans(d.sellInstrument.venue, OrderRejectionReasons(d.sellInstrument, input.quantity, sell.quoteAmount), why);
    if why.OrderRejected? {
      ReasonsOfVenue(d.buyInstrument, input.quantity, buy.quoteAmount, why.order);
      ReasonsOfVenue(d.sellInstrument, input.quantity, sell.quoteAmount, why.order);
    }
  }

  /** Each direction lists exactly the reasons that apply to it, and is accepted if none does. */
  lemma ListsExactlyTheReasons(input: ScanInput, k: nat, why: Rejection)
    requires UsableFilters(input.firstInstrument) && UsableFilters(input.secondInstrument) && ScanPair(input).Ok? && k < 2
    ensures |ScanPair(input).value.directions| == 2
    ensures var o := ScanPair(input).value.directions[k];
            var (buy, sell) := if k == 0 then (input.firstInstrument, input.secondInstrument) else (input.secondInstrument, input.firstInstrument);
            && (why in o.rejections <==> Applies(input, o, buy, sell, why))
            && (o.accepted <==> o.rejections == [])
  {
    hide SharedRejections, SweepResult, GoodBook, Validate, FitsFilters, FreshPair, Applies, OrderRejectionReasons;
    AcceptedExactlyWhen(input, k);
    var d := Evaluated(input, k);
    SweptPositive(d, input.quantity, input.strategy, SharedRejections(input));
    JudgedReasons(input, d, SweepResult(d.buyBook.asks, input.quantity).value, SweepResult(d.sellBook.bids, input.quantity).value, why);
  }
}
