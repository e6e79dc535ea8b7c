/** The two-venue opportunity scanner (crates/core/src/scan.rs). */
module Scan {
  import opened Common
  import opened Market
  import opened Instrument

  datatype StrategyConfig = StrategyConfig(
    minNetProfit: real,
    minNetBps: real,
    latencyLossBps: real,
    riskBufferBps: real,
    rebalanceCost: real,
    otherDirectCost: real)

  datatype VenueFeeRates = VenueFeeRates(buyTakerRate: real, sellTakerRate: real)

  datatype FreshnessLimits = FreshnessLimits(maxSnapshotAgeMs: nat, maxPairSkewMs: nat)

  datatype Rejection =
    | FirstSnapshotStale
    | SecondSnapshotStale
    | PairSkewed
    | NotAdmitted(reason: string)
    | OrderRejected(venue: string, order: OrderRejection)
    | ProfitBelowMinimum
    | BpsBelowMinimum

  datatype ScanError =
    | DifferentSymbols
    | InstrumentMismatch
    | BadBook(book: BookError)
    | BadSweep(sweep: SweepError)

  datatype Opportunity = Opportunity(
    buyVenue: string,
    sellVenue: string,
    buyVwap: real,
    sellVwap: real,
    buyWorstPrice: real,
    sellWorstPrice: real,
    buyCost: real,
    sellProceeds: real,
    grossProfit: real,
    fees: real,
    latencyLossEstimate: real,
    expectedNetProfit: real,
    riskBuffer: real,
    admissionProfit: real,
    admissionNetBps: real,
    accepted: bool,
    rejections: seq<Rejection>)

  datatype ScanReport = ScanReport(symbol: string, quantity: real, observedAtMs: nat, pairSkewMs: nat, directions: seq<Opportunity>)

  datatype ScanInput = ScanInput(
    firstBook: OrderBookSnapshot,
    secondBook: OrderBookSnapshot,
    firstInstrument: InstrumentSpec,
    secondInstrument: InstrumentSpec,
    quantity: real,
    firstFees: VenueFeeRates,
    secondFees: VenueFeeRates,
    strategy: StrategyConfig,
    nowMs: nat,
    freshness: FreshnessLimits,
    admissionRejections: seq<string>)

  /** One direction: buy on one venue's asks, sell on the other venue's bids. */
  datatype Direction = Direction(
    buyBook: OrderBookSnapshot,
    sellBook: OrderBookSnapshot,
    buyInstrument: InstrumentSpec,
    sellInstrument: InstrumentSpec,
    buyFeeRate: real,
    sellFeeRate: real)

  predicate GoodDirection(d: Direction) {
    GoodBook(d.buyBook) && GoodBook(d.sellBook) && UsableFilters(d.buyInstrument) && UsableFilters(d.sellInstrument)
  }

  function Tagged(venue: string, reasons: seq<OrderRejection>): seq<Rejection> {
    seq(|reasons|, i requires 0 <= i < |reasons| => OrderRejected(venue, reasons[i]))
  }

  function FlagRejection(condition: bool, reason: Rejection): seq<Rejection> {
    if condition then [reason] else []
  }

  function EvaluateDirection(d: Direction, quantity: real, strategy: StrategyConfig, shared: seq<Rejection>)
    : Result<Opportunity, ScanError>
    requires GoodDirection(d)
  {
    var buyR := SweepResult(d.buyBook.asks, quantity);
    if buyR.Err? then Err(BadSweep(buyR.error))
    else
      var sellR := SweepResult(d.sellBook.bids, quantity);
      if sellR.Err? then Err(BadSweep(sellR.error))
      else
        SweepQuotePositive(Asks, d.buyBook.asks, quantity);
        Ok(Judge(d, quantity, strategy, shared, buyR.value, sellR.value))
  }

  function Judge(d: Direction, quantity: real, strategy: StrategyConfig, shared: seq<Rejection>, buy: Sweep, sell: Sweep): Opportunity
    requires d.buyInstrument.quantityStep != 0.0 && d.sellInstrument.quantityStep != 0.0 && buy.quoteAmount > 0.0
  {
    var gross := sell.quoteAmount - buy.quoteAmount;
    var fees := Times(buy.quoteAmount, d.buyFeeRate) + Times(sell.quoteAmount, d.sellFeeRate);
    var latencyLoss := Over(Times(buy.quoteAmount, strategy.latencyLossBps), BPS_DENOMINATOR);
    var expected := gross - fees - latencyLoss - strategy.rebalanceCost - strategy.otherDirectCost;
    var riskBuffer := Over(Times(buy.quoteAmount, strategy.riskBufferBps), BPS_DENOMINATOR);
    var admission := expected - riskBuffer;
    var admissionBps := Times(Over(admission, buy.quoteAmount), BPS_DENOMINATOR);
    var rejections := shared
      + Tagged(d.buyInstrument.venue, OrderRejectionReasons(d.buyInstrument, quantity, buy.quoteAmount))
      + Tagged(d.sellInstrument.venue, OrderRejectionReasons(d.sellInstrument, quantity, sell.quoteAmount))
      + FlagRejection(admission < strategy.minNetProfit, ProfitBelowMinimum)
      + FlagRejection(admissionBps < strategy.minNetBps, BpsBelowMinimum);
    Opportunity(d.buyBook.venue, d.sellBook.venue, buy.vwap, sell.vwap, buy.worstPrice, sell.worstPrice,
                buy.quoteAmount, sell.quoteAmount, gross, fees, latencyLoss, expected, riskBuffer,
                admission, admissionBps, rejections == [], rejections)
  }

  function SaturatingSub(a: nat, b: nat): nat {
    if a >= b then a - b else 0
  }

  function AbsDiff(a: nat, b: nat): nat {
    if a >= b then a - b else b - a
  }

  function FreshnessRejections(firstAge: nat, secondAge: nat, skew: nat, limits: FreshnessLimits): seq<Rejection> {
    FlagRejection(firstAge > limits.maxSnapshotAgeMs, FirstSnapshotStale)
    + FlagRejection(secondAge > limits.maxSnapshotAgeMs, SecondSnapshotStale)
    + FlagRejection(skew > limits.maxPairSkewMs, PairSkewed)
  }

  function SharedRejections(input: ScanInput): seq<Rejection> {
    FreshnessRejections(
      SaturatingSub(input.nowMs, input.firstBook.receivedTimestampMs),
      SaturatingSub(input.nowMs, input.secondBook.receivedTimestampMs),
      AbsDiff(input.firstBook.receivedTimestampMs, input.secondBook.receivedTimestampMs),
      input.freshness)
    + seq(|input.admissionRejections|, i requires 0 <= i < |input.admissionRejections| => NotAdmitted(input.admissionRejections[i]))
  }

  /** Buying on one of the two venues and selling on one of them. */
  function DirectionAt(input: ScanInput, buyIndex: nat, sellIndex: nat): Direction {
    Direction(if buyIndex == 0 then input.firstBook else input.secondBook,
              if sellIndex == 0 then input.firstBook else input.secondBook,
              if buyIndex == 0 then input.firstInstrument else input.secondInstrument,
              if sellIndex == 0 then input.firstInstrument else input.secondInstrument,
              if buyIndex == 0 then input.firstFees.buyTakerRate else input.secondFees.buyTakerRate,
              if sellIndex == 0 then input.firstFees.sellTakerRate else input.secondFees.sellTakerRate)
  }

  function FirstToSecond(input: ScanInput): Direction { DirectionAt(input, 0, 1) }

  function SecondToFirst(input: ScanInput): Direction { DirectionAt(input, 1, 0) }

  /** The direction behind each of a scan's two opportunities. */
  function Evaluated(input: ScanInput, k: nat): Direction {
    if k == 0 then FirstToSecond(input) else SecondToFirst(input)
  }

  function ScanPair(input: ScanInput): Result<ScanReport, ScanError>
    requires UsableFilters(input.firstInstrument) && UsableFilters(input.secondInstrument)
  {
    if input.firstBook.symbol != input.secondBook.symbol then Err(DifferentSymbols)
    else if input.firstInstrument.venue != input.firstBook.venue || input.secondInstrument.venue != input.secondBook.venue then
      Err(InstrumentMismatch)
    else if Validate(input.firstBook).Err? then Err(BadBook(Validate(input.firstBook).error))
    else if Validate(input.secondBook).Err? then Err(BadBook(Validate(input.secondBook).error))
    else
      ValidateAcceptsExactlyGoodBooks(input.firstBook);
      ValidateAcceptsExactlyGoodBooks(input.secondBook);
      var shared := SharedRejections(input);
      var there := EvaluateDirection(FirstToSecond(input), input.quantity, input.strategy, shared);
      if there.Err? then Err(there.error)
      else
        var back := EvaluateDirection(SecondToFirst(input), input.quantity, input.strategy, shared);
        if back.Err? then Err(back.error)
        else
          Ok(ScanReport(input.firstBook.symbol, input.quantity, input.nowMs,
                        AbsDiff(input.firstBook.receivedTimestampMs, input.secondBook.receivedTimestampMs),
                        [there.value, back.value]))
  }

  // ---------------------------------------------------------------- properties

  lemma SweepQuotePositive(side: BookSide, levels: seq<Level>, target: real)
    requires GoodSide(side, levels) && SweepResult(levels, target).Ok?
    ensures target > 0.0 && Depth(levels) >= target && SweepResult(levels, target).value.quoteAmount > 0.0
  {
    hide SweepResult, Times;
    SweepIsOptimal(side, levels, target);
    var k := VwapBetweenBestAndWorst(side, levels, target);
    var s := SweepResult(levels, target).value;
    TimesSign(s.vwap, target);
  }

  /** Configuration and fee validation admit no negative cost. */
  predicate NonNegativeCosts(strategy: StrategyConfig) {
    && strategy.minNetProfit >= 0.0 && strategy.minNetBps >= 0.0
    && strategy.latencyLossBps >= 0.0 && strategy.riskBufferBps >= 0.0
    && strategy.rebalanceCost >= 0.0 && strategy.otherDirectCost >= 0.0
  }

  predicate ValidRate(rate: real) {
    0.0 <= rate < 1.0
  }

  predicate ValidFees(fees: VenueFeeRates) {
    ValidRate(fees.buyTakerRate) && ValidRate(fees.sellTakerRate)
  }

  /** Whatever a direction earns gross is bounded by the venues' best prices, and every charge
      between gross and admission profit only lowers it. */
  lemma DirectionBounds(d: Direction, quantity: real, strategy: StrategyConfig, shared: seq<Rejection>)
    requires GoodDirection(d) && NonNegativeCosts(strategy) && ValidRate(d.buyFeeRate) && ValidRate(d.sellFeeRate)
    requires EvaluateDirection(d, quantity, strategy, shared).Ok?
    ensures quantity > 0.0
    ensures var o := EvaluateDirection(d, quantity, strategy, shared).value;
            && o.grossProfit <= Times(d.sellBook.bids[0].price - d.buyBook.asks[0].price, quantity)
            && o.admissionProfit <= o.grossProfit
            && (o.accepted ==> o.grossProfit >= 0.0)
  {
    hide Times, Over, SweepResult, Judge;
    var asks, bids := d.buyBook.asks, d.sellBook.bids;
    SweepQuotePositive(Asks, asks, quantity);
    SweepQuotePositive(Bids, bids, quantity);
    BestPriceBound(Asks, asks, quantity);
    BestPriceBound(Bids, bids, quantity);
    var buy, sell := SweepResult(asks, quantity).value, SweepResult(bids, quantity).value;
    TimesDistributes(quantity, bids[0].price, asks[0].price);
    JudgeOnlySubtracts(d, quantity, strategy, shared, buy, sell);
  }

  lemma BestPriceBound(side: BookSide, levels: seq<Level>, quantity: real)
    requires GoodSide(side, levels) && 0.0 < quantity <= Depth(levels)
    ensures levels != [] && SweepResult(levels, quantity).Ok?
    ensures NoBetterThan(side, SweepResult(levels, quantity).value.quoteAmount, Times(levels[0].price, quantity))
  {
    hide Times, SweepResult;
    SweepIsOptimal(side, levels, quantity);
    var taken :| Allocation(levels, taken) && Sum(taken) == quantity && QuoteOf(levels, taken) == SweepResult(levels, quantity).value.quoteAmount;
    BestLevelBounds(side, levels, taken);
  }

  lemma JudgeOnlySubtracts(d: Direction, quantity: real, strategy: StrategyConfig, shared: seq<Rejection>, buy: Sweep, sell: Sweep)
    requires d.buyInstrument.quantityStep != 0.0 && d.sellInstrument.quantityStep != 0.0
    requires buy.quoteAmount > 0.0 && sell.quoteAmount > 0.0
    requires NonNegativeCosts(strategy) && ValidRate(d.buyFeeRate) && ValidRate(d.sellFeeRate)
    ensures var o := Judge(d, quantity, strategy, shared, buy, sell);
            && o.grossProfit == sell.quoteAmount - buy.quoteAmount
            && o.admissionProfit <= o.grossProfit
            && (o.accepted ==> o.admissionProfit >= strategy.minNetProfit)
  {
    hide Times, Over, OrderRejectionReasons;
    TimesSign(buy.quoteAmount, d.buyFeeRate);
    TimesSign(sell.quoteAmount, d.sellFeeRate);
    TimesSign(buy.quoteAmount, strategy.latencyLossBps);
    TimesSign(buy.quoteAmount, strategy.riskBufferBps);
    OverBounds(Times(buy.quoteAmount, strategy.latencyLossBps), BPS_DENOMINATOR, 0.0);
    OverBounds(Times(buy.quoteAmount, strategy.riskBufferBps), BPS_DENOMINATOR, 0.0);
    var o := Judge(d, quantity, strategy, shared, buy, sell);
    if o.admissionProfit < strategy.minNetProfit {
      assert ProfitBelowMinimum in FlagRejection(o.admissionProfit < strategy.minNetProfit, ProfitBelowMinimum);
      assert ProfitBelowMinimum in o.rejections;
    }
  }

  /** Both snapshots are young enough and close enough in time. */
  predicate FreshPair(input: ScanInput) {
    && input.nowMs <= input.firstBook.receivedTimestampMs + input.freshness.maxSnapshotAgeMs
    && input.nowMs <= input.secondBook.receivedTimestampMs + input.freshness.maxSnapshotAgeMs
    && input.firstBook.receivedTimestampMs <= input.secondBook.receivedTimestampMs + input.freshness.maxPairSkewMs
    && input.secondBook.receivedTimestampMs <= input.firstBook.receivedTimestampMs + input.freshness.maxPairSkewMs
  }

  lemma SharedRejectionsMean(input: ScanInput)
    ensures SharedRejections(input) == [] <==> FreshPair(input) && input.admissionRejections == []
  {
  }

  /** Every unit of the proceeds is cost, fee, a named charge or admission profit. */
  predicate ProceedsAccounted(o: Opportunity, strategy: StrategyConfig) {
    && o.sellProceeds == o.buyCost + o.fees + o.latencyLossEstimate + strategy.rebalanceCost + strategy.otherDirectCost
                         + o.riskBuffer + o.admissionProfit
    && o.grossProfit == o.sellProceeds - o.buyCost
    && o.expectedNetProfit == o.admissionProfit + o.riskBuffer
  }

  lemma JudgeAccepts(d: Direction, quantity: real, strategy: StrategyConfig, shared: seq<Rejection>, buy: Sweep, sell: Sweep)
    requires d.buyInstrument.quantityStep > 0.0 && d.sellInstrument.quantityStep > 0.0 && buy.quoteAmount > 0.0
    ensures var o := Judge(d, quantity, strategy, shared, buy, sell);
            && (o.buyVenue, o.sellVenue) == (d.buyBook.venue, d.sellBook.venue)
            && (o.buyCost, o.sellProceeds) == (buy.quoteAmount, sell.quoteAmount)
            && (o.buyWorstPrice, o.sellWorstPrice) == (buy.worstPrice, sell.worstPrice)
            && ProceedsAccounted(o, strategy)
            && (o.accepted <==>
                  && shared == []
                  && FitsFilters(d.buyInstrument, quantity, o.buyCost) && FitsFilters(d.sellInstrument, quantity, o.sellProceeds)
                  && o.admissionProfit >= strategy.minNetProfit && o.admissionNetBps >= strategy.minNetBps)
  {
    hide OrderRejectionReasons, FitsFilters, Times, Over;
    NoRejectionExactlyWithinFilters(d.buyInstrument, quantity, buy.quoteAmount);
    NoRejectionExactlyWithinFilters(d.sellInstrument, quantity, sell.quoteAmount);
  }

  /** An opportunity is accepted exactly when the pair is fresh, nothing bars admission, both
      orders are within their venue's filters at their own notional, and both profit thresholds
      are met; it names the venues whose books it was swept from, and accounts for all proceeds. */
  lemma AcceptedExactlyWhen(input: ScanInput, k: nat)
    requires UsableFilters(input.firstInstrument) && UsableFilters(input.secondInstrument) && ScanPair(input).Ok? && k < 2
    ensures GoodDirection(Evaluated(input, k)) && |ScanPair(input).value.directions| == 2
    ensures var o, d := ScanPair(input).value.directions[k], Evaluated(input, k);
            && EvaluateDirection(d, input.quantity, input.strategy, SharedRejections(input)) == Ok(o)
            && (o.buyVenue, o.sellVenue) == (d.buyBook.venue, d.sellBook.venue)
            && ProceedsAccounted(o, input.strategy)
            && (o.accepted <==>
                  && FreshPair(input) && input.admissionRejections == []
                  && FitsFilters(d.buyInstrument, input.quantity, o.buyCost)
                  && FitsFilters(d.sellInstrument, input.quantity, o.sellProceeds)
                  && o.admissionProfit >= input.strategy.minNetProfit && o.admissionNetBps >= input.strategy.minNetBps)
  {
    hide Judge, SharedRejections, FreshPair, FitsFilters, SweepResult, GoodBook, Validate;
    ValidateAcceptsExactlyGoodBooks(input.firstBook);
    ValidateAcceptsExactlyGoodBooks(input.secondBook);
    SharedRejectionsMean(input);
    var d := Evaluated(input, k);
    SweptPositive(d, input.quantity, input.strategy, SharedRejections(input));
    JudgeAccepts(d, input.quantity, input.strategy, SharedRejections(input),
                 SweepResult(d.buyBook.asks, input.quantity).value, SweepResult(d.sellBook.bids, input.quantity).value);
  }

  lemma SweptPositive(d: Direction, quantity: real, strategy: StrategyConfig, shared: seq<Rejection>)
    requires GoodDirection(d) && EvaluateDirection(d, quantity, strategy, shared).Ok?
    ensures SweepResult(d.buyBook.asks, quantity).Ok? && SweepResult(d.sellBook.bids, quantity).Ok?
    ensures SweepResult(d.buyBook.asks, quantity).value.quoteAmount > 0.0
  {
    hide Judge, SweepResult;
    SweepQuotePositive(Asks, d.buyBook.asks, quantity);
  }

  /** The two directions of one scan earn, gross, strictly less than nothing together, so they
      are never both accepted; and an accepted direction sells above where it buys. */
  lemma DirectionsExcludeEachOther(input: ScanInput)
    requires UsableFilters(input.firstInstrument) && UsableFilters(input.secondInstrument)
    requires NonNegativeCosts(input.strategy) && ValidFees(input.firstFees) && ValidFees(input.secondFees)
    requires ScanPair(input).Ok?
    ensures var d := ScanPair(input).value.directions;
            && |d| == 2
            && d[0].grossProfit + d[1].grossProfit < 0.0
            && !(d[0].accepted && d[1].accepted)
            && (d[0].accepted ==> input.secondBook.bids[0].price >= input.firstBook.asks[0].price)
            && (d[1].accepted ==> input.firstBook.bids[0].price >= input.secondBook.asks[0].price)
  {
    hide Times, EvaluateDirection, SharedRejections, GoodBook, Validate;
    ValidateAcceptsExactlyGoodBooks(input.firstBook);
    ValidateAcceptsExactlyGoodBooks(input.secondBook);
    var shared := SharedRejections(input);
    DirectionBounds(FirstToSecond(input), input.quantity, input.strategy, shared);
    DirectionBounds(SecondToFirst(input), input.quantity, input.strategy, shared);
    TouchSpread(input.firstBook);
    TouchSpread(input.secondBook);
    var there := input.secondBook.bids[0].price - input.firstBook.asks[0].price;
    var back := input.firstBook.bids[0].price - input.secondBook.asks[0].price;
    TimesDistributes(input.quantity, there, back);
    TimesSign(input.quantity, there);
    TimesSign(input.quantity, back);
    TimesSign(input.quantity, there + back);
    TimesDistributes(input.quantity, there, 0.0);
    TimesDistributes(input.quantity, back, 0.0);
    TimesDistributes(input.quantity, there + back, 0.0);
  }

  lemma TouchSpread(book: OrderBookSnapshot)
    requires GoodBook(book)
    ensures book.bids != [] && book.asks != [] && book.bids[0].price < book.asks[0].price
  {
  }
}
