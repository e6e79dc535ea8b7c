/** Level-by-level simulated matching of one leg (crates/core/src/simulation.rs). */
module SimulateLeg {
  import opened Common
  import opened Market
  import opened Instrument

  datatype LegConfig = LegConfig(adverseMoveBps: real, competitorTakeBps: real)

  datatype SimLegResult = SimLegResult(
    filled: real,
    quoteAmount: real,
    avgPrice: real,
    lastRawPrice: real,
    lastFillPrice: real,
    depthShortfall: bool,
    belowMinQuantity: bool)

  datatype LegError = NonPositivePrice | NonPositiveRequest

  /** Both basis-point fields lie in [0, 10000]. */
  predicate ValidConfig(config: LegConfig) {
    && 0.0 <= config.adverseMoveBps <= BPS_DENOMINATOR
    && 0.0 <= config.competitorTakeBps <= BPS_DENOMINATOR
  }

  // ---------------------------------------------------------------- price offset

  function Ceiling(x: real): int { -((-x).Floor) }

  function RoundAwayFromZero(x: real): int {
    if x >= 0.0 then Ceiling(x) else x.Floor
  }

  function RoundTowardZero(x: real): int {
    if x >= 0.0 then x.Floor else Ceiling(x)
  }

  /** The level price moved against the order, before rounding. */
  function AdversePrice(price: real, side: BookSide, bps: real): real {
    match side
    case Asks => Times(price, 1.0 + Over(bps, BPS_DENOMINATOR))
    case Bids => Times(price, 1.0 - Over(bps, BPS_DENOMINATOR))
  }

  function OffsetLevelPrice(price: real, side: BookSide, bps: real, tick: real): Result<real, LegError>
    requires tick > 0.0
  {
    if price <= 0.0 then Err(NonPositivePrice)
    else
      var raw := AdversePrice(price, side, bps);
      var ticks := if side == Asks then RoundAwayFromZero(Over(raw, tick)) else RoundTowardZero(Over(raw, tick));
      Ok(Multiple(ticks, tick))
  }

  lemma FractionOfBps(bps: real)
    requires 0.0 <= bps <= BPS_DENOMINATOR
    ensures 0.0 <= Over(bps, BPS_DENOMINATOR) <= 1.0
  {
  }

  lemma AdverseNonNegative(price: real, side: BookSide, bps: real)
    requires price > 0.0 && 0.0 <= bps <= BPS_DENOMINATOR
    ensures AdversePrice(price, side, bps) >= 0.0
    ensures NoBetterThan(side, AdversePrice(price, side, bps), price)
  {
    hide Times, Over;
    var f := Over(bps, BPS_DENOMINATOR);
    FractionOfBps(bps);
    TimesDistributes(price, 1.0, f);
    TimesSign(price, f);
    TimesSign(price, 1.0 - f);
  }

  lemma MultipleMonotone(m: int, n: int, step: real)
    requires m <= n && step >= 0.0
    ensures Multiple(m, step) <= Multiple(n, step)
  {
    hide Times;
    TimesSign((n - m) as real, step);
    TimesDistributes(step, n as real, m as real);
  }

  lemma MultipleAlgebra(m: int, n: int, step: real)
    ensures Multiple(-n, step) == -Multiple(n, step)
    ensures Multiple(m, step) + Multiple(n, step) == Multiple(m + n, step)
    ensures Multiple(0, step) == 0.0 && Multiple(1, step) == step
  {
    hide Times;
    TimesDistributes(step, 0.0, n as real);
    TimesDistributes(step, m as real, n as real);
    TimesDistributes(step, 1.0, 0.0);
  }

  lemma FloorScaled(q: real, step: real)
    requires step > 0.0
    ensures Multiple(q.Floor, step) <= Times(q, step) < Multiple(q.Floor + 1, step)
  {
    hide Times;
    var d := q - q.Floor as real;
    assert 0.0 <= d < 1.0;
    TimesSign(step, d);
    TimesSign(step, 1.0 - d);
    TimesDistributes(step, q, q.Floor as real);
    TimesDistributes(step, (q.Floor + 1) as real, q);
  }

  /** The multiples of `tick` on either side of `x`. */
  lemma TickBounds(x: real, tick: real)
    requires tick > 0.0
    ensures Multiple(Over(x, tick).Floor, tick) <= x < Multiple(Over(x, tick).Floor + 1, tick)
    ensures Multiple(Ceiling(Over(x, tick)) - 1, tick) < x <= Multiple(Ceiling(Over(x, tick)), tick)
  {
    hide Times, Over, Multiple;
    var q := Over(x, tick);
    OverTimes(x, tick);
    FloorScaled(q, tick);
    FloorScaled(-q, tick);
    TimesDistributes(tick, 0.0, q);
    MultipleAlgebra(0, (-q).Floor, tick);
    MultipleAlgebra(0, (-q).Floor + 1, tick);
  }

  /** A buyer pays the least tick multiple not below the adverse price; a seller receives the
      greatest one not above it. */
  lemma OffsetIsNearestAdverseTick(price: real, side: BookSide, bps: real, tick: real, n: int)
    requires price > 0.0 && tick > 0.0 && 0.0 <= bps <= BPS_DENOMINATOR
    ensures var r := OffsetLevelPrice(price, side, bps, tick);
            var raw := AdversePrice(price, side, bps);
            && r.Ok? && OnGrid(r.value, tick) && r.value >= 0.0
            && NoBetterThan(side, r.value, raw) && NoBetterThan(side, r.value, price)
            && (NoBetterThan(side, Multiple(n, tick), raw) ==> NoBetterThan(side, Multiple(n, tick), r.value))
  {
    hide Times, Over, Multiple, AdversePrice;
    var raw := AdversePrice(price, side, bps);
    AdverseNonNegative(price, side, bps);
    TickBounds(raw, tick);
    OverBounds(raw, tick, 0.0);
    var m := if side == Asks then Ceiling(Over(raw, tick)) else Over(raw, tick).Floor;
    assert OffsetLevelPrice(price, side, bps, tick) == Ok(Multiple(m, tick));
    if side == Asks {
      if n < m { MultipleMonotone(n, m - 1, tick); } else { MultipleMonotone(m, n, tick); }
    } else {
      if m < n { MultipleMonotone(m + 1, n, tick); } else { MultipleMonotone(n, m, tick); }
    }
    MultipleMonotone(0, m, tick);
    MultipleAlgebra(0, 0, tick);
  }

  // ---------------------------------------------------------------- one leg

  /** The constants of one simulated leg. */
  datatype LegTerms = LegTerms(side: BookSide, takeRate: real, step: real, bps: real, tick: real)

  predicate UsableTerms(t: LegTerms) {
    t.step > 0.0 && t.tick > 0.0
  }

  function TermsOf(side: BookSide, instrument: InstrumentSpec, config: LegConfig): LegTerms {
    LegTerms(side, 1.0 - Over(config.competitorTakeBps, BPS_DENOMINATOR),
             instrument.quantityStep, config.adverseMoveBps, instrument.priceTick)
  }

  /** What competitors leave of a level, floored to the quantity step. */
  function Available(quantity: real, takeRate: real, step: real): real
    requires step > 0.0
  {
    Multiple(Over(Times(quantity, takeRate), step).Floor, step)
  }

  datatype LegTotals = LegTotals(remaining: real, filled: real, quote: real, lastRaw: real, lastFill: real)

  /** Where the matching loop ends when it starts with these running totals. */
  function MatchLevels(levels: seq<Level>, t: LegTerms, acc: LegTotals): Result<LegTotals, LegError>
    requires UsableTerms(t)
  {
    if levels == [] || acc.remaining == 0.0 then Ok(acc)
    else
      var avail := Available(levels[0].quantity, t.takeRate, t.step);
      if avail <= 0.0 then MatchLevels(levels[1..], t, acc)
      else
        match OffsetLevelPrice(levels[0].price, t.side, t.bps, t.tick)
        case Err(e) => Err(e)
        case Ok(price) => MatchLevels(levels[1..], t, Consume(acc, Min(acc.remaining, avail), levels[0].price, price))
  }

  function Consume(acc: LegTotals, take: real, raw: real, price: real): LegTotals {
    LegTotals(acc.remaining - take, acc.filled + take, acc.quote + Times(take, price), raw, price)
  }

  function Conclude(acc: LegTotals, minQuantity: real): SimLegResult {
    var below := acc.filled > 0.0 && acc.filled < minQuantity;
    var filled := if below then 0.0 else acc.filled;
    SimLegResult(filled, acc.quote, if filled > 0.0 then Over(acc.quote, filled) else 0.0,
                 acc.lastRaw, acc.lastFill, acc.remaining > 0.0 && acc.filled > 0.0, below)
  }

  function LegResult(side: BookSide, book: OrderBookSnapshot, instrument: InstrumentSpec, requested: real, config: LegConfig)
    : Result<SimLegResult, LegError>
    requires UsableFilters(instrument)
  {
    if requested <= 0.0 then Err(NonPositiveRequest)
    else
      match MatchLevels(LevelsOf(book, side), TermsOf(side, instrument, config), LegTotals(requested, 0.0, 0.0, 0.0, 0.0))
      case Err(e) => Err(e)
      case Ok(acc) => Ok(Conclude(acc, instrument.minQuantity))
  }

  lemma MatchStep(levels: seq<Level>, t: LegTerms, acc: LegTotals)
    requires UsableTerms(t) && levels != [] && acc.remaining != 0.0
    ensures var avail := Available(levels[0].quantity, t.takeRate, t.step);
            var price := OffsetLevelPrice(levels[0].price, t.side, t.bps, t.tick);
            MatchLevels(levels, t, acc) ==
            if avail <= 0.0 then MatchLevels(levels[1..], t, acc)
            else if price.Err? then Err(price.error)
            else MatchLevels(levels[1..], t, Consume(acc, Min(acc.remaining, avail), levels[0].price, price.value))
  {
    hide Times, Over, Multiple, Available, OffsetLevelPrice;
  }

  lemma ConsumeIs(acc: LegTotals, take: real, raw: real, price: real)
    ensures Consume(acc, take, raw, price) == LegTotals(acc.remaining - take, acc.filled + take, acc.quote + Times(take, price), raw, price)
  {
  }

  lemma MatchDone(levels: seq<Level>, t: LegTerms, acc: LegTotals)
    requires UsableTerms(t) && (levels == [] || acc.remaining == 0.0)
    ensures MatchLevels(levels, t, acc) == Ok(acc)
  {
  }

  /** The matching loop itself. */
  method MatchBook(levels: seq<Level>, t: LegTerms, requested: real) returns (r: Result<LegTotals, LegError>)
    requires UsableTerms(t)
    ensures r == MatchLevels(levels, t, LegTotals(requested, 0.0, 0.0, 0.0, 0.0))
  {
    hide Available, OffsetLevelPrice, MatchLevels, Consume, Times, Over, Multiple;
    var remaining, filled, quoteAmount := requested, 0.0, 0.0;
    var lastRawPrice, lastFillPrice := 0.0, 0.0;
    ghost var start := LegTotals(requested, 0.0, 0.0, 0.0, 0.0);
    ghost var acc := start;
    var i := 0;
    while i < |levels| && remaining != 0.0
      invariant i <= |levels|
      invariant acc == LegTotals(remaining, filled, quoteAmount, lastRawPrice, lastFillPrice)
      invariant MatchLevels(levels, t, start) == MatchLevels(levels[i..], t, acc)
    {
      var level := levels[i];
      MatchStep(levels[i..], t, acc);
      assert levels[i..][0] == level && levels[i..][1..] == levels[i + 1..];
      i := i + 1;
      var avail := Available(level.quantity, t.takeRate, t.step);
      if avail <= 0.0 {
        continue;
      }
      var fillPrice := OffsetLevelPrice(level.price, t.side, t.bps, t.tick);
      if fillPrice.Err? {
        return Err(fillPrice.error);
      }
      var take := Min(remaining, avail);
      ConsumeIs(acc, take, level.price, fillPrice.value);
      acc := Consume(acc, take, level.price, fillPrice.value);
      quoteAmount := quoteAmount + Times(take, fillPrice.value);
      filled := filled + take;
      remaining := remaining - take;
      lastRawPrice := level.price;
      lastFillPrice := fillPrice.value;
    }
    MatchDone(levels[i..], t, acc);
    return Ok(LegTotals(remaining, filled, quoteAmount, lastRawPrice, lastFillPrice));
  }

  method SimulateLeg(side: BookSide, book: OrderBookSnapshot, instrument: InstrumentSpec, requested: real, config: LegConfig)
    returns (r: Result<SimLegResult, LegError>)
    requires UsableFilters(instrument)
    ensures r == LegResult(side, book, instrument, requested, config)
  {
    hide Times, Over;
    if requested <= 0.0 {
      return Err(NonPositiveRequest);
    }
    var totals := MatchBook(LevelsOf(book, side), TermsOf(side, instrument, config), requested);
    match totals
    case Err(e) => return Err(e);
    case Ok(acc) =>
      var depthShortfall := acc.remaining > 0.0 && acc.filled > 0.0;
      var belowMinQuantity := acc.filled > 0.0 && acc.filled < instrument.minQuantity;
      var filled := if belowMinQuantity then 0.0 else acc.filled;
      var avgPrice := if filled > 0.0 then Over(acc.quote, filled) else 0.0;
      return Ok(SimLegResult(filled, acc.quote, avgPrice, acc.lastRaw, acc.lastFill, depthShortfall, belowMinQuantity));
  }

  // ---------------------------------------------------------------- what the loop takes

  /** The quantity the leg takes from each level. */
  function Taken(levels: seq<Level>, takeRate: real, step: real, remaining: real): (taken: seq<real>)
    requires step > 0.0
    ensures |taken| == |levels|
  {
    if levels == [] then []
    else
      var avail := Available(levels[0].quantity, takeRate, step);
      var take := if remaining == 0.0 || avail <= 0.0 then 0.0 else Min(remaining, avail);
      [take] + Taken(levels[1..], takeRate, step, remaining - take)
  }

  /** Everything the competitors leave on the book. */
  function TotalAvailable(levels: seq<Level>, takeRate: real, step: real): real
    requires step > 0.0
  {
    if levels == [] then 0.0
    else Available(levels[0].quantity, takeRate, step) + TotalAvailable(levels[1..], takeRate, step)
  }

  /** The price at which a level of the given raw price fills. */
  function FillPrice(price: real, t: LegTerms): real
    requires UsableTerms(t)
  {
    match OffsetLevelPrice(price, t.side, t.bps, t.tick)
    case Ok(p) => p
    case Err(_) => 0.0
  }

  function FillLevels(levels: seq<Level>, t: LegTerms): (r: seq<Level>)
    requires UsableTerms(t)
    ensures |r| == |levels|
  {
    if levels == [] then []
    else [Level(FillPrice(levels[0].price, t), levels[0].quantity)] + FillLevels(levels[1..], t)
  }

  predicate RateInRange(takeRate: real) {
    0.0 <= takeRate <= 1.0
  }

  lemma AvailableBounds(quantity: real, takeRate: real, step: real)
    requires quantity > 0.0 && RateInRange(takeRate) && step > 0.0
    ensures 0.0 <= Available(quantity, takeRate, step) <= quantity
    ensures OnGrid(Available(quantity, takeRate, step), step)
  {
    hide Times, Over, Multiple;
    var effective := Times(quantity, takeRate);
    TimesSign(quantity, takeRate);
    TimesSign(quantity, 1.0 - takeRate);
    TimesDistributes(quantity, 1.0, takeRate);
    TickBounds(effective, step);
    OverBounds(effective, step, 0.0);
    MultipleMonotone(0, Over(effective, step).Floor, step);
    MultipleAlgebra(0, 0, step);
  }

  lemma {:induction false} TotalAvailableNonNegative(levels: seq<Level>, takeRate: real, step: real)
    requires AllPositive(levels) && RateInRange(takeRate) && step > 0.0
    ensures TotalAvailable(levels, takeRate, step) >= 0.0
  {
    hide Available;
    if levels != [] {
      AvailableBounds(levels[0].quantity, takeRate, step);
      TotalAvailableNonNegative(levels[1..], takeRate, step);
    }
  }

  lemma {:induction false} TakenNothing(levels: seq<Level>, takeRate: real, step: real)
    requires AllPositive(levels) && step > 0.0
    ensures var taken := Taken(levels, takeRate, step, 0.0);
            Sum(taken) == 0.0 && Allocation(levels, taken) && forall i | 0 <= i < |levels| :: taken[i] == 0.0
  {
    hide Available;
    if levels != [] {
      var taken := Taken(levels, takeRate, step, 0.0);
      assert taken[1..] == Taken(levels[1..], takeRate, step, 0.0);
      TakenNothing(levels[1..], takeRate, step);
      forall i | 0 <= i < |levels| ensures taken[i] == 0.0 {
        if i > 0 { assert taken[i] == taken[1..][i - 1]; }
      }
    }
  }

  /** The leg takes an allocation of the book totalling the lesser of request and availability. */
  lemma {:induction false} TakenTotals(levels: seq<Level>, takeRate: real, step: real, remaining: real)
    requires AllPositive(levels) && RateInRange(takeRate) && step > 0.0 && remaining >= 0.0
    ensures var taken := Taken(levels, takeRate, step, remaining);
            && Allocation(levels, taken)
            && Sum(taken) == Min(remaining, TotalAvailable(levels, takeRate, step))
  {
    hide Available;
    if levels != [] {
      var avail := Available(levels[0].quantity, takeRate, step);
      AvailableBounds(levels[0].quantity, takeRate, step);
      TotalAvailableNonNegative(levels[1..], takeRate, step);
      var taken := Taken(levels, takeRate, step, remaining);
      assert taken[1..] == Taken(levels[1..], takeRate, step, remaining - taken[0]);
      TakenTotals(levels[1..], takeRate, step, remaining - taken[0]);
      forall i | 0 <= i < |levels| ensures 0.0 <= taken[i] <= levels[i].quantity {
        if i > 0 { assert taken[i] == taken[1..][i - 1] && levels[i] == levels[1..][i - 1]; }
      }
    }
  }

  lemma {:induction false} QuoteOfNothing(levels: seq<Level>, taken: seq<real>)
    requires |taken| == |levels| && forall i | 0 <= i < |taken| :: taken[i] == 0.0
    ensures QuoteOf(levels, taken) == 0.0
  {
    hide Times;
    if levels != [] {
      QuoteOfNothing(levels[1..], taken[1..]);
      TimesDistributes(levels[0].price, 0.0, 0.0);
    }
  }

  /** The loop's running totals are those of the allocation it takes, priced at the fill prices. */
  lemma {:induction false} MatchTotals(levels: seq<Level>, t: LegTerms, acc: LegTotals)
    requires AllPositive(levels) && UsableTerms(t) && RateInRange(t.takeRate) && acc.remaining >= 0.0
    ensures MatchLevels(levels, t, acc).Ok?
    ensures var taken := Taken(levels, t.takeRate, t.step, acc.remaining);
            var end := MatchLevels(levels, t, acc).value;
            && end.remaining == acc.remaining - Sum(taken)
            && end.filled == acc.filled + Sum(taken)
            && end.quote == acc.quote + QuoteOf(FillLevels(levels, t), taken)
  {
    hide Times, Over, Multiple;
    if acc.remaining == 0.0 || levels == [] {
      TakenNothing(levels, t.takeRate, t.step);
      QuoteOfNothing(FillLevels(levels, t), Taken(levels, t.takeRate, t.step, 0.0));
    } else {
      hide Available, OffsetLevelPrice, MatchLevels, Taken, FillLevels, QuoteOf, Sum, FillPrice;
      var taken := Taken(levels, t.takeRate, t.step, acc.remaining);
      var avail := Available(levels[0].quantity, t.takeRate, t.step);
      var price := FillPrice(levels[0].price, t);
      MatchStep(levels, t, acc);
      FillPriceOfPositive(levels[0].price, t);
      TakenStep(levels, t, acc.remaining);
      TimesDistributes(price, 0.0, 0.0);
      MatchTotals(levels[1..], t, if avail <= 0.0 then acc else Consume(acc, taken[0], levels[0].price, price));
    }
  }

  lemma FillPriceOfPositive(price: real, t: LegTerms)
    requires UsableTerms(t) && price > 0.0
    ensures OffsetLevelPrice(price, t.side, t.bps, t.tick) == Ok(FillPrice(price, t))
  {
    hide Times, Over, Multiple, AdversePrice;
  }

  lemma TakenStep(levels: seq<Level>, t: LegTerms, remaining: real)
    requires UsableTerms(t) && levels != [] && remaining > 0.0
    ensures var taken := Taken(levels, t.takeRate, t.step, remaining);
            var fills := FillLevels(levels, t);
            var avail := Available(levels[0].quantity, t.takeRate, t.step);
            && taken[0] == (if avail <= 0.0 then 0.0 else Min(remaining, avail))
            && taken[1..] == Taken(levels[1..], t.takeRate, t.step, remaining - taken[0])
            && Sum(taken) == taken[0] + Sum(taken[1..])
            && QuoteOf(fills, taken) == Times(taken[0], FillPrice(levels[0].price, t)) + QuoteOf(FillLevels(levels[1..], t), taken[1..])
  {
    hide Times, Over, Multiple, Available, FillPrice;
    assert FillLevels(levels, t)[1..] == FillLevels(levels[1..], t);
  }

  /** On a positive book a leg fills exactly the lesser of the request and the step-floored
      availability, or nothing when that is below the minimum; the money is what it took at the
      offset prices, whether or not the leg is flagged. */
  lemma LegFillsExactly(side: BookSide, book: OrderBookSnapshot, instrument: InstrumentSpec, requested: real, config: LegConfig)
    returns (taken: seq<real>)
    requires AllPositive(LevelsOf(book, side)) && UsableFilters(instrument) && ValidConfig(config) && requested > 0.0
    ensures var levels := LevelsOf(book, side);
            var t := TermsOf(side, instrument, config);
            var raw := Min(requested, TotalAvailable(levels, t.takeRate, t.step));
            && LegResult(side, book, instrument, requested, config).Ok?
            && taken == Taken(levels, t.takeRate, t.step, requested)
            && Allocation(levels, taken) && Sum(taken) == raw
            && var r := LegResult(side, book, instrument, requested, config).value;
               && r.belowMinQuantity == (0.0 < raw < instrument.minQuantity)
               && r.filled == (if 0.0 < raw < instrument.minQuantity then 0.0 else raw)
               && 0.0 <= r.filled <= requested
               && r.depthShortfall == (0.0 < raw < requested)
               && r.quoteAmount == QuoteOf(FillLevels(levels, t), taken)
               && (r.filled > 0.0 ==> Times(r.avgPrice, r.filled) == r.quoteAmount)
  {
    hide Available, OffsetLevelPrice, Conclude, Times, Over, Multiple;
    var levels := LevelsOf(book, side);
    var t := TermsOf(side, instrument, config);
    RateFromConfig(config);
    taken := Taken(levels, t.takeRate, t.step, requested);
    var start := LegTotals(requested, 0.0, 0.0, 0.0, 0.0);
    TakenTotals(levels, t.takeRate, t.step, requested);
    TotalAvailableNonNegative(levels, t.takeRate, t.step);
    MatchTotals(levels, t, start);
    ConcludeMeans(MatchLevels(levels, t, start).value, instrument.minQuantity);
  }

  lemma ConcludeMeans(acc: LegTotals, minQuantity: real)
    ensures var r := Conclude(acc, minQuantity);
            && r.belowMinQuantity == (0.0 < acc.filled < minQuantity)
            && r.filled == (if 0.0 < acc.filled < minQuantity then 0.0 else acc.filled)
            && r.depthShortfall == (acc.remaining > 0.0 && acc.filled > 0.0)
            && r.quoteAmount == acc.quote
            && (r.filled > 0.0 ==> Times(r.avgPrice, r.filled) == r.quoteAmount)
            && (r.filled <= 0.0 ==> r.avgPrice == 0.0)
  {
    hide Times, Over;
    if acc.filled > 0.0 { OverTimes(acc.quote, acc.filled); }
  }

  lemma RateFromConfig(config: LegConfig)
    requires ValidConfig(config)
    ensures RateInRange(1.0 - Over(config.competitorTakeBps, BPS_DENOMINATOR))
  {
    FractionOfBps(config.competitorTakeBps);
  }

  // ---------------------------------------------------------------- the leg against the sweep

  lemma {:induction false} FillQuoteIsWorse(levels: seq<Level>, t: LegTerms, taken: seq<real>)
    requires AllPositive(levels) && UsableTerms(t) && 0.0 <= t.bps <= BPS_DENOMINATOR && Allocation(levels, taken)
    ensures NoBetterThan(t.side, QuoteOf(FillLevels(levels, t), taken), QuoteOf(levels, taken))
  {
    hide FillPrice, AdversePrice, OffsetLevelPrice, Times, Over, Multiple;
    if levels != [] {
      assert FillLevels(levels, t)[1..] == FillLevels(levels[1..], t);
      FillQuoteIsWorse(levels[1..], t, taken[1..]);
      var price := FillPrice(levels[0].price, t);
      assert NoBetterThan(t.side, price, levels[0].price) by {
        FillPriceOfPositive(levels[0].price, t);
        OffsetIsNearestAdverseTick(levels[0].price, t.side, t.bps, t.tick, 0);
      }
      MulMonotone(t.side, taken[0], price, levels[0].price);
    }
  }

  /** A leg that fills never does better than the scanner's sweep for the same quantity: it
      pays at least the sweep's cost when buying and receives at most its proceeds when selling. */
  lemma LegNeverBeatsSweep(side: BookSide, book: OrderBookSnapshot, instrument: InstrumentSpec, requested: real, config: LegConfig)
    requires GoodSide(side, LevelsOf(book, side)) && UsableFilters(instrument) && ValidConfig(config) && requested > 0.0
    ensures LegResult(side, book, instrument, requested, config).Ok?
    ensures var r := LegResult(side, book, instrument, requested, config).value;
            r.filled > 0.0 ==>
              && SweepResult(LevelsOf(book, side), r.filled).Ok?
              && NoBetterThan(side, r.quoteAmount, SweepResult(LevelsOf(book, side), r.filled).value.quoteAmount)
  {
    hide TermsOf, SweepResult, LegResult, TotalAvailable, Times, Over, Multiple;
    var levels := LevelsOf(book, side);
    var t := TermsOf(side, instrument, config);
    assert UsableTerms(t) && t.side == side && 0.0 <= t.bps <= BPS_DENOMINATOR by {
      UsableTermsOf(side, instrument, config);
    }
    var taken := LegFillsExactly(side, book, instrument, requested, config);
    var r := LegResult(side, book, instrument, requested, config).value;
    if r.filled > 0.0 {
      FillQuoteIsWorse(levels, t, taken);
      AllocationWithinDepth(levels, taken);
      SweepIsOptimal(side, levels, r.filled);
    }
  }

  lemma UsableTermsOf(side: BookSide, instrument: InstrumentSpec, config: LegConfig)
    requires UsableFilters(instrument) && ValidConfig(config)
    ensures var t := TermsOf(side, instrument, config);
            && UsableTerms(t) && RateInRange(t.takeRate) && t.side == side && 0.0 <= t.bps <= BPS_DENOMINATOR
            && t.step == instrument.quantityStep && t.tick == instrument.priceTick && t.bps == config.adverseMoveBps
  {
  }

  lemma {:induction false} AllocationWithinDepth(levels: seq<Level>, taken: seq<real>)
    requires Allocation(levels, taken)
    ensures Sum(taken) <= Depth(levels)
  {
    if levels != [] {
      AllocationWithinDepth(levels[1..], taken[1..]);
    }
  }

  // ---------------------------------------------------------------- monotonicity and grids

  lemma {:induction false} AvailabilityShrinks(levels: seq<Level>, lower: real, higher: real, step: real)
    requires AllPositive(levels) && step > 0.0 && lower <= higher
    ensures TotalAvailable(levels, lower, step) <= TotalAvailable(levels, higher, step)
  {
    hide Available;
    if levels != [] {
      AvailabilityShrinks(levels[1..], lower, higher, step);
      AvailableMonotone(levels[0].quantity, lower, higher, step);
    }
  }

  lemma AvailableMonotone(quantity: real, lower: real, higher: real, step: real)
    requires quantity > 0.0 && step > 0.0 && lower <= higher
    ensures Available(quantity, lower, step) <= Available(quantity, higher, step)
  {
    hide Times, Over, Multiple;
    var x, y := Times(quantity, lower), Times(quantity, higher);
    TimesSign(quantity, higher - lower);
    TimesDistributes(quantity, higher, lower);
    OverTimes(y, step);
    OverBounds(x, step, Over(y, step));
    MultipleMonotone(Over(x, step).Floor, Over(y, step).Floor, step);
  }

  /** More competition never increases a fill. */
  lemma FillShrinksWithCompetition(side: BookSide, book: OrderBookSnapshot, instrument: InstrumentSpec, requested: real,
                                   config: LegConfig, harsher: LegConfig)
    requires AllPositive(LevelsOf(book, side)) && UsableFilters(instrument) && requested > 0.0
    requires ValidConfig(config) && ValidConfig(harsher) && config.competitorTakeBps <= harsher.competitorTakeBps
    ensures LegResult(side, book, instrument, requested, config).Ok? && LegResult(side, book, instrument, requested, harsher).Ok?
    ensures LegResult(side, book, instrument, requested, harsher).value.filled
         <= LegResult(side, book, instrument, requested, config).value.filled
  {
    hide LegResult, TotalAvailable, Times, Multiple, Available;
    var t1, t2 := TermsOf(side, instrument, config), TermsOf(side, instrument, harsher);
    var _ := LegFillsExactly(side, book, instrument, requested, config);
    var _ := LegFillsExactly(side, book, instrument, requested, harsher);
    AvailabilityShrinks(LevelsOf(book, side), t2.takeRate, t1.takeRate, instrument.quantityStep);
  }

  lemma {:induction false} AvailabilityOnGrid(levels: seq<Level>, takeRate: real, step: real) returns (n: int)
    requires step > 0.0
    ensures TotalAvailable(levels, takeRate, step) == Multiple(n, step)
  {
    hide Times, Over, Multiple;
    if levels == [] {
      n := 0;
      MultipleAlgebra(0, 0, step);
    } else {
      var m := AvailabilityOnGrid(levels[1..], takeRate, step);
      var k := Over(Times(levels[0].quantity, takeRate), step).Floor;
      n := k + m;
      MultipleAlgebra(k, m, step);
    }
  }

  /** A request on the step grid fills on the step grid. */
  lemma FillStaysOnGrid(side: BookSide, book: OrderBookSnapshot, instrument: InstrumentSpec, requested: real, config: LegConfig)
    requires AllPositive(LevelsOf(book, side)) && UsableFilters(instrument) && ValidConfig(config) && requested > 0.0
    requires OnGrid(requested, instrument.quantityStep)
    ensures LegResult(side, book, instrument, requested, config).Ok?
    ensures OnGrid(LegResult(side, book, instrument, requested, config).value.filled, instrument.quantityStep)
  {
    hide LegResult, TotalAvailable, Times, Over, Multiple, Available;
    var _ := LegFillsExactly(side, book, instrument, requested, config);
    var n := AvailabilityOnGrid(LevelsOf(book, side), TermsOf(side, instrument, config).takeRate, instrument.quantityStep);
    MultipleAlgebra(0, 0, instrument.quantityStep);
  }

  // ---------------------------------------------------------------- last price, vanishing price

  /** Level `k` is the last one of which something was taken, and `end` reports its prices; when
      `k` is past the levels, nothing was taken and `end` reports the prices of `acc`. */
  predicate EndsAt(levels: seq<Level>, t: LegTerms, taken: seq<real>, acc: LegTotals, end: LegTotals, k: nat)
    requires UsableTerms(t) && |taken| == |levels|
  {
    && k <= |levels|
    && (forall i | k < i < |levels| :: taken[i] == 0.0)
    && (k < |levels| ==> taken[k] > 0.0 && end.lastRaw == levels[k].price && end.lastFill == FillPrice(levels[k].price, t))
    && (k == |levels| ==> (forall i | 0 <= i < k :: taken[i] == 0.0) && end.lastRaw == acc.lastRaw && end.lastFill == acc.lastFill)
  }

  lemma EndsAtStep(levels: seq<Level>, t: LegTerms, taken: seq<real>, acc: LegTotals, acc': LegTotals, end: LegTotals, k': nat)
    requires UsableTerms(t) && |taken| == |levels| && levels != [] && EndsAt(levels[1..], t, taken[1..], acc', end, k')
    requires taken[0] == 0.0 ==> (acc'.lastRaw, acc'.lastFill) == (acc.lastRaw, acc.lastFill)
    requires taken[0] != 0.0 ==> taken[0] > 0.0 && (acc'.lastRaw, acc'.lastFill) == (levels[0].price, FillPrice(levels[0].price, t))
    ensures EndsAt(levels, t, taken, acc, end, if k' == |levels| - 1 && taken[0] != 0.0 then 0 else k' + 1)
  {
    hide FillPrice;
    forall i | 0 < i < |levels| ensures taken[i] == taken[1..][i - 1] {}
  }

  /** The reported last prices are those of the last level the leg consumed. */
  lemma {:induction false} LastPricesAreLastConsumed(levels: seq<Level>, t: LegTerms, acc: LegTotals) returns (k: nat)
    requires AllPositive(levels) && UsableTerms(t) && RateInRange(t.takeRate) && acc.remaining >= 0.0
    ensures MatchLevels(levels, t, acc).Ok?
    ensures EndsAt(levels, t, Taken(levels, t.takeRate, t.step, acc.remaining), acc, MatchLevels(levels, t, acc).value, k)
  {
    hide Available, OffsetLevelPrice, FillPrice, Multiple, Times, Over;
    var taken := Taken(levels, t.takeRate, t.step, acc.remaining);
    if levels == [] || acc.remaining == 0.0 {
      TakenNothing(levels, t.takeRate, t.step);
      k := |levels|;
    } else {
      var avail := Available(levels[0].quantity, t.takeRate, t.step);
      var price := FillPrice(levels[0].price, t);
      MatchStep(levels, t, acc);
      FillPriceOfPositive(levels[0].price, t);
      TakenStep(levels, t, acc.remaining);
      hide EndsAt, Taken, MatchLevels;
      var acc' := if avail <= 0.0 then acc else Consume(acc, taken[0], levels[0].price, price);
      var k' := LastPricesAreLastConsumed(levels[1..], t, acc');
      EndsAtStep(levels, t, taken, acc, acc', MatchLevels(levels, t, acc).value, k');
      k := if k' == |levels| - 1 && taken[0] != 0.0 then 0 else k' + 1;
    }
  }

  /** The first level of which the competitors leave anything, or the number of levels. */
  function FirstOffered(levels: seq<Level>, takeRate: real, step: real): (k: nat)
    requires step > 0.0
    ensures k <= |levels|
    ensures forall i | 0 <= i < k :: Available(levels[i].quantity, takeRate, step) <= 0.0
    ensures k < |levels| ==> Available(levels[k].quantity, takeRate, step) > 0.0
  {
    if levels == [] || Available(levels[0].quantity, takeRate, step) > 0.0 then 0
    else 1 + FirstOffered(levels[1..], takeRate, step)
  }

  lemma {:induction false} TakenFromFirstOffered(levels: seq<Level>, takeRate: real, step: real, remaining: real)
    requires AllPositive(levels) && step > 0.0 && RateInRange(takeRate) && remaining > 0.0
    ensures var taken := Taken(levels, takeRate, step, remaining);
            var k := FirstOffered(levels, takeRate, step);
            && (k < |levels| ==> taken[k] > 0.0)
            && forall i | 0 <= i < k :: taken[i] == 0.0
  {
    hide Available;
    if levels != [] {
      var taken := Taken(levels, takeRate, step, remaining);
      assert taken[1..] == Taken(levels[1..], takeRate, step, remaining - taken[0]);
      if Available(levels[0].quantity, takeRate, step) <= 0.0 {
        TakenFromFirstOffered(levels[1..], takeRate, step, remaining);
        forall i | 0 < i < |levels| ensures taken[i] == taken[1..][i - 1] {}
      }
    }
  }

  lemma FillPriceSign(price: real, t: LegTerms)
    requires price > 0.0 && UsableTerms(t) && 0.0 <= t.bps <= BPS_DENOMINATOR
    ensures FillPrice(price, t) >= 0.0
    ensures FillPrice(price, t) > 0.0 <==> t.side == Asks || AdversePrice(price, t.side, t.bps) >= t.tick
  {
    hide AdversePrice, Times, Over, Multiple;
    OffsetIsNearestAdverseTick(price, t.side, t.bps, t.tick, 1);
    MultipleAlgebra(0, 0, t.tick);
    FillPriceOfPositive(price, t);
    var n: int :| FillPrice(price, t) == Multiple(n, t.tick);
    if n <= 0 { MultipleMonotone(n, 0, t.tick); } else { MultipleMonotone(1, n, t.tick); }
  }

  lemma AdverseMonotone(p: real, q: real, bps: real)
    requires 0.0 < p <= q && 0.0 <= bps <= BPS_DENOMINATOR
    ensures AdversePrice(p, Bids, bps) <= AdversePrice(q, Bids, bps)
  {
    hide Times, Over;
    var f := 1.0 - Over(bps, BPS_DENOMINATOR);
    FractionOfBps(bps);
    TimesSign(q - p, f);
    TimesDistributes(f, q, p);
  }

  lemma {:induction false} QuoteSign(levels: seq<Level>, taken: seq<real>, k: nat)
    requires |taken| == |levels| && forall i | 0 <= i < |levels| :: taken[i] >= 0.0 && levels[i].price >= 0.0
    ensures QuoteOf(levels, taken) >= 0.0
    ensures k < |levels| && taken[k] > 0.0 && levels[k].price > 0.0 ==> QuoteOf(levels, taken) > 0.0
    ensures (forall i | 0 <= i < |levels| :: taken[i] == 0.0 || levels[i].price == 0.0) ==> QuoteOf(levels, taken) == 0.0
  {
    hide Times;
    if levels != [] {
      TimesDistributes(taken[0], 0.0, 0.0);
      TimesDistributes(levels[0].price, 0.0, 0.0);
      QuoteSign(levels[1..], taken[1..], if k > 0 then k - 1 else 0);
      TimesSign(taken[0], levels[0].price);
      if k > 0 && k < |levels| {
        assert taken[1..][k - 1] == taken[k] && levels[1..][k - 1] == levels[k];
      }
      if forall i | 0 <= i < |levels| :: taken[i] == 0.0 || levels[i].price == 0.0 {
        forall i | 0 <= i < |levels[1..]| ensures taken[1..][i] == 0.0 || levels[1..][i].price == 0.0 {
          assert taken[1..][i] == taken[i + 1] && levels[1..][i] == levels[i + 1];
        }
      }
    }
  }

  lemma {:induction false} FillLevelAt(levels: seq<Level>, t: LegTerms, i: nat)
    requires UsableTerms(t) && i < |levels|
    ensures FillLevels(levels, t)[i] == Level(FillPrice(levels[i].price, t), levels[i].quantity)
  {
    if i > 0 { FillLevelAt(levels[1..], t, i - 1); }
  }

  /** A filled leg has a positive average price, except exactly when it sells and already the
      best level it can reach rounds down to zero ticks. */
  lemma AveragePriceVanishes(side: BookSide, book: OrderBookSnapshot, instrument: InstrumentSpec, requested: real, config: LegConfig)
    requires GoodSide(side, LevelsOf(book, side)) && UsableFilters(instrument) && ValidConfig(config) && requested > 0.0
    ensures LegResult(side, book, instrument, requested, config).Ok?
    ensures var r := LegResult(side, book, instrument, requested, config).value;
            var levels := LevelsOf(book, side);
            var k := FirstOffered(levels, TermsOf(side, instrument, config).takeRate, instrument.quantityStep);
            r.filled > 0.0 ==>
              && k < |levels|
              && (r.avgPrice > 0.0 <==> side == Asks || AdversePrice(levels[k].price, Bids, config.adverseMoveBps) >= instrument.priceTick)
  {
    hide LegResult, TotalAvailable, FillPrice, AdversePrice, Available, TermsOf, Times, Over, Multiple;
    var levels := LevelsOf(book, side);
    var t := TermsOf(side, instrument, config);
    UsableTermsOf(side, instrument, config);
    var taken := LegFillsExactly(side, book, instrument, requested, config);
    var r := LegResult(side, book, instrument, requested, config).value;
    if r.filled > 0.0 {
      var k := FirstOffered(levels, t.takeRate, t.step);
      OfferedQuote(levels, t, requested);
      assert taken == Taken(levels, t.takeRate, t.step, requested);
      AverageSign(r.quoteAmount, r.filled, r.avgPrice);
    }
  }

  lemma AverageSign(quote: real, filled: real, avg: real)
    requires filled > 0.0 && Times(avg, filled) == quote
    ensures avg > 0.0 <==> quote > 0.0
  {
    hide Times;
    TimesSign(avg, filled);
    TimesSign(filled, avg);
  }

  lemma LaterFillVanishes(levels: seq<Level>, t: LegTerms, k: nat, i: nat)
    requires GoodSide(t.side, levels) && UsableTerms(t) && 0.0 <= t.bps <= BPS_DENOMINATOR && k < i < |levels|
    ensures FillPrice(levels[k].price, t) == 0.0 ==> FillPrice(levels[i].price, t) == 0.0
  {
    hide FillPrice, AdversePrice;
    FillPriceSign(levels[k].price, t);
    FillPriceSign(levels[i].price, t);
    assert Better(t.side, levels[k].price, levels[i].price);
    if t.side == Bids {
      AdverseMonotone(levels[i].price, levels[k].price, t.bps);
    }
  }

  lemma OfferedQuote(levels: seq<Level>, t: LegTerms, requested: real)
    requires GoodSide(t.side, levels) && UsableTerms(t) && RateInRange(t.takeRate) && 0.0 <= t.bps <= BPS_DENOMINATOR
    requires requested > 0.0
    ensures var taken := Taken(levels, t.takeRate, t.step, requested);
            var k := FirstOffered(levels, t.takeRate, t.step);
            && (k == |levels| ==> Sum(taken) == 0.0)
            && (k < |levels| ==>
                  var paid := QuoteOf(FillLevels(levels, t), taken) > 0.0;
                  paid <==> t.side == Asks || AdversePrice(levels[k].price, t.side, t.bps) >= t.tick)
  {
    hide FillPrice, AdversePrice, Available, Times, Over, Multiple, Taken, FillLevels, QuoteOf, Sum, FirstOffered;
    var taken := Taken(levels, t.takeRate, t.step, requested);
    var fills := FillLevels(levels, t);
    var k := FirstOffered(levels, t.takeRate, t.step);
    TakenFromFirstOffered(levels, t.takeRate, t.step, requested);
    TakenTotals(levels, t.takeRate, t.step, requested);
    forall i | 0 <= i < |levels|
      ensures fills[i].price == FillPrice(levels[i].price, t) >= 0.0
      ensures k < i && FillPrice(levels[k].price, t) == 0.0 ==> fills[i].price == 0.0
    {
      FillLevelAt(levels, t, i);
      FillPriceSign(levels[i].price, t);
      if k < i {
        LaterFillVanishes(levels, t, k, i);
      }
    }
    QuoteSign(fills, taken, k);
    if k < |levels| {
      FillPriceSign(levels[k].price, t);
    } else {
      SumOfZeros(taken);
    }
  }

  lemma {:induction false} SumOfZeros(xs: seq<real>)
    requires forall i | 0 <= i < |xs| :: xs[i] == 0.0
    ensures Sum(xs) == 0.0
  {
    if xs != [] { SumOfZeros(xs[1..]); }
  }
}
