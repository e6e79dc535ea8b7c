/** What a simulated run does after its reservation: submission, matching, booking and evaluation
    across the order and execution cores (crates/core/src/simulation.rs). */
module RunTrading {
  import opened Common
  import opened Text
  import opened Market
  import opened SimulatedOrders
  import opened SimulateLeg
  import Instrument
  import Scan
  import SimRng
  import OrderModel
  import OrderHistory
  import OrderCore
  import Execution

  datatype RunConfig = RunConfig(
    leg: LegConfig,
    submit: SubmitConfig,
    decisionToSubmitMsMin: nat,
    decisionToSubmitMsMax: nat,
    fillLatencyMsMin: nat,
    fillLatencyMsMax: nat,
    initialQuoteBalance: real,
    initialBaseBalance: real,
    maxUnmatchedExposure: real,
    compensationBudget: real,
    compensationMarkupBps: real,
    seed: nat)

  /** What configuration validation demands. */
  predicate ValidRunConfig(c: RunConfig) {
    && ValidConfig(c.leg) && ValidProbabilities(c.submit)
    && c.decisionToSubmitMsMin <= c.decisionToSubmitMsMax < U64_RANGE
    && c.fillLatencyMsMin <= c.fillLatencyMsMax < U64_RANGE
    && c.initialQuoteBalance > 0.0 && c.initialBaseBalance > 0.0
    && c.maxUnmatchedExposure >= 0.0 && c.compensationBudget >= 0.0
    && 0.0 <= c.compensationMarkupBps <= BPS_DENOMINATOR
    && c.seed < U64_RANGE
  }

  /** The identifiers of one run. */
  datatype Names = Names(runId: string, account: string, instrument: string, tag: string) {
    function Plan(): string { runId + "-plan-" + tag }
    function BuyIntent(): string { runId + "-intent-buy" }
    function SellIntent(): string { runId + "-intent-sell" }
  }

  datatype TradeError = OrderFault(order: SimulatedOrders.LegError) | ExecutionFault(execution: Execution.ExecutionError)

  /** What happened to the two legs: confirmations, simulated fills and booked fees. */
  datatype Legs = Legs(
    buyOutcome: Confirmation,
    sellOutcome: Confirmation,
    unknownTried: bool,
    queryFound: bool,
    buy: SimLegResult,
    sell: SimLegResult,
    buyFee: real,
    sellFee: real)

  datatype Trading = Trading(legs: Legs, evaluation: Execution.Outcome)

  // ---------------------------------------------------------------- the run's terms

  /** The sell leg's average price rounds to nothing: already the best level it can reach is
      worth less than one tick after the adverse move. */
  predicate SellPriceVanishes(d: Scan.Direction, leg: LegConfig)
    requires Instrument.UsableFilters(d.sellInstrument)
  {
    var levels := d.sellBook.bids;
    var k := FirstOffered(levels, TermsOf(Bids, d.sellInstrument, leg).takeRate, d.sellInstrument.quantityStep);
    k < |levels| && AdversePrice(levels[k].price, Bids, leg.adverseMoveBps) < d.sellInstrument.priceTick
  }

  function SaturatingAdd(a: nat, b: nat): nat {
    if a + b < U64_RANGE then a + b else U64_RANGE - 1
  }

  function CompensationCost(o: Scan.Opportunity, markupBps: real): real {
    Times(Over(o.buyWorstPrice + o.sellWorstPrice, 2.0), 1.0 + Over(markupBps, BPS_DENOMINATOR))
  }

  lemma CompensationCostNonNegative(o: Scan.Opportunity, markupBps: real)
    requires o.buyWorstPrice > 0.0 && o.sellWorstPrice > 0.0 && markupBps >= 0.0
    ensures CompensationCost(o, markupBps) >= 0.0
  {
    hide Times, Over;
    OverBounds(o.buyWorstPrice + o.sellWorstPrice, 2.0, 0.0);
    OverBounds(markupBps, BPS_DENOMINATOR, 0.0);
    TimesSign(Over(o.buyWorstPrice + o.sellWorstPrice, 2.0), 1.0 + Over(markupBps, BPS_DENOMINATOR));
  }

  /** Names that extend one valid name by other tails are valid as well. */
  lemma SiblingName(stem: string, known: string, tail: string)
    requires ValidId(stem + known) && stem != [] && tail != [] && !IsSpace(tail[|tail| - 1]) && NUL !in tail
    ensures ValidId(stem + tail)
  {
    hide Trim;
    ValidIdMeans(stem + known);
    ValidIdMeans(stem + tail);
    assert (stem + known)[0] == stem[0] == (stem + tail)[0];
    assert (stem + tail)[|stem + tail| - 1] == tail[|tail| - 1];
    assert forall c | c in stem :: c in stem + known;
  }

  lemma LegNames(names: Names, leg: string)
    requires ValidId(names.Plan()) && names.runId != [] && (leg == "buy" || leg == "sell")
    ensures ValidId(ExchangeId(names.runId, leg)) && ValidId(QueryId(names.runId, leg)) && ValidId(TradeId(names.runId, leg))
  {
    hide ValidId;
    assert names.Plan() == names.runId + ("-plan-" + names.tag);
    assert ExchangeId(names.runId, leg) == names.runId + ("-" + leg + "-exc");
    assert QueryId(names.runId, leg) == names.runId + ("-" + leg + "-query");
    assert TradeId(names.runId, leg) == names.runId + ("-" + leg + "-trade");
    SiblingName(names.runId, "-plan-" + names.tag, "-" + leg + "-exc");
    SiblingName(names.runId, "-plan-" + names.tag, "-" + leg + "-query");
    SiblingName(names.runId, "-plan-" + names.tag, "-" + leg + "-trade");
  }

  // ---------------------------------------------------------------- both legs against the books

  /** Both legs succeed on books and filters the scanner accepted; neither exceeds the target;
      only the sell side's average price can vanish, and exactly when stated. */
  lemma LegsOfRun(d: Scan.Direction, target: real, leg: LegConfig)
    requires Scan.GoodDirection(d) && ValidConfig(leg) && target > 0.0
    ensures LegResult(Asks, d.buyBook, d.buyInstrument, target, leg).Ok?
    ensures LegResult(Bids, d.sellBook, d.sellInstrument, target, leg).Ok?
    ensures var buy := LegResult(Asks, d.buyBook, d.buyInstrument, target, leg).value;
            var sell := LegResult(Bids, d.sellBook, d.sellInstrument, target, leg).value;
            && 0.0 <= buy.filled <= target && buy.quoteAmount >= 0.0
            && 0.0 <= sell.filled <= target && sell.quoteAmount >= 0.0
            && (buy.filled > 0.0 ==> buy.avgPrice > 0.0) && buy.avgPrice >= 0.0 && sell.avgPrice >= 0.0
            && (sell.filled > 0.0 ==> (sell.avgPrice > 0.0 <==> !SellPriceVanishes(d, leg)))
  {
    hide LegResult, TotalAvailable, AdversePrice, TermsOf, Times, Over;
    var takenBuy := LegFillsExactly(Asks, d.buyBook, d.buyInstrument, target, leg);
    var takenSell := LegFillsExactly(Bids, d.sellBook, d.sellInstrument, target, leg);
    AveragePriceVanishes(Asks, d.buyBook, d.buyInstrument, target, leg);
    AveragePriceVanishes(Bids, d.sellBook, d.sellInstrument, target, leg);
    FilledQuoteNonNegative(Asks, d.buyBook, d.buyInstrument, leg, takenBuy);
    FilledQuoteNonNegative(Bids, d.sellBook, d.sellInstrument, leg, takenSell);
    AverageNonNegative(Asks, d.buyBook, d.buyInstrument, target, leg);
    AverageNonNegative(Bids, d.sellBook, d.sellInstrument, target, leg);
  }

  lemma AverageNonNegative(side: BookSide, book: OrderBookSnapshot, instrument: Instrument.InstrumentSpec, target: real, leg: LegConfig)
    requires Instrument.UsableFilters(instrument) && LegResult(side, book, instrument, target, leg).Ok?
    requires LegResult(side, book, instrument, target, leg).value.quoteAmount >= 0.0
    ensures LegResult(side, book, instrument, target, leg).value.avgPrice >= 0.0
  {
    hide MatchLevels, TermsOf, Times, Over;
    var r := LegResult(side, book, instrument, target, leg).value;
    if r.filled > 0.0 {
      OverBounds(r.quoteAmount, r.filled, 0.0);
    }
  }

  lemma FilledQuoteNonNegative(side: BookSide, book: OrderBookSnapshot, instrument: Instrument.InstrumentSpec, leg: LegConfig, taken: seq<real>)
    requires AllPositive(LevelsOf(book, side)) && Instrument.UsableFilters(instrument) && ValidConfig(leg)
    requires Allocation(LevelsOf(book, side), taken)
    ensures UsableTerms(TermsOf(side, instrument, leg))
    ensures QuoteOf(FillLevels(LevelsOf(book, side), TermsOf(side, instrument, leg)), taken) >= 0.0
  {
    hide TermsOf, FillPrice, Times, Over, QuoteOf;
    var levels := LevelsOf(book, side);
    var t := TermsOf(side, instrument, leg);
    UsableTermsOf(side, instrument, leg);
    forall i | 0 <= i < |levels| ensures FillLevels(levels, t)[i].price >= 0.0 {
      FillLevelAt(levels, t, i);
      FillPriceSign(levels[i].price, t);
    }
    QuoteSign(FillLevels(levels, t), taken, 0);
  }

  // ---------------------------------------------------------------- after the reservation

  /** An order row has its leg's fill exactly when that order was accepted, and no conflict. */
  predicate OrdersAgree(facts: map<string, OrderModel.OrderFact>, names: Names, l: Legs) {
    && names.BuyIntent() in facts && names.SellIntent() in facts
    && var b, s := facts[names.BuyIntent()], facts[names.SellIntent()];
       && (b.submission == OrderModel.Accepted <==> l.buyOutcome.AcceptedAs?)
       && (s.submission == OrderModel.Accepted <==> l.sellOutcome.AcceptedAs?)
       && b.filledQuantity == (if l.buyOutcome.AcceptedAs? then l.buy.filled else 0.0)
       && s.filledQuantity == (if l.sellOutcome.AcceptedAs? then l.sell.filled else 0.0)
       && b.reconciliation != OrderModel.Conflict && s.reconciliation != OrderModel.Conflict
  }

  /** The execution row has the fills of both legs, within its target. */
  predicate ExecutionAgrees(facts: map<string, Execution.Fact>, names: Names, t: Trading) {
    && names.Plan() in facts
    && var e := facts[names.Plan()];
       && e == t.evaluation.snapshot
       && e.legAFilled == t.legs.buy.filled <= e.targetQuantity
       && e.legBFilled == t.legs.sell.filled <= e.targetQuantity
  }

  /** The evaluation's decision: over-fill plays no part in it. */
  predicate EscalationExplained(t: Trading, o: Scan.Opportunity, c: RunConfig) {
    var mismatch := Abs(t.legs.buy.filled - t.legs.sell.filled);
    && (t.evaluation.decision == Execution.NoAction <==> mismatch == 0.0)
    && (t.evaluation.decision == Execution.Escalate <==>
          && mismatch != 0.0
          && (Times(mismatch, o.sellWorstPrice) > c.maxUnmatchedExposure
              || Times(mismatch, CompensationCost(o, c.compensationMarkupBps)) > c.compensationBudget))
    && t.evaluation.snapshot.unmatchedQuantity == mismatch
    && t.evaluation.snapshot.unmatchedExposure == Times(mismatch, o.sellWorstPrice)
    && t.evaluation.estimatedCost == Times(mismatch, CompensationCost(o, c.compensationMarkupBps))
  }

  /** Fills come from matching the target on both books; fees are charged on what was booked. */
  predicate LegsMatched(l: Legs, d: Scan.Direction, target: real, leg: LegConfig) {
    && Scan.GoodDirection(d)
    && LegResult(Asks, d.buyBook, d.buyInstrument, target, leg) == Ok(l.buy)
    && LegResult(Bids, d.sellBook, d.sellInstrument, target, leg) == Ok(l.sell)
    && l.buyFee == BookedFee(l.buyOutcome, l.buy, d.buyFeeRate) && l.sellFee == BookedFee(l.sellOutcome, l.sell, d.sellFeeRate)
    && (l.sellOutcome.AcceptedAs? && l.sell.filled > 0.0 ==> !SellPriceVanishes(d, leg))
  }

  /** The confirmations are those the seeded rolls decide, and the flags report them. */
  predicate RolledAs(l: Legs, names: Names, rolls: (Rolls, Rolls)) {
    && l.buyOutcome == rolls.0.Outcome(ExchangeId(names.runId, "buy"))
    && l.sellOutcome == rolls.1.Outcome(ExchangeId(names.runId, "sell"))
    && l.unknownTried == (rolls.0.unknown || rolls.1.unknown)
    && l.queryFound == (rolls.0.found || rolls.1.found)
  }

  method InitializeExecution(execution: Execution.ExecutionCore, plans: map<string, (string, string)>, planId: string, target: real, c: RunConfig)
    returns (r: Result<Execution.Fact, Execution.ExecutionError>)
    requires execution.Valid() && ValidId(planId) && target > 0.0 && ValidRunConfig(c)
    requires planId in plans && plans[planId] == execution.domain && planId !in execution.facts
    modifies execution
    ensures execution.Valid() && r.Ok?
    ensures execution.facts == old(execution.facts)[planId := Execution.NewFact(target, c.maxUnmatchedExposure, c.compensationBudget)]
  {
    hide ValidId;
    r := execution.InitializePlan(plans, planId, target, c.maxUnmatchedExposure, c.compensationBudget);
  }

  /** Evaluates a freshly initialised plan. No guard can refuse, and the fills are within target. */
  method EvaluateFresh(execution: Execution.ExecutionCore, planId: string, target: real, buy: real, sell: real, o: Scan.Opportunity, c: RunConfig)
    returns (outcome: Execution.Outcome)
    requires execution.Valid() && ValidId(planId) && ValidRunConfig(c)
    requires planId in execution.facts
    requires execution.facts[planId] == Execution.NewFact(target, c.maxUnmatchedExposure, c.compensationBudget)
    requires 0.0 <= buy <= target && 0.0 <= sell <= target && o.buyWorstPrice > 0.0 && o.sellWorstPrice > 0.0
    modifies execution
    ensures execution.Valid() && execution.facts == old(execution.facts)[planId := outcome.snapshot]
    ensures outcome.snapshot.targetQuantity == target
    ensures outcome.snapshot.legAFilled == buy && outcome.snapshot.legBFilled == sell
    ensures var mismatch := Abs(buy - sell);
            && (outcome.decision == Execution.NoAction <==> mismatch == 0.0)
            && (outcome.decision == Execution.Escalate <==>
                  && mismatch != 0.0
                  && (Times(mismatch, o.sellWorstPrice) > c.maxUnmatchedExposure
                      || Times(mismatch, CompensationCost(o, c.compensationMarkupBps)) > c.compensationBudget))
            && outcome.snapshot.unmatchedQuantity == mismatch
            && outcome.snapshot.unmatchedExposure == Times(mismatch, o.sellWorstPrice)
            && outcome.estimatedCost == Times(mismatch, CompensationCost(o, c.compensationMarkupBps))
  {
    hide ValidId, Times, CompensationCost, Execution.Evaluated, Execution.Decide, Execution.Consistent;
    CompensationCostNonNegative(o, c.compensationMarkupBps);
    var cost := CompensationCost(o, c.compensationMarkupBps);
    FreshEvaluation(target, c.maxUnmatchedExposure, c.compensationBudget, Execution.Fills(buy, sell, o.sellWorstPrice, cost));
    var r := execution.Evaluate(planId, buy, sell, o.sellWorstPrice, cost);
    outcome := r.value;
  }

  lemma FreshEvaluation(target: real, exposure: real, budget: real, f: Execution.Fills)
    requires Execution.GoodFills(f) && f.legA <= target && f.legB <= target
    ensures var fact := Execution.NewFact(target, exposure, budget);
            var e := Execution.Evaluated(fact, f);
            var mismatch := Abs(f.legA - f.legB);
            && e.Ok? && e.value.0.targetQuantity == target && e.value.0.legAFilled == f.legA && e.value.0.legBFilled == f.legB
            && (Execution.Decide(fact, f) == Execution.NoAction <==> mismatch == 0.0)
            && (Execution.Decide(fact, f) == Execution.Escalate <==>
                  mismatch != 0.0 && (Times(mismatch, f.exposurePerUnit) > exposure || Times(mismatch, f.costPerUnit) > budget))
            && e.value.0.unmatchedQuantity == mismatch && e.value.0.unmatchedExposure == Times(mismatch, f.exposurePerUnit)
            && e.value.1.estimatedCost == Times(mismatch, f.costPerUnit)
  {
    hide Times;
  }

  /** Two distinct, valid, freshly reserved intents of the order core's domain. */
  predicate FreshIntents(order: OrderCore.OrderCore, intents: map<string, OrderModel.IntentRow>, names: Names)
    reads order
  {
    && ValidId(names.Plan()) && ValidId(names.BuyIntent()) && ValidId(names.SellIntent())
    && names.runId != [] && names.BuyIntent() != names.SellIntent()
    && names.BuyIntent() in intents && names.SellIntent() in intents
    && names.BuyIntent() !in order.facts && names.SellIntent() !in order.facts
    && intents[names.BuyIntent()].domain == order.domain && intents[names.SellIntent()].domain == order.domain
    && intents[names.BuyIntent()].quantity > 0.0 && intents[names.SellIntent()].quantity > 0.0
  }

  /** Why a run may still fail after its reservation: an identifier or number the store refuses,
      or a sell price that rounded to nothing. Never a guard on the state of a row. */
  predicate StoreFault(e: SimulatedOrders.LegError, d: Scan.Direction, c: RunConfig, evaluatedAtMs: nat) {
    && Instrument.UsableFilters(d.sellInstrument) && e.OrderFailed?
    && (e.order == OrderModel.StoreRejected
        || (e.order == OrderModel.InvalidInput && (evaluatedAtMs + VISIBILITY_MS > I64_MAX || SellPriceVanishes(d, c.leg))))
  }

  /** Why a confirmed leg is not booked, if it is not. */
  function BookingRefusal(accepted: bool, filled: real, vanishes: bool, occurredAtMs: nat): Option<OrderModel.OrderError> {
    if !accepted || filled <= 0.0 then None
    else if vanishes then Some(OrderModel.InvalidInput)
    else if occurredAtMs > I64_MAX then Some(OrderModel.StoreRejected)
    else None
  }

  function FirstOf(a: Option<OrderModel.OrderError>, b: Option<OrderModel.OrderError>): Option<OrderModel.OrderError> {
    if a.Some? then a else b
  }

  /** The rolls of both submissions, the sell's after the buy's. */
  function BothRolls(seed: nat, n: nat, submit: SubmitConfig): (Rolls, Rolls) {
    var buy := RollsAt(seed, n, submit);
    (buy, RollsAt(seed, n + buy.Draws(), submit))
  }

  /** Why the store refuses one of the two submissions, judged on the tables before both. */
  function SubmissionRefusal(t: OrderModel.OrderTables, n: Names, buyVenue: string, sellVenue: string, rolls: (Rolls, Rolls), deadlineMs: nat)
    : Option<OrderModel.OrderError>
  {
    FirstOf(SubmitRefusal(t.facts, t.queries, n.BuyIntent(), buyVenue, ExchangeId(n.runId, "buy"), QueryId(n.runId, "buy"), rolls.0, deadlineMs),
            SubmitRefusal(t.facts, t.queries, n.SellIntent(), sellVenue, ExchangeId(n.runId, "sell"), QueryId(n.runId, "sell"), rolls.1, deadlineMs))
  }

  /** What each leg fills against the books, whatever becomes of its order. */
  function Fills(d: Scan.Direction, target: real, leg: LegConfig): (SimLegResult, SimLegResult)
    requires Scan.GoodDirection(d) && ValidConfig(leg) && target > 0.0
  {
    LegsOfRun(d, target, leg);
    (LegResult(Asks, d.buyBook, d.buyInstrument, target, leg).value, LegResult(Bids, d.sellBook, d.sellInstrument, target, leg).value)
  }

  /** Why booking one of the two fills is refused. */
  function FillRefusal(d: Scan.Direction, target: real, leg: LegConfig, rolls: (Rolls, Rolls), occurredAtMs: nat): Option<OrderModel.OrderError>
    requires Scan.GoodDirection(d) && ValidConfig(leg) && target > 0.0
  {
    var fills := Fills(d, target, leg);
    FirstOf(BookingRefusal(!rolls.0.unknown || rolls.0.found, fills.0.filled, false, occurredAtMs),
            BookingRefusal(!rolls.1.unknown || rolls.1.found, fills.1.filled, SellPriceVanishes(d, leg), occurredAtMs))
  }

  /** Why a run fails after its reservation, if it does: the first refusal of a submission, then of
      a booking. */
  function TradeRefusal(t: OrderModel.OrderTables, n: Names, buyVenue: string, sellVenue: string, d: Scan.Direction, target: real,
                        c: RunConfig, seed: nat, draws: nat, evaluatedAtMs: nat, occurredAtMs: nat): Option<OrderModel.OrderError>
    requires Scan.GoodDirection(d) && ValidRunConfig(c) && target > 0.0
  {
    var rolls := BothRolls(seed, draws, c.submit);
    FirstOf(SubmissionRefusal(t, n, buyVenue, sellVenue, rolls, evaluatedAtMs + VISIBILITY_MS),
            FillRefusal(d, target, c.leg, rolls, occurredAtMs))
  }

  /** Every such refusal is a fault of the store or a vanished price, never of a row's state. */
  lemma TradeRefusalIsStoreFault(t: OrderModel.OrderTables, n: Names, buyVenue: string, sellVenue: string, d: Scan.Direction, target: real,
                                 c: RunConfig, seed: nat, draws: nat, evaluatedAtMs: nat, occurredAtMs: nat)
    requires Scan.GoodDirection(d) && ValidRunConfig(c) && target > 0.0
    ensures var refusal := TradeRefusal(t, n, buyVenue, sellVenue, d, target, c, seed, draws, evaluatedAtMs, occurredAtMs);
            refusal.Some? ==> StoreFault(OrderFailed(refusal.value), d, c, evaluatedAtMs)
  {
    hide OrderModel.IdTaken, Fills, SellPriceVanishes, RollsAt;
  }

  /** After a reservation, which needs a positive sell limit, the sell price vanishes only when the
      competitors leave nothing down to the scanned worst price: the first bid the leg can reach
      lies strictly below it. */
  lemma VanishingNeedsDeeperBid(d: Scan.Direction, leg: LegConfig, worstPrice: real)
    requires Scan.GoodDirection(d) && ValidConfig(leg) && worstPrice > 0.0
    requires OffsetLevelPrice(worstPrice, Bids, leg.adverseMoveBps, d.sellInstrument.priceTick).value > 0.0
    ensures var levels := d.sellBook.bids;
            var k := FirstOffered(levels, TermsOf(Bids, d.sellInstrument, leg).takeRate, d.sellInstrument.quantityStep);
            SellPriceVanishes(d, leg) ==> k < |levels| && levels[k].price < worstPrice
  {
    hide GoodBook, AdversePrice, Times, Over, Instrument.Multiple, FirstOffered;
    var levels := d.sellBook.bids;
    var t := TermsOf(Bids, d.sellInstrument, leg);
    UsableTermsOf(Bids, d.sellInstrument, leg);
    FillPriceSign(worstPrice, t);
    FillPriceOfPositive(worstPrice, t);
    var k := FirstOffered(levels, t.takeRate, d.sellInstrument.quantityStep);
    if SellPriceVanishes(d, leg) && levels[k].price >= worstPrice {
      AdverseMonotone(worstPrice, levels[k].price, leg.adverseMoveBps);
    }
  }

  lemma RowKept(a: map<string, OrderModel.OrderFact>, b: map<string, OrderModel.OrderFact>, id: string, other: string)
    requires OthersKept(a, b, id) && other != id
    ensures other in b <==> other in a
    ensures other in a ==> b[other] == a[other]
  {
  }

  method SubmitLegs(order: OrderCore.OrderCore, intents: map<string, OrderModel.IntentRow>, names: Names, buyDigest: string, sellDigest: string,
                    evaluatedAtMs: nat, rng: SimRng.SimRng, c: RunConfig)
    returns (r: Result<(Confirmed, Confirmed), SimulatedOrders.LegError>)
    requires order.Valid() && OrderHistory.Inv(order.Tables()) && rng.Valid() && ValidRunConfig(c)
    requires FreshIntents(order, intents, names) && OrderModel.ValidDigest(buyDigest) && OrderModel.ValidDigest(sellDigest)
    modifies order, rng
    ensures order.Valid() && OrderHistory.Inv(order.Tables()) && rng.Valid()
    ensures old(order.facts).Keys <= order.facts.Keys <= old(order.facts).Keys + {names.BuyIntent(), names.SellIntent()}
    ensures var rolls := BothRolls(old(rng.seed), old(rng.draws), c.submit);
            var refusal := SubmissionRefusal(old(order.Tables()), names, intents[names.BuyIntent()].venue, intents[names.SellIntent()].venue,
                                             rolls, evaluatedAtMs + VISIBILITY_MS);
            r == if refusal.Some? then Err(OrderFailed(refusal.value))
                 else Ok((Confirmed(rolls.0.Outcome(ExchangeId(names.runId, "buy")), rolls.0.unknown, rolls.0.found),
                          Confirmed(rolls.1.Outcome(ExchangeId(names.runId, "sell")), rolls.1.unknown, rolls.1.found)))
    ensures order.trades == old(order.trades)
    ensures r.Ok? ==>
              && names.BuyIntent() in order.facts && names.SellIntent() in order.facts
              && SubmittedAs(order.facts[names.BuyIntent()], intents[names.BuyIntent()], r.value.0.outcome)
              && SubmittedAs(order.facts[names.SellIntent()], intents[names.SellIntent()], r.value.1.outcome)
  {
    hide ValidId, OrderHistory.Inv, OrderModel.ValidDigest, OthersKept, SubmittedAs, OrderModel.IdTaken, Roll, SubmitRefusal, LoggedAs,
         RollsAt, ExchangeId, QueryId, TradeId, UsableProbabilities;
    LegNames(names, "buy");
    LegNames(names, "sell");
    ValidProbabilitiesAreUsable(c.submit);
    ghost var t0 := order.Tables();
    ghost var rolls := BothRolls(rng.seed, rng.draws, c.submit);
    var buy := SubmitAndConfirm(order, intents, names.runId, names.BuyIntent(), "buy", buyDigest, evaluatedAtMs, rng, c.submit);
    ghost var t1 := order.Tables();
    KeysKept(t0.facts, t1.facts, names.BuyIntent());
    if buy.Err? {
      return Err(buy.error);
    }
    RowKept(t0.facts, t1.facts, names.BuyIntent(), names.SellIntent());
    BuyKeepsSellRefusal(t0, t1, names, intents[names.BuyIntent()], intents[names.SellIntent()].venue, buy.value.outcome, rolls.0, rolls.1,
                        evaluatedAtMs + VISIBILITY_MS);
    var sell := SubmitAndConfirm(order, intents, names.runId, names.SellIntent(), "sell", sellDigest, evaluatedAtMs, rng, c.submit);
    KeysKept(t1.facts, order.facts, names.SellIntent());
    if sell.Err? {
      return Err(sell.error);
    }
    RowKept(t1.facts, order.facts, names.SellIntent(), names.BuyIntent());
    r := Ok((buy.value, sell.value));
  }

  lemma LegIdsDiffer(runId: string)
    ensures ExchangeId(runId, "buy") != ExchangeId(runId, "sell") && QueryId(runId, "buy") != QueryId(runId, "sell")
  {
    assert |ExchangeId(runId, "buy")| < |ExchangeId(runId, "sell")|;
    assert |QueryId(runId, "buy")| < |QueryId(runId, "sell")|;
  }

  /** The buy leg's own row and lookup do not stand in the way of the sell leg. */
  lemma BuyKeepsSellRefusal(t0: OrderModel.OrderTables, t1: OrderModel.OrderTables, names: Names, buyRow: OrderModel.IntentRow,
                            sellVenue: string, outcome: Confirmation, buyRolls: Rolls, rolls: Rolls, deadlineMs: nat)
    requires Submitting(t0, t1, names.BuyIntent(), QueryId(names.runId, "buy"))
    requires names.BuyIntent() !in t0.facts && SubmittedAs(t1.facts[names.BuyIntent()], buyRow, outcome)
    requires outcome == buyRolls.Outcome(ExchangeId(names.runId, "buy"))
    ensures SubmitRefusal(t1.facts, t1.queries, names.SellIntent(), sellVenue, ExchangeId(names.runId, "sell"), QueryId(names.runId, "sell"), rolls, deadlineMs)
         == SubmitRefusal(t0.facts, t0.queries, names.SellIntent(), sellVenue, ExchangeId(names.runId, "sell"), QueryId(names.runId, "sell"), rolls, deadlineMs)
  {
    hide OrderHistory.Inv, ExchangeId, QueryId;
    LegIdsDiffer(names.runId);
    var id := ExchangeId(names.runId, "sell");
    if OrderModel.IdTaken(t0.facts, names.SellIntent(), sellVenue, id) {
      var other :| other in t0.facts && other != names.SellIntent() && t0.facts[other].venue == sellVenue && t0.facts[other].exchangeOrderId == Some(id);
      assert other in t1.facts && t1.facts[other] == t0.facts[other];
    }
    if OrderModel.IdTaken(t1.facts, names.SellIntent(), sellVenue, id) {
      var other :| other in t1.facts && other != names.SellIntent() && t1.facts[other].venue == sellVenue && t1.facts[other].exchangeOrderId == Some(id);
      assert other != names.BuyIntent();
      assert other in t0.facts && t1.facts[other] == t0.facts[other];
    }
  }

  lemma KeysKept(a: map<string, OrderModel.OrderFact>, b: map<string, OrderModel.OrderFact>, id: string)
    requires OthersKept(a, b, id)
    ensures b.Keys == a.Keys + {id}
  {
  }

  /** The trades a run leaves in the store: the buy leg's and the sell leg's, if any. */
  function RunTrades(names: Names, buyVenue: string, sellVenue: string, l: Legs, d: Scan.Direction, feeAsset: string, occurredAtMs: nat,
                     scale: real -> nat): seq<OrderModel.TradeFact> {
    LegTrades(buyVenue, l.buyOutcome, names.runId, names.BuyIntent(), "buy", l.buy, d.buyFeeRate, feeAsset, occurredAtMs, scale)
    + LegTrades(sellVenue, l.sellOutcome, names.runId, names.SellIntent(), "sell", l.sell, d.sellFeeRate, feeAsset, occurredAtMs, scale)
  }

  method BookLegs(order: OrderCore.OrderCore, buyRow: OrderModel.IntentRow, sellRow: OrderModel.IntentRow, names: Names,
                  buyOutcome: Confirmation, sellOutcome: Confirmation, buy: SimLegResult, sell: SimLegResult, d: Scan.Direction,
                  feeAsset: string, occurredAtMs: nat, scale: real -> nat)
    returns (r: Result<(real, real), OrderModel.OrderError>)
    requires order.Valid() && OrderHistory.Inv(order.Tables()) && names.BuyIntent() != names.SellIntent()
    requires names.BuyIntent() in order.facts && names.SellIntent() in order.facts
    requires SubmittedAs(order.facts[names.BuyIntent()], buyRow, buyOutcome) && buyRow.domain == order.domain
    requires SubmittedAs(order.facts[names.SellIntent()], sellRow, sellOutcome) && sellRow.domain == order.domain
    requires buyOutcome.AcceptedAs? ==> buyOutcome.exchangeOrderId == ExchangeId(names.runId, "buy")
    requires sellOutcome.AcceptedAs? ==> sellOutcome.exchangeOrderId == ExchangeId(names.runId, "sell")
    requires ValidId(buyRow.venue) && ValidId(sellRow.venue) && ValidId(names.Plan()) && names.runId != [] && ValidId(feeAsset)
    requires 0.0 <= buy.filled <= buyRow.quantity && buy.quoteAmount >= 0.0 && d.buyFeeRate >= 0.0
    requires 0.0 <= sell.filled <= sellRow.quantity && sell.quoteAmount >= 0.0 && d.sellFeeRate >= 0.0
    modifies order
    ensures order.Valid() && OrderHistory.Inv(order.Tables()) && order.facts.Keys == old(order.facts).Keys
    ensures var buyRefusal, sellRefusal := BookRefusal(buyOutcome, buy, occurredAtMs), BookRefusal(sellOutcome, sell, occurredAtMs);
            r == if buyRefusal.Some? then Err(buyRefusal.value)
                 else if sellRefusal.Some? then Err(sellRefusal.value)
                 else Ok((BookedFee(buyOutcome, buy, d.buyFeeRate), BookedFee(sellOutcome, sell, d.sellFeeRate)))
    ensures r.Ok? ==>
              && BookedAs(order.facts[names.BuyIntent()], buyRow, buyOutcome, buy.filled)
              && BookedAs(order.facts[names.SellIntent()], sellRow, sellOutcome, sell.filled)
    ensures r.Ok? ==>
              order.trades == old(order.trades)
                + LegTrades(buyRow.venue, buyOutcome, names.runId, names.BuyIntent(), "buy", buy, d.buyFeeRate, feeAsset, occurredAtMs, scale)
                + LegTrades(sellRow.venue, sellOutcome, names.runId, names.SellIntent(), "sell", sell, d.sellFeeRate, feeAsset, occurredAtMs, scale)
  {
    hide ValidId, OrderHistory.Inv, OthersKept, SubmittedAs, BookedAs, Times, LegTrades;
    LegNames(names, "buy");
    LegNames(names, "sell");
    ghost var f0 := order.facts;
    var buyFee := BookFill(order, buyRow, names.runId, names.BuyIntent(), "buy", buyOutcome, buy, d.buyFeeRate, feeAsset, occurredAtMs, scale);
    ghost var f1 := order.facts;
    KeysKept(f0, f1, names.BuyIntent());
    if buyFee.Err? {
      return Err(buyFee.error);
    }
    RowKept(f0, f1, names.BuyIntent(), names.SellIntent());
    var sellFee := BookFill(order, sellRow, names.runId, names.SellIntent(), "sell", sellOutcome, sell, d.sellFeeRate, feeAsset, occurredAtMs, scale);
    KeysKept(f1, order.facts, names.SellIntent());
    if sellFee.Err? {
      return Err(sellFee.error);
    }
    RowKept(f1, order.facts, names.SellIntent(), names.BuyIntent());
    r := Ok((buyFee.value, sellFee.value));
  }

  /** Submits both legs, matches them against the books and books their fills. */
  method TradeLegs(order: OrderCore.OrderCore, rng: SimRng.SimRng, intents: map<string, OrderModel.IntentRow>, names: Names,
                   d: Scan.Direction, target: real, c: RunConfig, buyDigest: string, sellDigest: string,
                   evaluatedAtMs: nat, occurredAtMs: nat, feeAsset: string, scale: real -> nat)
    returns (r: Result<Legs, SimulatedOrders.LegError>)
    requires order.Valid() && OrderHistory.Inv(order.Tables()) && rng.Valid() && ValidRunConfig(c)
    requires FreshIntents(order, intents, names) && OrderModel.ValidDigest(buyDigest) && OrderModel.ValidDigest(sellDigest)
    requires target > 0.0 && intents[names.BuyIntent()].quantity == target && intents[names.SellIntent()].quantity == target
    requires ValidId(intents[names.BuyIntent()].venue) && ValidId(intents[names.SellIntent()].venue) && ValidId(feeAsset)
    requires Scan.GoodDirection(d) && Scan.ValidRate(d.buyFeeRate) && Scan.ValidRate(d.sellFeeRate)
    modifies order, rng
    ensures order.Valid() && OrderHistory.Inv(order.Tables())
    ensures order.facts.Keys <= old(order.facts).Keys + {names.BuyIntent(), names.SellIntent()}
    ensures var refusal := TradeRefusal(old(order.Tables()), names, intents[names.BuyIntent()].venue, intents[names.SellIntent()].venue, d, target, c,
                                        old(rng.seed), old(rng.draws), evaluatedAtMs, occurredAtMs);
            if refusal.Some? then r == Err(OrderFailed(refusal.value)) else r.Ok?
    ensures r.Ok? ==>
              && OrdersAgree(order.facts, names, r.value) && LegsMatched(r.value, d, target, c.leg)
              && 0.0 <= r.value.buy.filled <= target && 0.0 <= r.value.sell.filled <= target
              && order.trades == old(order.trades)
                 + RunTrades(names, intents[names.BuyIntent()].venue, intents[names.SellIntent()].venue, r.value, d, feeAsset, occurredAtMs, scale)
    ensures r.Ok? ==> RolledAs(r.value, names, BothRolls(old(rng.seed), old(rng.draws), c.submit))
  {
    hide ValidId, RolledAs, OrderHistory.Inv, OrderModel.ValidDigest, SubmittedAs, SubmissionRefusal, RollsAt, RunTrades, FillRefusal, LegsMatched, OrdersAgree,
         Scan.GoodDirection;
    var submitted := SubmitLegs(order, intents, names, buyDigest, sellDigest, evaluatedAtMs, rng, c);
    if submitted.Err? {
      return Err(submitted.error);
    }
    ghost var rolls := BothRolls(old(rng.seed), old(rng.draws), c.submit);
    var booked := MatchAndBook(order, intents[names.BuyIntent()], intents[names.SellIntent()], names, submitted.value.0, submitted.value.1,
                               rolls, d, target, c.leg, feeAsset, occurredAtMs, scale);
    r := if booked.Err? then Err(OrderFailed(booked.error)) else Ok(booked.value);
  }

  /** Matches both legs against the books and books what was confirmed. */
  method MatchAndBook(order: OrderCore.OrderCore, buyRow: OrderModel.IntentRow, sellRow: OrderModel.IntentRow, names: Names,
                      buyDone: Confirmed, sellDone: Confirmed, ghost rolls: (Rolls, Rolls), d: Scan.Direction, target: real, leg: LegConfig,
                      feeAsset: string, occurredAtMs: nat, scale: real -> nat)
    returns (r: Result<Legs, OrderModel.OrderError>)
    requires order.Valid() && OrderHistory.Inv(order.Tables()) && names.BuyIntent() != names.SellIntent()
    requires names.BuyIntent() in order.facts && names.SellIntent() in order.facts
    requires SubmittedAs(order.facts[names.BuyIntent()], buyRow, buyDone.outcome) && buyRow.domain == order.domain
    requires SubmittedAs(order.facts[names.SellIntent()], sellRow, sellDone.outcome) && sellRow.domain == order.domain
    requires buyDone == Confirmed(rolls.0.Outcome(ExchangeId(names.runId, "buy")), rolls.0.unknown, rolls.0.found)
    requires sellDone == Confirmed(rolls.1.Outcome(ExchangeId(names.runId, "sell")), rolls.1.unknown, rolls.1.found)
    requires ValidId(buyRow.venue) && ValidId(sellRow.venue) && ValidId(names.Plan()) && names.runId != [] && ValidId(feeAsset)
    requires target > 0.0 && buyRow.quantity == target && sellRow.quantity == target && ValidConfig(leg)
    requires Scan.GoodDirection(d) && Scan.ValidRate(d.buyFeeRate) && Scan.ValidRate(d.sellFeeRate)
    modifies order
    ensures order.Valid() && OrderHistory.Inv(order.Tables()) && order.facts.Keys == old(order.facts).Keys
    ensures var refusal := FillRefusal(d, target, leg, rolls, occurredAtMs);
            if refusal.Some? then r == Err(refusal.value) else r.Ok?
    ensures r.Ok? ==>
              && OrdersAgree(order.facts, names, r.value) && LegsMatched(r.value, d, target, leg)
              && 0.0 <= r.value.buy.filled <= target && 0.0 <= r.value.sell.filled <= target
              && order.trades == old(order.trades) + RunTrades(names, buyRow.venue, sellRow.venue, r.value, d, feeAsset, occurredAtMs, scale)
    ensures r.Ok? ==> RolledAs(r.value, names, rolls)
  {
    hide ValidId, OrderHistory.Inv, SubmittedAs, BookedAs, LegResult, SellPriceVanishes, GoodBook, FillRefusal, BookRefusal, BookedFee, LegTrades, OrdersAgree;
    LegsOfRun(d, target, leg);
    var buyLeg := SimulateLeg.SimulateLeg(Asks, d.buyBook, d.buyInstrument, target, leg);
    var sellLeg := SimulateLeg.SimulateLeg(Bids, d.sellBook, d.sellInstrument, target, leg);
    var buy, sell := buyLeg.value, sellLeg.value;
    FillRefusalMeans(d, target, leg, rolls, occurredAtMs, ExchangeId(names.runId, "buy"), ExchangeId(names.runId, "sell"));
    var booked := BookLegs(order, buyRow, sellRow, names, buyDone.outcome, sellDone.outcome, buy, sell, d, feeAsset, occurredAtMs, scale);
    if booked.Err? {
      return Err(booked.error);
    }
    var legs := Legs(buyDone.outcome, sellDone.outcome, buyDone.unknownTried || sellDone.unknownTried,
                     buyDone.queryFound || sellDone.queryFound, buy, sell, booked.value.0, booked.value.1);
    BookedRowsAgree(order.facts, buyRow, sellRow, names, legs);
    r := Ok(legs);
  }

  lemma BookedRowsAgree(facts: map<string, OrderModel.OrderFact>, buyRow: OrderModel.IntentRow, sellRow: OrderModel.IntentRow, names: Names, l: Legs)
    requires names.BuyIntent() in facts && BookedAs(facts[names.BuyIntent()], buyRow, l.buyOutcome, l.buy.filled)
    requires names.SellIntent() in facts && BookedAs(facts[names.SellIntent()], sellRow, l.sellOutcome, l.sell.filled)
    ensures OrdersAgree(facts, names, l)
  {
    hide BookedAs;
    BookedMeans(facts[names.BuyIntent()], buyRow, l.buyOutcome, l.buy.filled);
    BookedMeans(facts[names.SellIntent()], sellRow, l.sellOutcome, l.sell.filled);
  }

  /** The booking refusals of the simulated fills, and what a passed booking says of the sell price. */
  lemma FillRefusalMeans(d: Scan.Direction, target: real, leg: LegConfig, rolls: (Rolls, Rolls), occurredAtMs: nat, buyId: string, sellId: string)
    requires Scan.GoodDirection(d) && ValidConfig(leg) && target > 0.0
    ensures var (buy, sell) := Fills(d, target, leg);
            var sellOutcome := rolls.1.Outcome(sellId);
            && FillRefusal(d, target, leg, rolls, occurredAtMs)
               == FirstOf(BookRefusal(rolls.0.Outcome(buyId), buy, occurredAtMs), BookRefusal(sellOutcome, sell, occurredAtMs))
            && (BookRefusal(sellOutcome, sell, occurredAtMs).None? && sellOutcome.AcceptedAs? && sell.filled > 0.0 ==> !SellPriceVanishes(d, leg))
  {
    hide LegResult, GoodBook, SellPriceVanishes;
    LegsOfRun(d, target, leg);
  }

  /** Everything a run does after its reservation. Whatever else the tables hold, no state guard
      of the order or execution core refuses: it fails exactly when a submission or a booking is
      refused by the store or the sell price vanishes; the facts agree; over-fill never escalates. */
  method TradeReserved(order: OrderCore.OrderCore, execution: Execution.ExecutionCore, rng: SimRng.SimRng,
                       plans: map<string, (string, string)>, intents: map<string, OrderModel.IntentRow>, names: Names,
                       d: Scan.Direction, target: real, o: Scan.Opportunity, c: RunConfig, buyDigest: string, sellDigest: string,
                       evaluatedAtMs: nat, occurredAtMs: nat, feeAsset: string, scale: real -> nat)
    returns (r: Result<Trading, TradeError>)
    requires order.Valid() && OrderHistory.Inv(order.Tables()) && execution.Valid() && rng.Valid() && ValidRunConfig(c)
    requires FreshIntents(order, intents, names) && OrderModel.ValidDigest(buyDigest) && OrderModel.ValidDigest(sellDigest)
    requires names.Plan() in plans && plans[names.Plan()] == execution.domain && names.Plan() !in execution.facts
    requires target > 0.0 && intents[names.BuyIntent()].quantity == target && intents[names.SellIntent()].quantity == target
    requires ValidId(intents[names.BuyIntent()].venue) && ValidId(intents[names.SellIntent()].venue) && ValidId(feeAsset)
    requires Scan.GoodDirection(d) && Scan.ValidRate(d.buyFeeRate) && Scan.ValidRate(d.sellFeeRate)
    requires o.buyWorstPrice > 0.0 && o.sellWorstPrice > 0.0
    modifies order, execution, rng
    ensures order.Valid() && OrderHistory.Inv(order.Tables()) && execution.Valid()
    ensures order.facts.Keys <= old(order.facts).Keys + {names.BuyIntent(), names.SellIntent()}
    ensures execution.facts.Keys == old(execution.facts).Keys + {names.Plan()}
    ensures var refusal := TradeRefusal(old(order.Tables()), names, intents[names.BuyIntent()].venue, intents[names.SellIntent()].venue, d, target, c,
                                        old(rng.seed), old(rng.draws), evaluatedAtMs, occurredAtMs);
            if refusal.Some? then r == Err(OrderFault(OrderFailed(refusal.value))) else r.Ok?
    ensures r.Ok? ==>
              && OrdersAgree(order.facts, names, r.value.legs) && ExecutionAgrees(execution.facts, names, r.value)
              && EscalationExplained(r.value, o, c) && LegsMatched(r.value.legs, d, target, c.leg)
              && order.trades == old(order.trades)
                 + RunTrades(names, intents[names.BuyIntent()].venue, intents[names.SellIntent()].venue, r.value.legs, d, feeAsset, occurredAtMs, scale)
    ensures r.Ok? ==> RolledAs(r.value.legs, names, BothRolls(old(rng.seed), old(rng.draws), c.submit))
  {
    hide ValidId, RolledAs, BothRolls, OrderHistory.Inv, OrderModel.ValidDigest, TradeRefusal, OrdersAgree, LegsMatched, RunTrades, Scan.GoodDirection, CompensationCost,
         Times, ValidRunConfig, Execution.Consistent, Scan.ValidRate;
    var initialised := InitializeExecution(execution, plans, names.Plan(), target, c);
    var legs := TradeLegs(order, rng, intents, names, d, target, c, buyDigest, sellDigest, evaluatedAtMs, occurredAtMs, feeAsset, scale);
    if legs.Err? {
      return Err(OrderFault(legs.error));
    }
    var evaluation := EvaluateFresh(execution, names.Plan(), target, legs.value.buy.filled, legs.value.sell.filled, o, c);
    r := Ok(Trading(legs.value, evaluation));
  }

  /** After its reservation a run fails exactly when the store refuses a submission, a fill of a
      confirmed leg cannot be stored in time, or a confirmed sell fills at a vanished price. */
  lemma TradeFailsExactlyWhen(t: OrderModel.OrderTables, n: Names, buyVenue: string, sellVenue: string, d: Scan.Direction, target: real,
                              c: RunConfig, seed: nat, draws: nat, evaluatedAtMs: nat, occurredAtMs: nat)
    requires Scan.GoodDirection(d) && ValidRunConfig(c) && target > 0.0
    ensures var rolls := BothRolls(seed, draws, c.submit);
            var (buy, sell) := Fills(d, target, c.leg);
            TradeRefusal(t, n, buyVenue, sellVenue, d, target, c, seed, draws, evaluatedAtMs, occurredAtMs).Some? <==>
              || SubmissionRefusal(t, n, buyVenue, sellVenue, rolls, evaluatedAtMs + VISIBILITY_MS).Some?
              || ((!rolls.0.unknown || rolls.0.found) && buy.filled > 0.0 && occurredAtMs > I64_MAX)
              || ((!rolls.1.unknown || rolls.1.found) && sell.filled > 0.0 && (SellPriceVanishes(d, c.leg) || occurredAtMs > I64_MAX))
  {
    hide SubmissionRefusal, Fills, SellPriceVanishes, RollsAt;
  }

  lemma BookedMeans(row: OrderModel.OrderFact, intent: OrderModel.IntentRow, outcome: Confirmation, filled: real)
    requires BookedAs(row, intent, outcome, filled)
    ensures row.submission == OrderModel.Accepted <==> outcome.AcceptedAs?
    ensures row.filledQuantity == (if outcome.AcceptedAs? then filled else 0.0)
    ensures row.reconciliation != OrderModel.Conflict
  {
  }
}
