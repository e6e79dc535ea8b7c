/** A whole simulated run: funding, reservation, submission, matching, booking, evaluation and the
    persisted report, across the three cores (crates/core/src/simulation.rs). */
module SimulationRun {
  import opened Common
  import opened Text
  import opened Market
  import opened SimulatedOrders
  import opened SimulateLeg
  import opened RunTrading
  import opened RunPreparation
  import Instrument
  import Scan
  import LegVersusScan
  import SimRng
  import OrderModel
  import OrderHistory
  import OrderCore
  import Execution
  import PaperRequest
  import PaperStore
  import PaperCore
  import ReservedPlan

  datatype Scenario = Normal | Shortfall | CompetedAway | Rejected

  datatype RunError =
    | VenueAbsent
    | LimitPriceFailed(price: SimulateLeg.LegError)
    | BalanceRefused(balance: PaperStore.Outcome)
    | ReservationRefused(why: PaperStore.Refusal)
    | TradeFailed(trade: TradeError)
    | PersistFailed

  datatype Warning = ReplaySkipped | BuyNotBooked | SellNotBooked

  datatype RunReport = RunReport(
    scenario: Scenario,
    names: Names,
    seed: nat,
    decisionToSubmitMs: nat,
    fillLatencyMs: nat,
    trading: Option<Trading>,
    simulatedNetProfit: real,
    idempotentReplay: bool,
    skippedFrames: nat,
    warnings: seq<Warning>)

  /** The three cores' tables refer only to each other's rows, and each is sound. */
  ghost predicate Linked(db: PaperCore.Database, order: OrderCore.OrderCore, execution: Execution.ExecutionCore)
    reads db, order, execution
  {
    && PaperStore.Sound(db.Tables()) && order.Valid() && OrderHistory.Inv(order.Tables()) && execution.Valid()
    && order.facts.Keys <= ReservedPlan.KnownIntents(db.plans, db.intents).Keys
    && execution.facts.Keys <= db.plans.Keys
  }

  /** Sells' proceeds less buys' cost less what was booked as fees. */
  function NetOf(l: Legs): real {
    l.sell.quoteAmount - l.sellFee - l.buy.quoteAmount - l.buyFee
  }

  function ScenarioOf(l: Legs): Scenario {
    if l.buy.filled == 0.0 || l.sell.filled == 0.0 then CompetedAway
    else if l.buy.depthShortfall || l.sell.depthShortfall then Shortfall
    else Normal
  }

  function WarningsOf(l: Legs): seq<Warning> {
    (if l.buyOutcome.UnknownUnrecoverable? && l.buy.filled > 0.0 then [BuyNotBooked] else [])
    + (if l.sellOutcome.UnknownUnrecoverable? && l.sell.filled > 0.0 then [SellNotBooked] else [])
  }

  ghost predicate ScannedFrom(d: Scan.Direction, quantity: real, o: Scan.Opportunity) {
    Scan.GoodDirection(d) && exists strategy, shared :: Scan.EvaluateDirection(d, quantity, strategy, shared) == Ok(o)
  }

  /** A run on an opportunity of its event trades on the very books, filters and fees that the
      scanner evaluated it from, so the profit bound below applies to it. */
  lemma RunTradesScannedBooks(input: RunInput, k: nat)
    requires Instrument.UsableFilters(input.scan.firstInstrument) && Instrument.UsableFilters(input.scan.secondInstrument)
    requires Scan.ScanPair(input.scan).Ok? && k < 2 && |Scan.ScanPair(input.scan).value.directions| == 2
    requires input.opportunity == Scan.ScanPair(input.scan).value.directions[k]
    requires input.scan.firstBook.venue != input.scan.secondBook.venue
    ensures DirectionOf(input) == Some(Scan.Evaluated(input.scan, k))
    ensures ScannedFrom(Scan.Evaluated(input.scan, k), input.scan.quantity, input.opportunity)
  {
    hide Scan.ScanPair, Scan.EvaluateDirection, GoodBook;
    Scan.AcceptedExactlyWhen(input.scan, k);
  }

  /** Both legs accepted and filled to the target. */
  predicate FullyFilled(l: Legs, target: real) {
    l.buyOutcome.AcceptedAs? && l.sellOutcome.AcceptedAs? && l.buy.filled == l.sell.filled == target
  }

  /** With both legs accepted and fully filled, the reported profit is at most the scanned gross
      profit less its fees. */
  lemma RunNeverBeatsScan(d: Scan.Direction, target: real, o: Scan.Opportunity, c: RunConfig, l: Legs)
    requires Scan.GoodDirection(d) && ValidConfig(c.leg) && Scan.ValidRate(d.buyFeeRate) && Scan.ValidRate(d.sellFeeRate)
    requires ScannedFrom(d, target, o) && LegsMatched(l, d, target, c.leg) && FullyFilled(l, target)
    ensures NetOf(l) <= o.grossProfit - o.fees
  {
    hide LegResult, Times, GoodBook, SellPriceVanishes;
    var strategy, shared :| Scan.EvaluateDirection(d, target, strategy, shared) == Ok(o);
    PositiveTarget(d, target, strategy, shared);
    hide Scan.EvaluateDirection;
    LegVersusScan.FullFillsNeverBeatOpportunity(d, target, strategy, shared, c.leg);
  }

  lemma PositiveTarget(d: Scan.Direction, target: real, strategy: Scan.StrategyConfig, shared: seq<Scan.Rejection>)
    requires Scan.GoodDirection(d) && Scan.EvaluateDirection(d, target, strategy, shared).Ok?
    ensures target > 0.0
  {
    hide Scan.Judge;
    Scan.SweepQuotePositive(Asks, d.buyBook.asks, target);
  }

  /** The scenario tells how far the legs filled: Normal means both reached the target, CompetedAway
      that one got nothing. A not-booked warning stands exactly for a fill the order facts lack. */
  predicate ReportTells(report: RunReport, orders: map<string, OrderModel.OrderFact>, n: Names, l: Legs, target: real) {
    && (report.scenario == Normal <==> l.buy.filled == l.sell.filled == target)
    && (report.scenario == CompetedAway <==> l.buy.filled == 0.0 || l.sell.filled == 0.0)
    && report.scenario != Rejected
    && n.BuyIntent() in orders && n.SellIntent() in orders
    && (BuyNotBooked in report.warnings <==> orders[n.BuyIntent()].filledQuantity != l.buy.filled)
    && (SellNotBooked in report.warnings <==> orders[n.SellIntent()].filledQuantity != l.sell.filled)
  }

  lemma ScenarioMeans(l: Legs, d: Scan.Direction, target: real, leg: LegConfig)
    requires LegsMatched(l, d, target, leg) && ValidConfig(leg) && target > 0.0
    ensures ScenarioOf(l) == Normal <==> l.buy.filled == l.sell.filled == target
    ensures ScenarioOf(l) == CompetedAway <==> l.buy.filled == 0.0 || l.sell.filled == 0.0
    ensures l.buy.filled >= 0.0 && l.sell.filled >= 0.0
  {
    hide LegResult, TotalAvailable, TermsOf, Times, SellPriceVanishes;
    var takenBuy := LegFillsExactly(Asks, d.buyBook, d.buyInstrument, target, leg);
    var takenSell := LegFillsExactly(Bids, d.sellBook, d.sellInstrument, target, leg);
  }

  lemma WarningsMean(l: Legs, orders: map<string, OrderModel.OrderFact>, n: Names)
    requires OrdersAgree(orders, n, l) && l.buy.filled >= 0.0 && l.sell.filled >= 0.0
    ensures BuyNotBooked in WarningsOf(l) <==> orders[n.BuyIntent()].filledQuantity != l.buy.filled
    ensures SellNotBooked in WarningsOf(l) <==> orders[n.SellIntent()].filledQuantity != l.sell.filled
  {
  }

  /** What a run that traded guarantees. */
  ghost predicate Accounted(input: RunInput, c: RunConfig, orders: map<string, OrderModel.OrderFact>, execution: map<string, Execution.Fact>,
                            report: RunReport)
  {
    && DirectionOf(input).Some? && report.trading.Some?
    && var d, n, t := DirectionOf(input).value, NamesOf(input), report.trading.value;
       && OrdersAgree(orders, n, t.legs) && ExecutionAgrees(execution, n, t) && EscalationExplained(t, input.opportunity, c)
       && LegsMatched(t.legs, d, input.scan.quantity, c.leg)
       && RolledAs(t.legs, n, BothRolls(SeedOf(input, c), 2, c.submit))
       && ReportTells(report, orders, n, t.legs, input.scan.quantity)
       && report.simulatedNetProfit == NetOf(t.legs)
       && (ScannedFrom(d, input.scan.quantity, input.opportunity) && FullyFilled(t.legs, input.scan.quantity) ==>
             report.simulatedNetProfit <= input.opportunity.grossProfit - input.opportunity.fees)
  }

  // ---------------------------------------------------------------- the persisted report

  /** The initial funds of a run cover its estimated cost and its quantity. */
  predicate Affords(input: RunInput, c: RunConfig) {
    && QuoteCostEstimate(input.scan.quantity, input.opportunity, c.leg) <= QuoteFunds(NamesOf(input), input, c)
    && input.scan.quantity <= c.initialBaseBalance
  }

  /** The report of a run trades exactly when its funds suffice; otherwise it says rejected and no more. */
  predicate TradesIfAfforded(input: RunInput, c: RunConfig, report: RunReport) {
    && (report.trading.Some? <==> Affords(input, c))
    && (report.trading.None? ==> report.scenario == Rejected && report.simulatedNetProfit == 0.0 && report.warnings == [])
  }

  /** The trades a run adds to the store: those of its legs, at the reported time; none if it did not trade. */
  predicate TradesStored(before: seq<OrderModel.TradeFact>, after: seq<OrderModel.TradeFact>, input: RunInput, report: RunReport, scale: real -> nat) {
    if report.trading.None? then after == before
    else
      && DirectionOf(input).Some?
      && after == before + RunTrades(NamesOf(input), input.opportunity.buyVenue, input.opportunity.sellVenue, report.trading.value.legs,
                                     DirectionOf(input).value, input.quoteAsset, FilledAtMs(input, report), scale)
  }

  /** When the fills of a run are reported to have happened. */
  function FilledAtMs(input: RunInput, report: RunReport): nat {
    SaturatingAdd(SaturatingAdd(input.evaluatedAtMs, report.decisionToSubmitMs), report.fillLatencyMs)
  }

  /** The whole numbers of the projection row fit its signed columns, and its symbol is not empty. */
  predicate NumbersFit(input: RunInput, report: RunReport) {
    && 0 < input.nowMs <= I64_MAX && input.evaluatedAtMs <= I64_MAX && report.seed <= I64_MAX
    && report.decisionToSubmitMs <= I64_MAX && report.fillLatencyMs <= I64_MAX && report.skippedFrames <= I64_MAX
    && input.symbol != []
  }

  /** The sign checks of the projection row's decimal columns. */
  predicate SignsFit(input: RunInput, report: RunReport) {
    && input.scan.quantity > 0.0
    && (report.trading.Some? ==>
          var t := report.trading.value;
          && t.legs.buy.filled >= 0.0 && t.legs.sell.filled >= 0.0 && t.legs.buy.avgPrice >= 0.0 && t.legs.sell.avgPrice >= 0.0
          && t.legs.buyFee >= 0.0 && t.legs.sellFee >= 0.0
          && t.evaluation.snapshot.unmatchedQuantity >= 0.0 && t.evaluation.snapshot.unmatchedExposure >= 0.0
          && t.evaluation.estimatedCost >= 0.0)
  }

  /** The projection table of finished runs. */
  class Projections {
    var runs: map<string, RunReport>

    constructor ()
      ensures runs == map[]
    {
      runs := map[];
    }

    /** Inserts the report's row unless its run has one; the fill time is converted only then. */
    method Persist(input: RunInput, report: RunReport) returns (ok: bool)
      modifies this
      ensures ok <==> NumbersFit(input, report) && SignsFit(input, report) && FilledAtMs(input, report) <= I64_MAX
      ensures runs == if NumbersFit(input, report) && SignsFit(input, report) && report.names.runId !in old(runs)
                      then old(runs)[report.names.runId := report] else old(runs)
    {
      if !NumbersFit(input, report) || !SignsFit(input, report) {
        return false;
      }
      if report.names.runId !in runs {
        runs := runs[report.names.runId := report];
      }
      return FilledAtMs(input, report) <= I64_MAX;
    }
  }

  // ---------------------------------------------------------------- when a run fails

  function SeedOf(input: RunInput, c: RunConfig): nat {
    if c.seed == 0 then input.nowMs else c.seed
  }

  /** The report as it stands before anything is tried: its delays are the seed's first two draws. */
  function BlankReport(input: RunInput, c: RunConfig): RunReport
    requires c.decisionToSubmitMsMin <= c.decisionToSubmitMsMax && c.fillLatencyMsMin <= c.fillLatencyMsMax
  {
    var seed := SeedOf(input, c);
    RunReport(Normal, NamesOf(input), seed,
              SimRng.InRange(SimRng.Draw(seed, 0), c.decisionToSubmitMsMin, c.decisionToSubmitMsMax),
              SimRng.InRange(SimRng.Draw(seed, 1), c.fillLatencyMsMin, c.fillLatencyMsMax),
              None, 0.0, false, input.skippedFrames, [])
  }

  /** How the preparation of a run ends on given tables. */
  function PreparationEnd(s: PaperStore.Store, input: RunInput, c: RunConfig, scale: real -> nat): Preparation
    requires GoodEvent(input.scan) && DirectionOf(input).Some?
    requires input.opportunity.buyWorstPrice > 0.0 && input.opportunity.sellWorstPrice > 0.0
  {
    DirectionIsGood(input);
    Preparing(s, NamesOf(input), input, c, LimitsOf(DirectionOf(input).value, input.scan.quantity, input.opportunity, c.leg), scale).1
  }

  /** The refusal of a prepared run's trading, on the order tables before it. */
  function TradingRefusal(t: OrderModel.OrderTables, input: RunInput, c: RunConfig): Option<OrderModel.OrderError>
    requires GoodEvent(input.scan) && DirectionOf(input).Some? && ValidRunConfig(c) && input.scan.quantity > 0.0
  {
    DirectionIsGood(input);
    TradeRefusal(t, NamesOf(input), input.opportunity.buyVenue, input.opportunity.sellVenue, DirectionOf(input).value, input.scan.quantity,
                 c, SeedOf(input, c), 2, input.evaluatedAtMs, FilledAtMs(input, BlankReport(input, c)))
  }

  /** A run stops short of its report at its books, its limits, its funding, its reservation or
      its trading. */
  predicate RunStops(s: PaperStore.Store, t: OrderModel.OrderTables, input: RunInput, c: RunConfig, scale: real -> nat)
    requires GoodEvent(input.scan) && ValidRunConfig(c)
  {
    || DirectionOf(input).None?
    || input.opportunity.buyWorstPrice <= 0.0 || input.opportunity.sellWorstPrice <= 0.0
    || PreparationEnd(s, input, c, scale).NotFunded? || PreparationEnd(s, input, c, scale).NotReserved?
    || (PreparationEnd(s, input, c, scale).Prepared? && input.scan.quantity > 0.0 && TradingRefusal(t, input, c).Some?)
  }

  /** And it fails as well, with its facts in place, when its report cannot be persisted. */
  predicate RunFails(s: PaperStore.Store, t: OrderModel.OrderTables, input: RunInput, c: RunConfig, scale: real -> nat)
    requires GoodEvent(input.scan) && ValidRunConfig(c)
  {
    || RunStops(s, t, input, c, scale)
    || !NumbersFit(input, BlankReport(input, c)) || FilledAtMs(input, BlankReport(input, c)) > I64_MAX
  }

  /** A configured seed that does not fit a signed column fails every run. */
  lemma LargeSeedFails(s: PaperStore.Store, t: OrderModel.OrderTables, input: RunInput, c: RunConfig, scale: real -> nat)
    requires GoodEvent(input.scan) && ValidRunConfig(c) && c.seed > I64_MAX
    ensures RunFails(s, t, input, c, scale)
  {
    hide RunStops, SimRng.Draw, GoodBook;
  }

  /** A report of this run: its names, seed, delays and skipped frames are those it started with. */
  predicate ReportOf(report: RunReport, input: RunInput, c: RunConfig)
    requires ValidRunConfig(c)
  {
    var blank := BlankReport(input, c);
    && report.names == blank.names && report.seed == blank.seed && report.skippedFrames == blank.skippedFrames
    && report.decisionToSubmitMs == blank.decisionToSubmitMs && report.fillLatencyMs == blank.fillLatencyMs
  }

  lemma SignsOfTrading(input: RunInput, c: RunConfig, report: RunReport)
    requires report.trading.Some? && DirectionOf(input).Some? && GoodEvent(input.scan) && ValidRunConfig(c) && input.scan.quantity > 0.0
    requires input.opportunity.buyWorstPrice > 0.0 && input.opportunity.sellWorstPrice > 0.0
    requires LegsMatched(report.trading.value.legs, DirectionOf(input).value, input.scan.quantity, c.leg)
    requires EscalationExplained(report.trading.value, input.opportunity, c)
    ensures SignsFit(input, report)
  {
    hide LegResult, SellPriceVanishes, CompensationCost, Times, DirectionOf, GoodBook;
    DirectionIsGood(input);
    var d, t, o := DirectionOf(input).value, report.trading.value, input.opportunity;
    LegsOfRun(d, input.scan.quantity, c.leg);
    TimesSign(t.legs.buy.quoteAmount, d.buyFeeRate);
    TimesSign(t.legs.sell.quoteAmount, d.sellFeeRate);
    CompensationCostNonNegative(o, c.compensationMarkupBps);
    TimesSign(Abs(t.legs.buy.filled - t.legs.sell.filled), o.sellWorstPrice);
    TimesSign(Abs(t.legs.buy.filled - t.legs.sell.filled), CompensationCost(o, c.compensationMarkupBps));
  }

  /** A run can only be short of funds for a positive quantity. */
  lemma ShortOfFundsMeansPositive(input: RunInput, c: RunConfig)
    requires GoodEvent(input.scan) && ValidRunConfig(c) && DirectionOf(input).Some?
    requires input.opportunity.buyWorstPrice > 0.0 && input.opportunity.sellWorstPrice > 0.0
    requires !EnoughFunds(NamesOf(input), input, c, LimitsOf(DirectionOf(input).value, input.scan.quantity, input.opportunity, c.leg))
    ensures input.scan.quantity > 0.0
  {
    hide DirectionOf, GoodBook, OffsetLevelPrice;
    CostOfNothing(input.scan.quantity, input.opportunity, c.leg);
  }

  lemma CostOfNothing(target: real, o: Scan.Opportunity, leg: LegConfig)
    requires o.buyWorstPrice > 0.0 && ValidConfig(leg)
    ensures target <= 0.0 ==> QuoteCostEstimate(target, o, leg) <= 0.0
  {
    hide Times, Over;
    var rate := 1.0 + Over(leg.adverseMoveBps, BPS_DENOMINATOR);
    OverBounds(leg.adverseMoveBps, BPS_DENOMINATOR, 0.0);
    TimesSign(o.buyWorstPrice, target);
    TimesSign(rate, Times(target, o.buyWorstPrice));
    var x := Times(Times(target, o.buyWorstPrice), rate);
    TimesSign(100000000.0, x);
    if target <= 0.0 {
      var n := RoundAwayFromZero(Times(x, 100000000.0));
      OverBounds(n as real, 100000000.0, 0.0);
      OverBounds(-(n as real), 100000000.0, 0.0);
    }
  }

  /** What the fresh reservation of a run shows to its later steps. */
  predicate ReservationVisible(plans: map<string, (string, string)>, intents: map<string, OrderModel.IntentRow>,
                               known: map<string, OrderModel.IntentRow>, n: Names, input: RunInput)
  {
    var domain := (n.account, n.instrument);
    && n.Plan() in plans && plans[n.Plan()] == domain
    && n.BuyIntent() !in known && n.SellIntent() !in known && intents.Keys == known.Keys + {n.BuyIntent(), n.SellIntent()}
    && n.BuyIntent() in intents && intents[n.BuyIntent()] == OrderModel.IntentRow(domain, input.opportunity.buyVenue, input.scan.quantity)
    && n.SellIntent() in intents && intents[n.SellIntent()] == OrderModel.IntentRow(domain, input.opportunity.sellVenue, input.scan.quantity)
    && ValidId(n.Plan()) && ValidId(n.BuyIntent()) && ValidId(n.SellIntent()) && n.BuyIntent() != n.SellIntent()
    && ValidId(input.opportunity.buyVenue) && ValidId(input.opportunity.sellVenue) && ValidId(input.quoteAsset)
    && input.scan.quantity > 0.0
  }

  lemma AfterReservation(s: PaperStore.Store, t: PaperStore.Store, n: Names, input: RunInput, c: RunConfig, limits: Limits, scale: real -> nat)
    requires PaperStore.Sound(s)
    requires PaperStore.Serve(s, ReserveRun(n, input, c, limits, scale)) == (t, PaperStore.Reserved(n.Plan()))
    ensures n.Plan() !in s.plans && t.plans.Keys == s.plans.Keys + {n.Plan()}
    ensures n.runId != [] && (n.tag == "a" || n.tag == "b") ==>
              ReservationVisible(ReservedPlan.KnownPlans(t.plans), ReservedPlan.KnownIntents(t.plans, t.intents),
                                 ReservedPlan.KnownIntents(s.plans, s.intents), n, input)
  {
    hide ValidId, PaperStore.Sound, ReservedPlan.KnownIntents, PaperStore.Serve, PaperRequest.ValidRequest;
    var call := ReserveRun(n, input, c, limits, scale);
    ReservedPlan.FreshReservationIsKnown(s, call);
    ReservedRequestIsValid(s, call);
    ValidRunParts(n, input, c, limits, scale);
    if n.runId != [] && (n.tag == "a" || n.tag == "b") {
      RunNamesValid(n);
      RunIdsDiffer(n.runId);
    }
    assert ReservedPlan.KnownPlans(t.plans).Keys == t.plans.Keys;
    assert ReservedPlan.KnownPlans(s.plans).Keys == s.plans.Keys;
  }

  lemma ReservedRequestIsValid(s: PaperStore.Store, c: PaperStore.Call)
    requires PaperStore.Serve(s, c).1.Reserved?
    ensures c.ReserveCall? && PaperRequest.ValidRequest(c.request, c.account, c.instrument)
  {
    hide PaperRequest.ValidRequest, PaperStore.FirstRefusal, PaperStore.Conflicts, PaperStore.Inserted, PaperRequest.Canonical;
  }

  // ---------------------------------------------------------------- the run

  lemma AgreementHasRows(orders: map<string, OrderModel.OrderFact>, n: Names, l: Legs)
    requires OrdersAgree(orders, n, l)
    ensures n.BuyIntent() in orders && n.SellIntent() in orders
    ensures ScenarioOf(l) != Rejected
  {
  }

  /** The part of a run after its fresh reservation. */
  method TradeAndReport(db: PaperCore.Database, order: OrderCore.OrderCore, execution: Execution.ExecutionCore, rng: SimRng.SimRng,
                        input: RunInput, c: RunConfig, buyDigest: string, sellDigest: string, scale: real -> nat, report: RunReport,
                        ghost known: map<string, OrderModel.IntentRow>)
    returns (r: Result<RunReport, RunError>)
    requires ValidRunConfig(c) && GoodEvent(input.scan) && DirectionOf(input).Some? && rng.Valid()
    requires rng.seed == SeedOf(input, c) && rng.draws == 2 && report == BlankReport(input, c)
    requires OrderModel.ValidDigest(buyDigest) && OrderModel.ValidDigest(sellDigest)
    requires PaperStore.Sound(db.Tables()) && order.Valid() && OrderHistory.Inv(order.Tables()) && execution.Valid()
    requires order.facts.Keys <= known.Keys && execution.facts.Keys <= db.plans.Keys - {NamesOf(input).Plan()}
    requires order.domain == execution.domain == (NamesOf(input).account, NamesOf(input).instrument)
    requires ReservationVisible(ReservedPlan.KnownPlans(db.plans), ReservedPlan.KnownIntents(db.plans, db.intents), known, NamesOf(input), input)
    requires input.opportunity.buyWorstPrice > 0.0 && input.opportunity.sellWorstPrice > 0.0
    modifies order, execution, rng
    ensures Linked(db, order, execution)
    ensures var refusal := TradingRefusal(old(order.Tables()), input, c);
            if refusal.Some? then r == Err(TradeFailed(OrderFault(OrderFailed(refusal.value)))) else r.Ok?
    ensures r.Err? ==>
              && r.error.TradeFailed? && r.error.trade.OrderFault?
              && StoreFault(r.error.trade.order, DirectionOf(input).value, c, input.evaluatedAtMs)
    ensures r.Ok? ==>
              && r.value.trading.Some? && !r.value.idempotentReplay && ReportOf(r.value, input, c) && SignsFit(input, r.value)
              && Accounted(input, c, order.facts, execution.facts, r.value)
    ensures r.Ok? ==> TradesStored(old(order.trades), order.trades, input, r.value, scale)
  {
    hide ValidId, RolledAs, BothRolls, RunTrades, GoodBook, PaperStore.Sound, OrderHistory.Inv, OrderModel.ValidDigest, ReservedPlan.KnownIntents, DirectionOf, TradeRefusal,
         OrdersAgree, ExecutionAgrees, EscalationExplained, LegsMatched, ScannedFrom, Execution.Consistent, SimRng.Draw, SignsFit,
         Scan.GoodDirection, StoreFault;
    DirectionIsGood(input);
    TradeRefusalIsStoreFault(order.Tables(), NamesOf(input), input.opportunity.buyVenue, input.opportunity.sellVenue, DirectionOf(input).value,
                             input.scan.quantity, c, rng.seed, 2, input.evaluatedAtMs, FilledAtMs(input, report));
    var d, n, o := DirectionOf(input).value, NamesOf(input), input.opportunity;
    var plans, intents := ReservedPlan.KnownPlans(db.plans), ReservedPlan.KnownIntents(db.plans, db.intents);
    var trading := TradeReserved(order, execution, rng, plans, intents, n, d, input.scan.quantity, o, c, buyDigest, sellDigest,
                                 input.evaluatedAtMs, FilledAtMs(input, report), input.quoteAsset, scale);
    if trading.Err? {
      return Err(TradeFailed(trading.error));
    }
    var l := trading.value.legs;
    if ScannedFrom(d, input.scan.quantity, o) && FullyFilled(l, input.scan.quantity) {
      RunNeverBeatsScan(d, input.scan.quantity, o, c, l);
    }
    ScenarioMeans(l, d, input.scan.quantity, c.leg);
    WarningsMean(l, order.facts, n);
    AgreementHasRows(order.facts, n, l);
    hide ScenarioOf, WarningsOf, NetOf;
    var done := report.(scenario := ScenarioOf(l), trading := Some(trading.value), simulatedNetProfit := NetOf(l), warnings := WarningsOf(l));
    SignsOfTrading(input, c, done);
    r := Ok(done);
  }

  lemma RunNamesShape(input: RunInput)
    ensures NamesOf(input).runId != [] && (NamesOf(input).tag == "a" || NamesOf(input).tag == "b")
  {
  }

  /** The preparation of a run with known limits, and its trading. */
  method PrepareAndTrade(db: PaperCore.Database, order: OrderCore.OrderCore, execution: Execution.ExecutionCore, rng: SimRng.SimRng,
                         input: RunInput, c: RunConfig, limits: Limits, buyDigest: string, sellDigest: string, scale: real -> nat, report: RunReport)
    returns (r: Result<RunReport, RunError>)
    requires ValidRunConfig(c) && GoodEvent(input.scan) && DirectionOf(input).Some? && rng.Valid()
    requires rng.seed == SeedOf(input, c) && rng.draws == 2 && report == BlankReport(input, c)
    requires input.opportunity.buyWorstPrice > 0.0 && input.opportunity.sellWorstPrice > 0.0
    requires limits == LimitsOf(DirectionOf(input).value, input.scan.quantity, input.opportunity, c.leg)
    requires OrderModel.ValidDigest(buyDigest) && OrderModel.ValidDigest(sellDigest)
    requires Linked(db, order, execution)
    requires order.domain == execution.domain == (NamesOf(input).account, NamesOf(input).instrument)
    modifies db, order, execution, rng
    ensures Linked(db, order, execution)
    ensures r.Err? <==> RunStops(old(db.Tables()), old(order.Tables()), input, c, scale)
    ensures r.Err? && r.error.TradeFailed? ==>
              r.error.trade.OrderFault? && StoreFault(r.error.trade.order, DirectionOf(input).value, c, input.evaluatedAtMs)
    ensures r.Err? ==> !r.error.PersistFailed?
    ensures r.Ok? ==> ReportOf(r.value, input, c) && SignsFit(input, r.value) && !r.value.idempotentReplay
    ensures r.Ok? && r.value.trading.Some? ==> Accounted(input, c, order.facts, execution.facts, r.value)
    ensures (r.Err? && !r.error.TradeFailed?) || (r.Ok? && r.value.trading.None?) ==>
              db.plans == old(db.plans) && db.intents == old(db.intents) && order.facts == old(order.facts) && execution.facts == old(execution.facts)
    ensures r.Ok? ==> TradesStored(old(order.trades), order.trades, input, r.value, scale)
    ensures r.Ok? ==> TradesIfAfforded(input, c, r.value)
  {
    hide ValidId, Affords, TradesIfAfforded, TradesStored, GoodBook, PaperStore.Sound, OrderHistory.Inv, OrderModel.ValidDigest, ReservedPlan.KnownIntents, StoreFault, LimitsOf,
         PaperStore.Serve, Accounted, DirectionOf, TradingRefusal, ReserveRun, ReservationVisible, SignsFit, Preparing, Fundable, Scan.GoodDirection,
         Execution.Consistent, SimRng.Draw, EnoughFunds, GoodEvent, ValidRunConfig, BlankReport, NamesOf;
    var n := NamesOf(input);
    ghost var before, known := db.Tables(), ReservedPlan.KnownIntents(db.plans, db.intents);
    PreparationMeans(before, n, input, c, limits, scale);
    EnoughMeansAfforded(input, c);
    var prepared := Prepare(db, n, input, c, limits, scale);
    if prepared.NotFunded? {
      return Err(BalanceRefused(prepared.answer));
    }
    if prepared.NotReserved? {
      return Err(ReservationRefused(prepared.why));
    }
    if prepared.Insufficient? || prepared.AlreadyReserved? {
      ShortOfFundsMeansPositive(input, c);
      var untraded := report.(scenario := if prepared.Insufficient? then Rejected else Normal,
                              idempotentReplay := prepared.AlreadyReserved?,
                              warnings := if prepared.AlreadyReserved? then [ReplaySkipped] else []);
      BlankDidNotTrade(input, c);
      UntradedSigns(input, untraded);
      UntradedStoresNothing(order.trades, input, c, untraded, scale);
      return Ok(untraded);
    }
    RunNamesShape(input);
    AfterReservation(AfterFunding(before, n, input, c), db.Tables(), n, input, c, limits, scale);
    VisibleMeansPositive(ReservedPlan.KnownPlans(db.plans), ReservedPlan.KnownIntents(db.plans, db.intents), known, n, input);
    r := TradeAndReport(db, order, execution, rng, input, c, buyDigest, sellDigest, scale, report, known);
    if r.Ok? {
      AffordedTrades(input, c, r.value);
    }
  }

  lemma BlankDidNotTrade(input: RunInput, c: RunConfig)
    requires ValidRunConfig(c)
    ensures BlankReport(input, c).trading.None? && BlankReport(input, c).simulatedNetProfit == 0.0
  {
    hide SimRng.Draw;
  }

  /** Everything of a run up to its report. */
  method RunToReport(db: PaperCore.Database, order: OrderCore.OrderCore, execution: Execution.ExecutionCore, input: RunInput, c: RunConfig,
                     buyDigest: string, sellDigest: string, scale: real -> nat)
    returns (r: Result<RunReport, RunError>)
    requires ValidRunConfig(c) && GoodEvent(input.scan) && input.nowMs < U64_RANGE
    requires OrderModel.ValidDigest(buyDigest) && OrderModel.ValidDigest(sellDigest)
    requires Linked(db, order, execution)
    requires order.domain == execution.domain == (NamesOf(input).account, NamesOf(input).instrument)
    modifies db, order, execution
    ensures Linked(db, order, execution)
    ensures r.Err? <==> RunStops(old(db.Tables()), old(order.Tables()), input, c, scale)
    ensures r.Err? && r.error.TradeFailed? ==>
              && DirectionOf(input).Some? && r.error.trade.OrderFault?
              && StoreFault(r.error.trade.order, DirectionOf(input).value, c, input.evaluatedAtMs)
    ensures r.Err? ==> !r.error.PersistFailed?
    ensures r.Ok? ==> ReportOf(r.value, input, c) && SignsFit(input, r.value) && !r.value.idempotentReplay
    ensures r.Ok? && r.value.trading.Some? ==> Accounted(input, c, order.facts, execution.facts, r.value)
    ensures (r.Err? && !r.error.TradeFailed?) || (r.Ok? && r.value.trading.None?) ==>
              db.plans == old(db.plans) && db.intents == old(db.intents) && order.facts == old(order.facts) && execution.facts == old(execution.facts)
    ensures r.Ok? ==> TradesStored(old(order.trades), order.trades, input, r.value, scale)
    ensures r.Ok? ==> TradesIfAfforded(input, c, r.value)
  {
    hide ValidId, TradesIfAfforded, TradesStored, GoodBook, PaperStore.Sound, OrderHistory.Inv, OrderModel.ValidDigest, ReservedPlan.KnownIntents, StoreFault, LimitsOf,
         Accounted, DirectionOf, TradingRefusal, SignsFit, PreparationEnd, Execution.Consistent, SimRng.Draw, NamesOf, ReportOf;
    var direction := DirectionOf(input);
    if direction.None? {
      return Err(VenueAbsent);
    }
    var seed := if c.seed == 0 then input.nowMs else c.seed;
    var rng := new SimRng.SimRng(seed);
    var decisionMs := rng.GenRangeU64(c.decisionToSubmitMsMin, c.decisionToSubmitMsMax);
    var fillMs := rng.GenRangeU64(c.fillLatencyMsMin, c.fillLatencyMsMax);
    DirectionIsGood(input);
    var limits := LimitPrices(direction.value, input.scan.quantity, input.opportunity, c.leg);
    if limits.Err? {
      return Err(LimitPriceFailed(limits.error));
    }
    var report := RunReport(Normal, NamesOf(input), seed, decisionMs, fillMs, None, 0.0, false, input.skippedFrames, []);
    r := PrepareAndTrade(db, order, execution, rng, input, c, limits.value, buyDigest, sellDigest, scale, report);
  }

  /** One run from an observed opportunity to its persisted report, alone on its tables. It fails
      exactly when `RunFails` says so; after a fresh reservation that is for a refusal of the store,
      a vanished sell price, or a report that does not fit its row, never for the state of a row.
      A run that traded is accounted for in the order and execution facts, whether or not its
      report could be persisted; a run that did not leaves no plan, order or execution row. The
      claim ends with the projection row; balance snapshots, whose failures the program only
      logs, are not part of it. */
  method RunSimulation(db: PaperCore.Database, order: OrderCore.OrderCore, execution: Execution.ExecutionCore, projections: Projections,
                       input: RunInput, c: RunConfig, buyDigest: string, sellDigest: string, scale: real -> nat)
    returns (r: Result<RunReport, RunError>, ghost reached: Option<RunReport>)
    requires ValidRunConfig(c) && GoodEvent(input.scan) && input.nowMs < U64_RANGE
    requires OrderModel.ValidDigest(buyDigest) && OrderModel.ValidDigest(sellDigest)
    requires Linked(db, order, execution)
    requires order.domain == execution.domain == (NamesOf(input).account, NamesOf(input).instrument)
    modifies db, order, execution, projections
    ensures Linked(db, order, execution)
    ensures r.Err? <==> RunFails(old(db.Tables()), old(order.Tables()), input, c, scale)
    ensures reached.None? <==> RunStops(old(db.Tables()), old(order.Tables()), input, c, scale)
    ensures r.Ok? ==> reached == Some(r.value)
    ensures reached.Some? && r.Err? ==> r.error == PersistFailed
    ensures r.Err? && r.error.TradeFailed? ==>
              && DirectionOf(input).Some? && r.error.trade.OrderFault?
              && StoreFault(r.error.trade.order, DirectionOf(input).value, c, input.evaluatedAtMs)
    ensures reached.Some? && reached.value.trading.Some? ==> Accounted(input, c, order.facts, execution.facts, reached.value)
    ensures (reached.None? && !r.error.TradeFailed?) || (reached.Some? && reached.value.trading.None?) ==>
              db.plans == old(db.plans) && db.intents == old(db.intents) && order.facts == old(order.facts) && execution.facts == old(execution.facts)
    ensures projections.runs == if reached.Some? && NumbersFit(input, BlankReport(input, c)) && NamesOf(input).runId !in old(projections.runs)
                                then old(projections.runs)[NamesOf(input).runId := reached.value] else old(projections.runs)
    ensures reached.Some? ==> TradesStored(old(order.trades), order.trades, input, reached.value, scale)
    ensures reached.Some? ==> TradesIfAfforded(input, c, reached.value)
  {
    hide ValidId, TradesIfAfforded, TradesStored, GoodBook, PaperStore.Sound, OrderHistory.Inv, OrderModel.ValidDigest, ReservedPlan.KnownIntents, StoreFault, RunStops,
         Accounted, DirectionOf, SignsFit, Execution.Consistent, SimRng.Draw;
    r := RunToReport(db, order, execution, input, c, buyDigest, sellDigest, scale);
    if r.Err? {
      return r, None;
    }
    reached := Some(r.value);
    var persisted := projections.Persist(input, r.value);
    if !persisted {
      r := Err(PersistFailed);
    }
  }

  lemma UntradedSigns(input: RunInput, report: RunReport)
    requires report.trading.None? && input.scan.quantity > 0.0
    ensures SignsFit(input, report)
  {
  }

  lemma UntradedStoresNothing(trades: seq<OrderModel.TradeFact>, input: RunInput, c: RunConfig, report: RunReport, scale: real -> nat)
    requires report.trading.None? && !Affords(input, c)
    requires report.scenario == Rejected && report.simulatedNetProfit == 0.0 && report.warnings == []
    ensures TradesStored(trades, trades, input, report, scale) && TradesIfAfforded(input, c, report)
  {
    hide Affords;
  }

  lemma AffordedTrades(input: RunInput, c: RunConfig, report: RunReport)
    requires report.trading.Some? && Affords(input, c)
    ensures TradesIfAfforded(input, c, report)
  {
    hide Affords;
  }

  /** The funds check of the preparation is that of the initial balances. */
  lemma EnoughMeansAfforded(input: RunInput, c: RunConfig)
    requires GoodEvent(input.scan) && DirectionOf(input).Some?
    requires input.opportunity.buyWorstPrice > 0.0 && input.opportunity.sellWorstPrice > 0.0
    ensures Instrument.UsableFilters(DirectionOf(input).value.buyInstrument) && Instrument.UsableFilters(DirectionOf(input).value.sellInstrument)
    ensures EnoughFunds(NamesOf(input), input, c, LimitsOf(DirectionOf(input).value, input.scan.quantity, input.opportunity, c.leg))
            <==> Affords(input, c)
  {
    DirectionIsGood(input);
    hide DirectionOf, GoodBook, OffsetLevelPrice, QuoteCostEstimate, NamesOf, QuoteFunds;
  }

  lemma VisibleMeansPositive(plans: map<string, (string, string)>, intents: map<string, OrderModel.IntentRow>,
                             known: map<string, OrderModel.IntentRow>, n: Names, input: RunInput)
    requires ReservationVisible(plans, intents, known, n, input)
    ensures input.scan.quantity > 0.0 && intents.Keys == known.Keys + {n.BuyIntent(), n.SellIntent()}
  {
  }
}
