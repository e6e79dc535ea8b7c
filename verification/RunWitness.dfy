/** A run that passes the scan and its reservation and then fails on a sell price that rounds to
    nothing, and two runs with one identity (crates/core/src/simulation.rs). */
module RunWitness {
  import opened Common
  import opened Text
  import opened Market
  import opened SimulateLeg
  import opened SimulatedOrders
  import opened RunTrading
  import opened RunPreparation
  import opened PaperStore
  import Instrument
  import OrderModel
  import OrderHistory
  import PaperHistory
  import PaperRequest
  import Scan
  import SimRng
  import SimulationRun

  const CHEAP_BOOK := OrderBookSnapshot("v", "S", [Level(9.0, 1.0)], [Level(10.0, 10.0)], 1, None, 1)
  const DEAR_BOOK := OrderBookSnapshot("w", "S", [Level(100.0, 1.0), Level(1.0, 100.0)], [Level(101.0, 1.0)], 1, None, 1)

  function Filters(venue: string): Instrument.InstrumentSpec {
    Instrument.InstrumentSpec(venue, 1.0, 1.0, 1.0, None, 0.0, None)
  }

  const NO_FEES := Scan.VenueFeeRates(0.0, 0.0)

  /** Two books a long way apart, with one good bid and a worthless one behind it. */
  const SCAN := Scan.ScanInput(CHEAP_BOOK, DEAR_BOOK, Filters("v"), Filters("w"), 1.0, NO_FEES, NO_FEES,
                               Scan.StrategyConfig(0.0, 0.0, 0.0, 0.0, 0.0, 0.0), 1, Scan.FreshnessLimits(0, 0), [])

  /** Competitors take half of every level, prices move against us by one basis point. */
  const CONFIG := RunConfig(LegConfig(1.0, 5000.0), SubmitConfig(0.0, 0.0), 0, 0, 0, 0, 100.0, 10.0, 0.0, 0.0, 0.0, 1)

  lemma BooksAreGood()
    ensures GoodEvent(SCAN) && Validate(CHEAP_BOOK).Ok? && Validate(DEAR_BOOK).Ok?
  {
    ValidateAcceptsExactlyGoodBooks(CHEAP_BOOK);
    ValidateAcceptsExactlyGoodBooks(DEAR_BOOK);
  }

  /** A first level that covers the target is the whole sweep. */
  lemma FirstLevelCovers(levels: seq<Level>, target: real)
    requires levels != [] && 0.0 < target <= levels[0].quantity
    ensures SweepResult(levels, target).Ok?
    ensures SweepResult(levels, target).value.quoteAmount == Times(target, levels[0].price)
    ensures SweepResult(levels, target).value.worstPrice == levels[0].price
  {
    hide Times, Over;
  }

  /** The scanner accepts buying on the cheap book and selling on the dear one. */
  lemma ScanAccepts()
    ensures Scan.ScanPair(SCAN).Ok? && |Scan.ScanPair(SCAN).value.directions| == 2
    ensures var o := Scan.ScanPair(SCAN).value.directions[0];
            o.accepted && (o.buyVenue, o.sellVenue) == ("v", "w") && o.buyWorstPrice == 10.0 && o.sellWorstPrice == 100.0
  {
    hide SweepResult, Times, Over, Scan.Judge, Validate, GoodBook, Instrument.FitsFilters;
    BooksAreGood();
    ValidateAcceptsExactlyGoodBooks(CHEAP_BOOK);
    ValidateAcceptsExactlyGoodBooks(DEAR_BOOK);
    FirstLevelCovers(CHEAP_BOOK.asks, 1.0);
    FirstLevelCovers(DEAR_BOOK.bids, 1.0);
    FirstLevelCovers(DEAR_BOOK.asks, 1.0);
    FirstLevelCovers(CHEAP_BOOK.bids, 1.0);
    var d := Scan.FirstToSecond(SCAN);
    var shared := Scan.SharedRejections(SCAN);
    var cost, proceeds := SweepResult(CHEAP_BOOK.asks, 1.0).value, SweepResult(DEAR_BOOK.bids, 1.0).value;
    TimesDistributes(10.0, 1.0, 0.0);
    TimesDistributes(100.0, 1.0, 0.0);
    assert cost.quoteAmount == 10.0 && proceeds.quoteAmount == 100.0;
    Scan.JudgeAccepts(d, 1.0, SCAN.strategy, shared, cost, proceeds);
    JudgedProfit(cost, proceeds, shared);
    Scan.SharedRejectionsMean(SCAN);
    FiltersFit("v", 10.0);
    FiltersFit("w", 100.0);
  }

  lemma FiltersFit(venue: string, notional: real)
    requires notional >= 0.0
    ensures Instrument.FitsFilters(Filters(venue), 1.0, notional)
  {
    assert Instrument.Multiple(1, 1.0) == 1.0;
  }

  lemma JudgedProfit(cost: Sweep, proceeds: Sweep, shared: seq<Scan.Rejection>)
    requires cost.quoteAmount == 10.0 && proceeds.quoteAmount == 100.0
    ensures var o := Scan.Judge(Scan.FirstToSecond(SCAN), 1.0, SCAN.strategy, shared, cost, proceeds);
            o.admissionProfit == 90.0 && o.admissionNetBps >= 0.0
  {
    hide Instrument.OrderRejectionReasons;
  }

  // ---------------------------------------------------------------- the vanishing sell

  /** The run of that opportunity. */
  function Input(): RunInput
    requires Scan.ScanPair(SCAN).Ok? && |Scan.ScanPair(SCAN).value.directions| == 2
  {
    RunInput("1", "S", "B", "Q", SCAN, Scan.ScanPair(SCAN).value.directions[0], 1, 1, 0)
  }

  lemma ConfigIsValid()
    ensures ValidRunConfig(CONFIG) && ValidConfig(CONFIG.leg)
  {
  }

  lemma HalfOf(quantity: real)
    ensures Available(quantity, TermsOf(Bids, Filters("w"), CONFIG.leg).takeRate, 1.0) == (quantity * 0.5).Floor as real
  {
    assert TermsOf(Bids, Filters("w"), CONFIG.leg).takeRate == 0.5;
  }

  /** The good bid is competed away whole; the worthless one behind it is left. */
  lemma BidsLeft()
    ensures var rate := TermsOf(Bids, Filters("w"), CONFIG.leg).takeRate;
            && TermsOf(Bids, Filters("w"), CONFIG.leg).step == 1.0
            && FirstOffered(DEAR_BOOK.bids, rate, 1.0) == 1
            && TotalAvailable(DEAR_BOOK.bids, rate, 1.0) == 50.0
  {
    hide Available;
    HalfOf(1.0);
    HalfOf(100.0);
    assert (1.0 * 0.5).Floor == 0 && (100.0 * 0.5).Floor == 50;
    var bids := DEAR_BOOK.bids;
    assert bids[1..] == [Level(1.0, 100.0)] && bids[1..][1..] == [];
    var rate := TermsOf(Bids, Filters("w"), CONFIG.leg).takeRate;
    assert TotalAvailable(bids[1..][1..], rate, 1.0) == 0.0;
    assert TotalAvailable(bids[1..], rate, 1.0) == 50.0;
  }

  lemma SellFills()
    ensures var sell := LegResult(Bids, DEAR_BOOK, Filters("w"), 1.0, CONFIG.leg);
            sell.Ok? && sell.value.filled == 1.0
  {
    hide LegResult, TotalAvailable, Taken, FillLevels, QuoteOf, Sum, Times, Over, TermsOf, FirstOffered;
    BidsLeft();
    var taken := LegFillsExactly(Bids, DEAR_BOOK, Filters("w"), 1.0, CONFIG.leg);
  }

  lemma WorthlessAfterMove()
    ensures AdversePrice(1.0, Bids, 1.0) < 1.0
  {
  }

  lemma SellVanishes()
    ensures GoodEvent(SCAN) && SellPriceVanishes(Scan.FirstToSecond(SCAN), CONFIG.leg)
    ensures var sell := LegResult(Bids, DEAR_BOOK, Filters("w"), 1.0, CONFIG.leg); sell.Ok? && sell.value.filled == 1.0 && sell.value.avgPrice <= 0.0
  {
    hide LegResult, FirstOffered, TermsOf, AdversePrice;
    BooksAreGood();
    BidsLeft();
    SellFills();
    WorthlessAfterMove();
    AveragePriceVanishes(Bids, DEAR_BOOK, Filters("w"), 1.0, CONFIG.leg);
  }

  /** With no unknown submissions configured, every submission is accepted at once. */
  lemma NeverUnknown(seed: nat, n: nat)
    ensures RollsAt(seed, n, CONFIG.submit) == Rolls(false, false)
  {
    hide SimRng.Draw;
  }

  lemma SubmissionsPass(n: Names)
    ensures SubmissionRefusal(OrderHistory.EMPTY_TABLES, n, "v", "w", BothRolls(1, 2, CONFIG.submit), 1 + VISIBILITY_MS).None?
  {
    hide RollsAt;
    NeverUnknown(1, 2);
    NeverUnknown(1, 3);
  }

  lemma TradingVanishes(n: Names)
    ensures GoodEvent(SCAN) && ValidRunConfig(CONFIG)
    ensures TradeRefusal(OrderHistory.EMPTY_TABLES, n, "v", "w", Scan.FirstToSecond(SCAN), 1.0, CONFIG, 1, 2, 1, 1) == Some(OrderModel.InvalidInput)
  {
    hide LegResult, SellPriceVanishes, GoodBook, RollsAt, SubmissionRefusal;
    BooksAreGood();
    ConfigIsValid();
    SellVanishes();
    NeverUnknown(1, 2);
    NeverUnknown(1, 3);
    SubmissionsPass(n);
  }

  // ---------------------------------------------------------------- its reservation

  lemma RunLimits(o: Scan.Opportunity)
    requires o.buyWorstPrice == 10.0 && o.sellWorstPrice == 100.0
    ensures var l := LimitsOf(Scan.FirstToSecond(SCAN), 1.0, o, CONFIG.leg);
            l.buy > 0.0 && l.sell > 0.0 && 0.0 < l.quoteCost <= 100.0
  {
    hide OffsetLevelPrice, RoundUp8, Times, Over;
    LimitNumbers();
  }

  lemma LimitNumbers()
    ensures OffsetLevelPrice(10.0, Asks, 1.0, 1.0).Ok? && OffsetLevelPrice(10.0, Asks, 1.0, 1.0).value == 11.0
    ensures OffsetLevelPrice(100.0, Bids, 1.0, 1.0).Ok? && OffsetLevelPrice(100.0, Bids, 1.0, 1.0).value == 99.0
    ensures 0.0 < RoundUp8(Times(Times(1.0, 10.0), 1.0 + Over(1.0, BPS_DENOMINATOR))) <= 100.0
  {
    assert AdversePrice(10.0, Asks, 1.0) == 10.001 && AdversePrice(100.0, Bids, 1.0) == 99.99;
    assert (-10.001).Floor == -11 && (99.99).Floor == 99;
    assert Times(Times(1.0, 10.0), 1.0 + Over(1.0, BPS_DENOMINATOR)) == 10.001;
    assert Times(10.001, 100000000.0) == 1000100000.0;
    assert (-1000100000.0).Floor == -1000100000;
  }

  lemma NamesOfWitness(input: RunInput)
    requires input.stamp == "1" && input.symbol == "S" && input.scan == SCAN && input.opportunity.buyVenue == "v"
    ensures NamesOf(input) == Names("f02-1", "f02-account-1-a", "f02-instrument-S-1", "a")
  {
    assert Label("S") == "S";
    assert "f02-instrument-" + "S" + "-" + "1" == "f02-instrument-S-1";
    assert "f02-account-" + "1" + "-" + "a" == "f02-account-1-a";
    assert "f02-" + "1" == "f02-1";
  }

  lemma LongNamesAreValid()
    ensures ValidId("f02-1-plan-a") && ValidId("f02-account-1-a") && ValidId("f02-instrument-S-1")
  {
    hide Trim;
    ValidIdMeans("f02-1-plan-a");
    ValidIdMeans("f02-account-1-a");
    ValidIdMeans("f02-instrument-S-1");
  }

  lemma NamesAreValid(input: RunInput)
    requires input.stamp == "1" && input.symbol == "S" && input.scan == SCAN && input.opportunity.buyVenue == "v"
    ensures NamesOf(input).runId != [] && (NamesOf(input).tag == "a" || NamesOf(input).tag == "b")
    ensures ValidId(NamesOf(input).Plan()) && ValidId(NamesOf(input).account) && ValidId(NamesOf(input).instrument)
  {
    hide ValidId, NamesOf;
    NamesOfWitness(input);
    LongNamesAreValid();
    assert "f02-1" + "-plan-" + "a" == "f02-1-plan-a";
  }

  lemma ShortNamesAreValid()
    ensures ValidId("v") && ValidId("w") && ValidId("B") && ValidId("Q")
  {
    hide Trim;
    ValidIdMeans("v");
    ValidIdMeans("w");
    ValidIdMeans("B");
    ValidIdMeans("Q");
  }

  /** The first run over empty tables reserves. */
  lemma FirstRunReserves(input: RunInput, limits: Limits, scale: real -> nat)
    requires input.stamp == "1" && input.symbol == "S" && input.scan == SCAN && input.quoteAsset == "Q" && input.baseAsset == "B"
    requires input.opportunity.buyVenue == "v" && input.opportunity.sellVenue == "w" && input.nowMs == 1
    requires limits.buy > 0.0 && limits.sell > 0.0 && 0.0 < limits.quoteCost <= 100.0
    ensures Preparing(EMPTY_STORE, NamesOf(input), input, CONFIG, limits, scale).1 == Prepared
  {
    hide ValidId, NamesOf, PaperRequest.ValidRequest, Preparing, Sound, RunRequest;
    NamesAreValid(input);
    ShortNamesAreValid();
    PaperHistory.EmptyIsSound();
    var n := NamesOf(input);
    RunRequestIsValid(n, input, CONFIG, limits, scale);
    PreparationMeans(EMPTY_STORE, n, input, CONFIG, limits, scale);
    NothingConflictsWithEmpty(RunRequest(n, input, CONFIG, limits, scale));
  }

  lemma NothingConflictsWithEmpty(r: PaperRequest.ReservePlanRequest)
    ensures r.requestId !in EMPTY_STORE.requests && !Conflicts(EMPTY_STORE, r)
  {
  }

  /** There is an accepted opportunity whose run, first on empty tables and with any scale, reserves,
      submits both orders, and fails because its sell fills at a price of zero. */
  lemma VanishingRun(scale: real -> nat)
    ensures Scan.ScanPair(SCAN).Ok? && |Scan.ScanPair(SCAN).value.directions| == 2 && GoodEvent(SCAN) && ValidRunConfig(CONFIG)
    ensures var input := Input();
            && input.opportunity.accepted
            && DirectionOf(input) == Some(Scan.FirstToSecond(SCAN))
            && input.opportunity.buyWorstPrice > 0.0 && input.opportunity.sellWorstPrice > 0.0
            && SimulationRun.PreparationEnd(EMPTY_STORE, input, CONFIG, scale) == Prepared
            && SimulationRun.TradingRefusal(OrderHistory.EMPTY_TABLES, input, CONFIG) == Some(OrderModel.InvalidInput)
            && SimulationRun.RunStops(EMPTY_STORE, OrderHistory.EMPTY_TABLES, input, CONFIG, scale)
  {
    hide Scan.ScanPair, GoodEvent, ValidRunConfig, TradeRefusal, Preparing, LimitsOf, SimRng.Draw;
    ScanAccepts();
    BooksAreGood();
    ConfigIsValid();
    var input := Input();
    RunLimits(input.opportunity);
    TradingVanishes(NamesOf(input));
    FirstRunReserves(input, LimitsOf(Scan.FirstToSecond(SCAN), 1.0, input.opportunity, CONFIG.leg), scale);
  }

  // ---------------------------------------------------------------- two runs of one identity

  /** Two runs of one millisecond and process carry one identity. When both fund before either
      reserves, the first reserves and the second is answered as a replay of its plan. */
  lemma TwinRunIsReplayed(scale: real -> nat)
    ensures Scan.ScanPair(SCAN).Ok? && |Scan.ScanPair(SCAN).value.directions| == 2 && GoodEvent(SCAN)
    ensures var input := Input();
            var n := NamesOf(input);
            && input.opportunity.buyWorstPrice > 0.0 && input.opportunity.sellWorstPrice > 0.0
            && var limits := LimitsOf(Scan.FirstToSecond(SCAN), 1.0, input.opportunity, CONFIG.leg);
               var quote, base, reserve := FundQuote(n, input, CONFIG), FundBase(n, input, CONFIG), ReserveRun(n, input, CONFIG, limits, scale);
               var s1 := Serve(EMPTY_STORE, quote);
               var s2 := Serve(s1.0, base);
               var s3 := Serve(s2.0, quote);
               var s4 := Serve(s3.0, base);
               var s5 := Serve(s4.0, reserve);
               var s6 := Serve(s5.0, reserve);
               && s1.1 == s2.1 == s3.1 == s4.1 == BalanceStored
               && s5.1 == Reserved(n.Plan()) && s6 == (s5.0, Replayed(n.Plan()))
  {
    hide Scan.ScanPair, GoodEvent, LimitsOf, Serve, NamesOf, FundQuote, FundBase, ReserveRun;
    ScanAccepts();
    BooksAreGood();
    var input := Input();
    RunLimits(input.opportunity);
    RefundedRunReserves(input, LimitsOf(Scan.FirstToSecond(SCAN), 1.0, input.opportunity, CONFIG.leg), scale);
  }

  lemma RefundedRunReserves(input: RunInput, limits: Limits, scale: real -> nat)
    requires input.stamp == "1" && input.symbol == "S" && input.scan == SCAN && input.quoteAsset == "Q" && input.baseAsset == "B"
    requires input.opportunity.buyVenue == "v" && input.opportunity.sellVenue == "w" && input.nowMs == 1
    requires limits.buy > 0.0 && limits.sell > 0.0 && 0.0 < limits.quoteCost <= 100.0
    ensures var n := NamesOf(input);
            var quote, base, reserve := FundQuote(n, input, CONFIG), FundBase(n, input, CONFIG), ReserveRun(n, input, CONFIG, limits, scale);
            var s1 := Serve(EMPTY_STORE, quote);
            var s2 := Serve(s1.0, base);
            var s3 := Serve(s2.0, quote);
            var s4 := Serve(s3.0, base);
            var s5 := Serve(s4.0, reserve);
            var s6 := Serve(s5.0, reserve);
            && s1.1 == s2.1 == s3.1 == s4.1 == BalanceStored
            && s5.1 == Reserved(n.Plan()) && s6 == (s5.0, Replayed(n.Plan()))
  {
    hide ValidId, NamesOf, PaperRequest.ValidRequest, Sound, RunRequest, Serve, Preparing;
    var n := NamesOf(input);
    NamesAreValid(input);
    ShortNamesAreValid();
    RunRequestIsValid(n, input, CONFIG, limits, scale);
    PaperHistory.EmptyIsSound();
    FundableIs(EMPTY_STORE, n, input);
    FundingMeans(EMPTY_STORE, n, input, CONFIG);
    FundedIsSound(EMPTY_STORE, n, input, CONFIG);
    var t := AfterFunding(EMPTY_STORE, n, input, CONFIG);
    FundableIs(t, n, input);
    FundingMeans(t, n, input, CONFIG);
    FundedReservation(t, n, input, CONFIG, limits, scale);
    NothingConflictsWithFunds(t, RunRequest(n, input, CONFIG, limits, scale));
    RepeatedReserve(AfterFunding(t, n, input, CONFIG), ReserveRun(n, input, CONFIG, limits, scale));
  }

  lemma FundableIs(s: Store, n: Names, input: RunInput)
    requires s.reservations == [] && ValidId(n.account) && input.nowMs == 1
    requires ValidId(input.opportunity.buyVenue) && ValidId(input.opportunity.sellVenue) && ValidId(input.quoteAsset) && ValidId(input.baseAsset)
    ensures Fundable(s, n, input, CONFIG)
  {
    hide ValidId;
  }

  lemma NothingConflictsWithFunds(s: Store, r: PaperRequest.ReservePlanRequest)
    requires s.plans == map[] && s.requests == map[] && s.decisions == map[] && s.audits == map[] && s.reservations == [] && s.intents == []
    ensures r.requestId !in s.requests && !Conflicts(s, r)
  {
  }

  /** A reservation repeated at once is a replay. */
  lemma RepeatedReserve(s: Store, c: Call)
    requires c.ReserveCall? && Serve(s, c).1.Reserved?
    ensures var t := Serve(s, c).0; Serve(t, c) == (t, Replayed(Serve(s, c).1.planId))
  {
    hide PaperRequest.ValidRequest, FirstRefusal, Conflicts, Debited, PaperRequest.Canonical;
  }
}
