/** What a simulated run does before it trades: choosing its books, funding its own account and
    reserving (crates/core/src/simulation.rs). */
module RunPreparation {
  import opened Common
  import opened Text
  import opened Market
  import opened SimulateLeg
  import opened RunTrading
  import opened PaperRequest
  import opened PaperStore
  import Instrument
  import PaperCore
  import PaperHistory
  import Scan
  import Sorting

  /** An observed scan and the opportunity chosen from it. */
  datatype RunInput = RunInput(
    stamp: string,
    symbol: string,
    baseAsset: string,
    quoteAsset: string,
    scan: Scan.ScanInput,
    opportunity: Scan.Opportunity,
    evaluatedAtMs: nat,
    nowMs: nat,
    skippedFrames: nat)

  /** The books, filters and fees of a decision event have passed the scanner's checks. */
  predicate GoodEvent(s: Scan.ScanInput) {
    && GoodBook(s.firstBook) && GoodBook(s.secondBook)
    && Instrument.UsableFilters(s.firstInstrument) && Instrument.UsableFilters(s.secondInstrument)
    && Scan.ValidFees(s.firstFees) && Scan.ValidFees(s.secondFees)
  }

  /** The first of the event's two books that is of this venue. */
  function Position(s: Scan.ScanInput, venue: string): Option<nat> {
    if s.firstBook.venue == venue then Some(0) else if s.secondBook.venue == venue then Some(1) else None
  }

  /** The symbol with dashes for slashes. */
  function Label(symbol: string): string {
    seq(|symbol|, i requires 0 <= i < |symbol| => if symbol[i] == '/' then '-' else symbol[i])
  }

  function NamesOf(input: RunInput): Names {
    var tag := if Position(input.scan, input.opportunity.buyVenue) == Some(0) then "a" else "b";
    Names("f02-" + input.stamp, "f02-account-" + input.stamp + "-" + tag,
          "f02-instrument-" + Label(input.symbol) + "-" + input.stamp, tag)
  }

  function DirectionOf(input: RunInput): Option<Scan.Direction> {
    var buy, sell := Position(input.scan, input.opportunity.buyVenue), Position(input.scan, input.opportunity.sellVenue);
    if buy.Some? && sell.Some? then Some(Scan.DirectionAt(input.scan, buy.value, sell.value)) else None
  }

  lemma DirectionIsGood(input: RunInput)
    requires GoodEvent(input.scan) && DirectionOf(input).Some?
    ensures var d := DirectionOf(input).value;
            Scan.GoodDirection(d) && Scan.ValidRate(d.buyFeeRate) && Scan.ValidRate(d.sellFeeRate)
  {
    hide GoodBook, Position;
  }

  // ---------------------------------------------------------------- the request

  /** Rounding away from zero to eight decimal places. */
  function RoundUp8(x: real): real {
    Over(RoundAwayFromZero(Times(x, 100000000.0)) as real, 100000000.0)
  }

  function QuoteCostEstimate(target: real, o: Scan.Opportunity, leg: LegConfig): real {
    RoundUp8(Times(Times(target, o.buyWorstPrice), 1.0 + Over(leg.adverseMoveBps, BPS_DENOMINATOR)))
  }

  /** The limits of both legs and the quote funds to reserve. */
  datatype Limits = Limits(buy: real, sell: real, quoteCost: real)

  /** The limit prices of both legs; both worst prices must be positive. */
  method LimitPrices(d: Scan.Direction, target: real, o: Scan.Opportunity, leg: LegConfig) returns (r: Result<Limits, SimulateLeg.LegError>)
    requires Scan.GoodDirection(d)
    ensures r.Ok? <==> o.buyWorstPrice > 0.0 && o.sellWorstPrice > 0.0
    ensures r.Ok? ==> r.value == LimitsOf(d, target, o, leg)
  {
    hide GoodBook, AdversePrice, Over, Instrument.Multiple;
    var buyLimit := OffsetLevelPrice(o.buyWorstPrice, Asks, leg.adverseMoveBps, d.buyInstrument.priceTick);
    if buyLimit.Err? {
      return Err(buyLimit.error);
    }
    var sellLimit := OffsetLevelPrice(o.sellWorstPrice, Bids, leg.adverseMoveBps, d.sellInstrument.priceTick);
    if sellLimit.Err? {
      return Err(sellLimit.error);
    }
    r := Ok(Limits(buyLimit.value, sellLimit.value, QuoteCostEstimate(target, o, leg)));
  }

  function LimitsOf(d: Scan.Direction, target: real, o: Scan.Opportunity, leg: LegConfig): Limits
    requires Instrument.UsableFilters(d.buyInstrument) && Instrument.UsableFilters(d.sellInstrument)
    requires o.buyWorstPrice > 0.0 && o.sellWorstPrice > 0.0
  {
    Limits(OffsetLevelPrice(o.buyWorstPrice, Asks, leg.adverseMoveBps, d.buyInstrument.priceTick).value,
           OffsetLevelPrice(o.sellWorstPrice, Bids, leg.adverseMoveBps, d.sellInstrument.priceTick).value,
           QuoteCostEstimate(target, o, leg))
  }

  function AmountOf(x: real, scale: real -> nat): Amount { Amount(x, scale(x)) }

  const SIMULATION_CONFIG_VERSION := "f02-sim-v1"

  /** The reservation of one run: both intents for the target, quote funds to buy, base to sell. */
  function RunRequest(n: Names, input: RunInput, c: RunConfig, limits: Limits, scale: real -> nat): ReservePlanRequest {
    var o := input.opportunity;
    var target := AmountOf(input.scan.quantity, scale);
    ReservePlanRequest(
      n.runId + "-request-" + n.tag, n.Plan(), n.account, n.instrument, n.runId + "-opportunity-" + n.tag, SIMULATION_CONFIG_VERSION,
      target, AmountOf(c.maxUnmatchedExposure, scale),
      [OrderIntentInput(n.BuyIntent(), "buy", n.runId + "-attempt-buy", n.runId + "-client-buy", o.buyVenue, Buy, target,
                        AmountOf(limits.buy, scale)),
       OrderIntentInput(n.SellIntent(), "sell", n.runId + "-attempt-sell", n.runId + "-client-sell", o.sellVenue, Sell, target,
                        AmountOf(limits.sell, scale))],
      [ReservationInput(n.runId + "-reserve-quote", o.buyVenue, input.quoteAsset, AmountOf(limits.quoteCost, scale)),
       ReservationInput(n.runId + "-reserve-base", o.sellVenue, input.baseAsset, target)])
  }

  /** The parts of a run's request that can be at fault. */
  predicate UsableRequest(n: Names, input: RunInput, c: RunConfig, limits: Limits) {
    && ValidId(n.Plan()) && ValidId(n.account) && ValidId(n.instrument)
    && ValidId(input.opportunity.buyVenue) && ValidId(input.opportunity.sellVenue) && input.opportunity.buyVenue != input.opportunity.sellVenue
    && ValidId(input.quoteAsset) && ValidId(input.baseAsset)
    && input.scan.quantity > 0.0 && c.maxUnmatchedExposure >= 0.0
    && limits.buy > 0.0 && limits.sell > 0.0 && limits.quoteCost > 0.0
  }

  lemma RunNamesValid(n: Names)
    requires ValidId(n.Plan()) && n.runId != [] && (n.tag == "a" || n.tag == "b")
    ensures ValidId(n.runId + "-request-" + n.tag) && ValidId(n.runId + "-opportunity-" + n.tag)
    ensures ValidId(n.BuyIntent()) && ValidId(n.SellIntent())
    ensures ValidId(n.runId + "-attempt-buy") && ValidId(n.runId + "-attempt-sell")
    ensures ValidId(n.runId + "-client-buy") && ValidId(n.runId + "-client-sell")
    ensures ValidId(n.runId + "-reserve-quote") && ValidId(n.runId + "-reserve-base")
  {
    hide ValidId;
    var known := "-plan-" + n.tag;
    assert n.Plan() == n.runId + known;
    assert n.runId + "-request-" + n.tag == n.runId + ("-request-" + n.tag);
    assert n.runId + "-opportunity-" + n.tag == n.runId + ("-opportunity-" + n.tag);
    SiblingName(n.runId, known, "-request-" + n.tag);
    SiblingName(n.runId, known, "-opportunity-" + n.tag);
    SiblingName(n.runId, known, "-intent-buy");
    SiblingName(n.runId, known, "-intent-sell");
    OtherNamesValid(n, known);
  }

  lemma OtherNamesValid(n: Names, known: string)
    requires ValidId(n.runId + known) && n.runId != []
    ensures ValidId(n.runId + "-attempt-buy") && ValidId(n.runId + "-attempt-sell")
    ensures ValidId(n.runId + "-client-buy") && ValidId(n.runId + "-client-sell")
    ensures ValidId(n.runId + "-reserve-quote") && ValidId(n.runId + "-reserve-base")
  {
    hide ValidId;
    SiblingName(n.runId, known, "-attempt-buy");
    SiblingName(n.runId, known, "-attempt-sell");
    SiblingName(n.runId, known, "-client-buy");
    SiblingName(n.runId, known, "-client-sell");
    SiblingName(n.runId, known, "-reserve-quote");
    SiblingName(n.runId, known, "-reserve-base");
  }

  /** The two intents and the two lines of a run never repeat an identifier. */
  lemma RunIdsDiffer(runId: string)
    ensures runId + "-intent-buy" != runId + "-intent-sell" && runId + "-attempt-buy" != runId + "-attempt-sell"
    ensures runId + "-client-buy" != runId + "-client-sell" && runId + "-reserve-quote" != runId + "-reserve-base"
  {
    assert |runId + "-intent-buy"| < |runId + "-intent-sell"| && |runId + "-attempt-buy"| < |runId + "-attempt-sell"|;
    assert |runId + "-client-buy"| < |runId + "-client-sell"| && |runId + "-reserve-quote"| > |runId + "-reserve-base"|;
  }

  /** A run's request is valid exactly when its names, venues and assets are, the venues differ,
      and quantity, limits and cost are positive: in particular a sell limit that rounds to
      nothing refuses the reservation. */
  lemma RunRequestIsValid(n: Names, input: RunInput, c: RunConfig, limits: Limits, scale: real -> nat)
    requires n.runId != [] && (n.tag == "a" || n.tag == "b")
    ensures ValidRequest(RunRequest(n, input, c, limits, scale), n.account, n.instrument) <==> UsableRequest(n, input, c, limits)
  {
    hide ValidId;
    var r := RunRequest(n, input, c, limits, scale);
    if ValidRequest(r, n.account, n.instrument) {
      ValidRunParts(n, input, c, limits, scale);
    }
    if UsableRequest(n, input, c, limits) {
      UsableIsValid(n, input, c, limits, scale);
    }
  }

  lemma ValidRunParts(n: Names, input: RunInput, c: RunConfig, limits: Limits, scale: real -> nat)
    requires ValidRequest(RunRequest(n, input, c, limits, scale), n.account, n.instrument)
    ensures UsableRequest(n, input, c, limits)
  {
    hide ValidId, LinesApart, Funded;
    var r := RunRequest(n, input, c, limits, scale);
    assert NamedIntent(r.intents[0]) && NamedIntent(r.intents[1]) && PositiveIntent(r.intents[0]) && PositiveIntent(r.intents[1]);
    assert NamedLine(r.reservations[0]) && NamedLine(r.reservations[1]);
    assert r.reservations[0].amount.value > 0.0;
  }

  lemma UsableIsValid(n: Names, input: RunInput, c: RunConfig, limits: Limits, scale: real -> nat)
    requires n.runId != [] && (n.tag == "a" || n.tag == "b") && UsableRequest(n, input, c, limits)
    ensures ValidRequest(RunRequest(n, input, c, limits, scale), n.account, n.instrument)
  {
    hide ValidId;
    RunNamesValid(n);
    RunIdsDiffer(n.runId);
    assert ValidId(SIMULATION_CONFIG_VERSION) && ValidId("buy") && ValidId("sell") by { LiteralsValid(); }
    var r := RunRequest(n, input, c, limits, scale);
    assert r.reservations[0].venue == input.opportunity.buyVenue && r.reservations[1].venue == input.opportunity.sellVenue;
    assert Funded(r.intents[0].venue, r.reservations) && Funded(r.intents[1].venue, r.reservations);
  }

  lemma LiteralsValid()
    ensures ValidId(SIMULATION_CONFIG_VERSION) && ValidId("buy") && ValidId("sell")
  {
    hide Trim;
    ValidIdMeans(SIMULATION_CONFIG_VERSION);
    ValidIdMeans("buy");
    ValidIdMeans("sell");
  }

  // ---------------------------------------------------------------- funding and reserving

  function QuoteKey(n: Names, input: RunInput): BalanceKey { BalanceKey(n.account, input.opportunity.buyVenue, input.quoteAsset) }

  function BaseKey(n: Names, input: RunInput): BalanceKey { BalanceKey(n.account, input.opportunity.sellVenue, input.baseAsset) }

  function FundQuote(n: Names, input: RunInput, c: RunConfig): Call {
    BalanceCall(QuoteKey(n, input), c.initialQuoteBalance, c.initialQuoteBalance, input.nowMs)
  }

  function FundBase(n: Names, input: RunInput, c: RunConfig): Call {
    BalanceCall(BaseKey(n, input), c.initialBaseBalance, c.initialBaseBalance, input.nowMs)
  }

  function ReserveRun(n: Names, input: RunInput, c: RunConfig, limits: Limits, scale: real -> nat): Call {
    ReserveCall(n.account, n.instrument, RunRequest(n, input, c, limits, scale), input.nowMs)
  }

  function Free(s: Store, k: BalanceKey): real {
    if k in s.balances then s.balances[k].free - s.balances[k].reserved else 0.0
  }

  /** How a run's preparation ends. */
  datatype Preparation = NotFunded(answer: Outcome) | Insufficient | NotReserved(why: Refusal) | AlreadyReserved | Prepared

  function PreparationOf(answer: Outcome): Preparation {
    match answer
    case Reserved(_) => Prepared
    case Replayed(_) => AlreadyReserved
    case Refused(why) => NotReserved(why)
    case BalanceStored => NotFunded(answer)
  }

  /** Funding both balances, checking them, and reserving: the tables afterwards and the end. */
  function Preparing(s: Store, n: Names, input: RunInput, c: RunConfig, limits: Limits, scale: real -> nat): (Store, Preparation) {
    var first := Serve(s, FundQuote(n, input, c));
    if first.1 != BalanceStored then (first.0, NotFunded(first.1))
    else
      var second := Serve(first.0, FundBase(n, input, c));
      if second.1 != BalanceStored then (second.0, NotFunded(second.1))
      else if Free(second.0, QuoteKey(n, input)) < limits.quoteCost || Free(second.0, BaseKey(n, input)) < input.scan.quantity then
        (second.0, Insufficient)
      else
        var third := Serve(second.0, ReserveRun(n, input, c, limits, scale));
        (third.0, PreparationOf(third.1))
  }

  method Prepare(db: PaperCore.Database, n: Names, input: RunInput, c: RunConfig, limits: Limits, scale: real -> nat)
    returns (r: Preparation)
    modifies db
    ensures (db.Tables(), r) == Preparing(old(db.Tables()), n, input, c, limits, scale)
  {
    hide Serve, RunRequest;
    var o := input.opportunity;
    var answer := PaperCore.SetPaperBalance(db, n.account, o.buyVenue, input.quoteAsset, c.initialQuoteBalance, c.initialQuoteBalance, input.nowMs);
    if answer != BalanceStored {
      return NotFunded(answer);
    }
    answer := PaperCore.SetPaperBalance(db, n.account, o.sellVenue, input.baseAsset, c.initialBaseBalance, c.initialBaseBalance, input.nowMs);
    if answer != BalanceStored {
      return NotFunded(answer);
    }
    var quoteAvailable := Free(db.Tables(), BalanceKey(n.account, o.buyVenue, input.quoteAsset));
    var baseAvailable := Free(db.Tables(), BalanceKey(n.account, o.sellVenue, input.baseAsset));
    if quoteAvailable < limits.quoteCost || baseAvailable < input.scan.quantity {
      return Insufficient;
    }
    var paper := new PaperCore.PaperCore(db, n.account, n.instrument);
    var loaded;
    answer, loaded := paper.ReservePlan(RunRequest(n, input, c, limits, scale), input.nowMs);
    return PreparationOf(answer);
  }

  /** Both balances can be replaced: the names and amounts are good and nothing is reserved on them. */
  predicate Fundable(s: Store, n: Names, input: RunInput, c: RunConfig) {
    && GoodObservation(FundQuote(n, input, c)) && GoodObservation(FundBase(n, input, c))
    && !HasRows(s.reservations, QuoteKey(n, input)) && !HasRows(s.reservations, BaseKey(n, input))
  }

  /** The quote funds: the later funding wins if both are of one venue and asset. */
  function QuoteFunds(n: Names, input: RunInput, c: RunConfig): real {
    if QuoteKey(n, input) == BaseKey(n, input) then c.initialBaseBalance else c.initialQuoteBalance
  }

  predicate EnoughFunds(n: Names, input: RunInput, c: RunConfig, limits: Limits) {
    limits.quoteCost <= QuoteFunds(n, input, c) && input.scan.quantity <= c.initialBaseBalance
  }

  function AfterFunding(s: Store, n: Names, input: RunInput, c: RunConfig): Store {
    s.(balances := s.balances[QuoteKey(n, input) := Balance(c.initialQuoteBalance, c.initialQuoteBalance, 0.0, input.nowMs)]
                             [BaseKey(n, input) := Balance(c.initialBaseBalance, c.initialBaseBalance, 0.0, input.nowMs)])
  }

  lemma FundingMeans(s: Store, n: Names, input: RunInput, c: RunConfig)
    ensures var first := Serve(s, FundQuote(n, input, c));
            && first.0.reservations == s.reservations && first.0.plans == s.plans && first.0.intents == s.intents
            && var second := Serve(first.0, FundBase(n, input, c));
               && (Fundable(s, n, input, c) <==> first.1 == BalanceStored && second.1 == BalanceStored)
               && second.0.plans == s.plans && second.0.intents == s.intents
               && (Fundable(s, n, input, c) ==> second.0 == AfterFunding(s, n, input, c))
  {
    hide ValidId, HasRows;
  }

  lemma FundedIsSound(s: Store, n: Names, input: RunInput, c: RunConfig)
    requires Sound(s)
    ensures var first := Serve(s, FundQuote(n, input, c));
            Sound(first.0) && Sound(Serve(first.0, FundBase(n, input, c)).0)
  {
    hide Sound, Serve;
    var first, second := FundQuote(n, input, c), FundBase(n, input, c);
    ServeKeepsSound(s, first);
    ServeKeepsSound(Serve(s, first).0, second);
  }

  /** The reservation of a funded run with enough funds. */
  lemma FundedReservation(s: Store, n: Names, input: RunInput, c: RunConfig, limits: Limits, scale: real -> nat)
    requires Sound(s) && Fundable(s, n, input, c) && EnoughFunds(n, input, c, limits)
    ensures var r := RunRequest(n, input, c, limits, scale);
            var e := Serve(AfterFunding(s, n, input, c), ReserveRun(n, input, c, limits, scale));
            if !ValidRequest(r, n.account, n.instrument) then e == (AfterFunding(s, n, input, c), Refused(InvalidRequest))
            else if r.requestId in s.requests then e == (AfterFunding(s, n, input, c), Refused(RequestReused))
            else if Conflicts(s, r) then e == (AfterFunding(s, n, input, c), Refused(StoreRejected))
            else e.1 == Reserved(n.Plan())
  {
    hide ValidRequest, SortedLines, Inserted, Canonical, HasRows, LineStored, IntentStored, EventStored, DomainBusy;
    var t := AfterFunding(s, n, input, c);
    var call := ReserveRun(n, input, c, limits, scale);
    assert input.nowMs <= I64_MAX;
    LinesOfRunPass(s, n, input, c, limits, scale);
    if Serve(t, call).1.Replayed? {
      FundedIsNotReplayed(s, n, input, c, limits, scale);
    }
  }

  lemma LinesOfRunPass(s: Store, n: Names, input: RunInput, c: RunConfig, limits: Limits, scale: real -> nat)
    requires EnoughFunds(n, input, c, limits)
    ensures FirstRefusal(AfterFunding(s, n, input, c).balances, n.account, SortedLines(RunRequest(n, input, c, limits, scale))) == None
  {
    hide FirstRefusal, Sorting.SortBy;
    var r := RunRequest(n, input, c, limits, scale);
    var b := AfterFunding(s, n, input, c).balances;
    Sorting.SortPermutes(r.reservations, LineKey);
    var lines := SortedLines(r);
    forall i | 0 <= i < |lines| ensures LineRefusal(b, n.account, lines[i]).None? {
      assert lines[i] in multiset(lines);
      assert lines[i] in r.reservations;
      assert lines[i] == r.reservations[0] || lines[i] == r.reservations[1];
    }
    FirstRefusalIsFirst(b, n.account, lines);
  }

  lemma FundedIsNotReplayed(s: Store, n: Names, input: RunInput, c: RunConfig, limits: Limits, scale: real -> nat)
    requires Sound(s) && Fundable(s, n, input, c)
    ensures !Serve(AfterFunding(s, n, input, c), ReserveRun(n, input, c, limits, scale)).1.Replayed?
  {
    hide Sound, Serve, HasRows, ValidRequest;
    FundingMeans(s, n, input, c);
    var call := ReserveRun(n, input, c, limits, scale);
    var k := KeyOf(call.account, call.request.reservations[0]);
    assert k == QuoteKey(n, input);
    PaperHistory.ReplayNeverFollowsFunding(s, FundQuote(n, input, c), FundBase(n, input, c), call);
  }

  /** A preparation that nothing interrupts: not funded exactly when a name, amount or clock is bad
      or funds are reserved on the balances; insufficient exactly when the initial funds are;
      never a replay; prepared exactly when the request is then valid, unbound and without a
      conflict in the store. Unless prepared, no plan and no intent has changed. */
  lemma PreparationMeans(s: Store, n: Names, input: RunInput, c: RunConfig, limits: Limits, scale: real -> nat)
    requires Sound(s)
    ensures var (t, end) := Preparing(s, n, input, c, limits, scale);
            var r := RunRequest(n, input, c, limits, scale);
            && Sound(t)
            && (end.NotFunded? <==> !Fundable(s, n, input, c))
            && (end.Insufficient? <==> Fundable(s, n, input, c) && !EnoughFunds(n, input, c, limits))
            && !end.AlreadyReserved?
            && (end.Prepared? <==>
                  && Fundable(s, n, input, c) && EnoughFunds(n, input, c, limits)
                  && ValidRequest(r, n.account, n.instrument) && r.requestId !in s.requests && !Conflicts(s, r))
            && (end.Prepared? ==>
                  && Sound(AfterFunding(s, n, input, c))
                  && Serve(AfterFunding(s, n, input, c), ReserveRun(n, input, c, limits, scale)) == (t, Reserved(n.Plan())))
            && (!end.Prepared? ==> t.plans == s.plans && t.intents == s.intents)
  {
    hide Sound, Serve, ValidRequest, Conflicts, HasRows, RunRequest, GoodObservation;
    FundingMeans(s, n, input, c);
    FundedIsSound(s, n, input, c);
    if Fundable(s, n, input, c) {
      var t := AfterFunding(s, n, input, c);
      FreeAfterFunding(s, n, input, c);
      if EnoughFunds(n, input, c, limits) {
        FundedReservation(s, n, input, c, limits, scale);
        ServeKeepsSound(t, ReserveRun(n, input, c, limits, scale));
      }
    }
  }

  lemma FreeAfterFunding(s: Store, n: Names, input: RunInput, c: RunConfig)
    ensures Free(AfterFunding(s, n, input, c), QuoteKey(n, input)) == QuoteFunds(n, input, c)
    ensures Free(AfterFunding(s, n, input, c), BaseKey(n, input)) == c.initialBaseBalance
  {
  }
}
