/** One simulated leg's way through the order core: submission, confirmation and its single trade
    (crates/core/src/simulation.rs). */
module SimulatedOrders {
  import opened Common
  import opened Text
  import opened OrderModel
  import opened OrderHistory
  import SimulateLeg
  import OrderCore
  import SimRng

  datatype Confirmation = AcceptedAs(exchangeOrderId: string) | UnknownUnrecoverable

  datatype SubmitConfig = SubmitConfig(unknownSubmitProbabilityBps: real, queryFoundProbabilityBps: real)

  datatype LegError = OrderFailed(order: OrderError) | BpsOutOfRange

  datatype Confirmed = Confirmed(outcome: Confirmation, unknownTried: bool, queryFound: bool)

  const VISIBILITY_MS: nat := 60000
  const TIMEOUT_REASON := "simulated transport timeout"

  predicate ValidProbabilities(config: SubmitConfig) {
    && 0.0 <= config.unknownSubmitProbabilityBps <= BPS_DENOMINATOR
    && 0.0 <= config.queryFoundProbabilityBps <= BPS_DENOMINATOR
  }

  /** Rounding to a whole number of basis points, halves to the even neighbour. */
  function RoundHalfEven(x: real): int {
    var f := x.Floor;
    var rest := x - f as real;
    if rest < 0.5 || (rest == 0.5 && f % 2 == 0) then f else f + 1
  }

  function BpsToU64(bps: real): Result<nat, LegError> {
    var n := RoundHalfEven(bps);
    if 0 <= n <= I64_MAX then Ok(n) else Err(BpsOutOfRange)
  }

  /** Both probabilities convert to whole basis points. */
  predicate UsableProbabilities(config: SubmitConfig) {
    BpsToU64(config.unknownSubmitProbabilityBps).Ok? && BpsToU64(config.queryFoundProbabilityBps).Ok?
  }

  lemma ValidProbabilitiesAreUsable(config: SubmitConfig)
    requires ValidProbabilities(config)
    ensures UsableProbabilities(config)
  {
  }

  function ExchangeId(runId: string, leg: string): string { runId + "-" + leg + "-exc" }

  function QueryId(runId: string, leg: string): string { runId + "-" + leg + "-query" }

  function TradeId(runId: string, leg: string): string { runId + "-" + leg + "-trade" }

  /** What the seeded draws decide for one submission: whether it times out, and whether the lookup
      then finds the order. */
  datatype Rolls = Rolls(unknown: bool, found: bool) {
    function Draws(): nat { if unknown then 2 else 1 }

    function Outcome(exchangeOrderId: string): Confirmation {
      if unknown && !found then UnknownUnrecoverable else AcceptedAs(exchangeOrderId)
    }
  }

  function Roll(seed: nat, n: nat, bps: real): bool {
    SimRng.InRange(SimRng.Draw(seed, n), 0, BPS_RANGE) < RoundHalfEven(bps)
  }

  function RollsAt(seed: nat, n: nat, config: SubmitConfig): Rolls {
    var unknown := Roll(seed, n, config.unknownSubmitProbabilityBps);
    Rolls(unknown, unknown && Roll(seed, n + 1, config.queryFoundProbabilityBps))
  }

  /** The answer of a lookup that the store refuses, if it does. */
  function LookupRefusal(facts: map<string, OrderFact>, queries: set<string>, intent: string, venue: string, exchangeId: string,
                         queryId: string, found: bool, deadlineMs: nat): Option<OrderError> {
    if !found && deadlineMs > I64_MAX then Some(InvalidInput)
    else if queryId in queries || (found && IdTaken(facts, intent, venue, exchangeId)) then Some(StoreRejected)
    else None
  }

  /** Why the store refuses a submission, if it does: a taken identifier or an unstorable deadline. */
  function SubmitRefusal(facts: map<string, OrderFact>, queries: set<string>, intent: string, venue: string, exchangeId: string,
                         queryId: string, rolls: Rolls, deadlineMs: nat): Option<OrderError> {
    if rolls.unknown then LookupRefusal(facts, queries, intent, venue, exchangeId, queryId, rolls.found, deadlineMs)
    else if IdTaken(facts, intent, venue, exchangeId) then Some(StoreRejected)
    else None
  }

  /** The row of an intent that has been submitted and confirmed, and not traded. */
  predicate SubmittedAs(row: OrderFact, intent: IntentRow, outcome: Confirmation) {
    && row.domain == intent.domain && row.venue == intent.venue && row.orderedQuantity == intent.quantity
    && row.filledQuantity == 0.0 && row.reconciliation == Pending && row.cancel == NoCancel
    && match outcome
       case AcceptedAs(id) => row.submission == Accepted && row.exchangeOrderId == Some(id)
       case UnknownUnrecoverable => row.submission == SubmissionUnknown && row.exchangeOrderId == None
  }

  /** Only this intent's row differs. */
  predicate OthersKept(before: map<string, OrderFact>, after: map<string, OrderFact>, intent: string) {
    && after.Keys == before.Keys + {intent}
    && forall id | id in before && id != intent :: after[id] == before[id]
  }

  // ---------------------------------------------------------------- single calls

  lemma EnsureFresh(t: OrderTables, intents: map<string, IntentRow>, domain: (string, string), id: string)
    requires t.facts.Keys == t.log.Keys && ValidId(id) && id !in t.facts
    requires id in intents && intents[id].domain == domain
    ensures Ensure(t, intents, domain, id) ==
            (t.(facts := t.facts[id := NewRow(id, intents[id])], log := t.log[id := []]), Ok(NewRow(id, intents[id])))
  {
    hide ValidId;
  }

  /** A call whose guard accepts, on a row of the own domain, commits and returns the new row. */
  lemma ExecuteAccepted(t: OrderTables, domain: (string, string), id: string, cmd: Command)
    requires t.facts.Keys == t.log.Keys && id in t.facts && t.facts[id].domain == domain && InputOk(id, cmd)
    ensures match Transact(t, t.facts[id], cmd)
            case Err(e) => Execute(t, domain, id, cmd) == (t, Err(e))
            case Ok(c) =>
              && c.row.domain == domain
              && (!c.conflict ==> Execute(t, domain, id, cmd) == (Committed(t, id, c), Ok(c.row)))
  {
    hide ValidId, InputOk, IdTaken, Stored, FitsColumns, ValidDigest, ValidTrade;
  }

  lemma TimeoutReasonIsValid()
    ensures ValidId(TIMEOUT_REASON)
  {
    hide Trim;
    ValidIdMeans(TIMEOUT_REASON);
  }

  lemma OthersKeptTransitive(a: map<string, OrderFact>, b: map<string, OrderFact>, c: map<string, OrderFact>, id: string)
    requires OthersKept(a, b, id) && OthersKept(b, c, id)
    ensures OthersKept(a, c, id)
  {
  }

  lemma IdTakenKept(a: map<string, OrderFact>, b: map<string, OrderFact>, intent: string, venue: string, id: string)
    requires OthersKept(a, b, intent)
    ensures IdTaken(a, intent, venue, id) <==> IdTaken(b, intent, venue, id)
  {
    if IdTaken(a, intent, venue, id) {
      var other :| other in a && other != intent && a[other].venue == venue && a[other].exchangeOrderId == Some(id);
      assert other in b && b[other] == a[other];
    }
    if IdTaken(b, intent, venue, id) {
      var other :| other in b && other != intent && b[other].venue == venue && b[other].exchangeOrderId == Some(id);
      assert other in a && b[other] == a[other];
    }
  }

  /** One accepted command on an own intent: what every later step may rely on. */
  lemma StepOnIntent(t: OrderTables, domain: (string, string), id: string, cmd: Command)
    requires Inv(t) && id in t.facts && t.facts[id].domain == domain && InputOk(id, cmd)
    requires Transact(t, t.facts[id], cmd).Ok? && !Transact(t, t.facts[id], cmd).value.conflict
    ensures var c := Transact(t, t.facts[id], cmd).value;
            var t' := Execute(t, domain, id, cmd).0;
            && Execute(t, domain, id, cmd).1 == Ok(c.row)
            && Inv(t') && id in t'.facts && t'.facts[id] == c.row && c.row.domain == domain
            && OthersKept(t.facts, t'.facts, id)
            && t'.trades == (if c.trade.Some? then t.trades + [TradeFact(id, c.trade.value)] else t.trades)
            && t'.queries == (if c.query.Some? then t.queries + {c.query.value} else t.queries)
  {
    hide GoodRow, UniqueIds, GoodTrades, Transact, InputOk, Execute;
    ExecuteAccepted(t, domain, id, cmd);
    ExecuteKeepsInv(t, domain, id, cmd);
  }

  // ---------------------------------------------------------------- submission

  /** What the steps of a submission leave alone: other rows, all trades, and all queries but one. */
  ghost predicate Submitting(before: OrderTables, after: OrderTables, intent: string, queryId: string) {
    && Inv(after) && intent in after.facts && OthersKept(before.facts, after.facts, intent)
    && after.trades == before.trades && before.queries <= after.queries <= before.queries + {queryId}
  }

  lemma SubmittingExtends(a: OrderTables, b: OrderTables, domain: (string, string), intent: string, cmd: Command, queryId: string)
    requires Submitting(a, b, intent, queryId) && InputOk(intent, cmd) && b.facts[intent].domain == domain
    requires Transact(b, b.facts[intent], cmd).Ok?
    requires var c := Transact(b, b.facts[intent], cmd).value;
             !c.conflict && c.trade.None? && (c.query.Some? ==> c.query.value == queryId)
    ensures var c := Transact(b, b.facts[intent], cmd).value;
            var e := Execute(b, domain, intent, cmd);
            Submitting(a, e.0, intent, queryId) && e.1 == Ok(c.row) && e.0.facts[intent] == c.row && c.row.domain == domain
  {
    InvKeys(b);
    hide Inv, Transact, Execute, InputOk, OthersKept;
    StepOnIntent(b, domain, intent, cmd);
    OthersKeptTransitive(a.facts, b.facts, Execute(b, domain, intent, cmd).0.facts, intent);
  }

  function Actions(log: seq<ActionFact>): (actions: seq<Action>)
    ensures |actions| == |log| && forall i | 0 <= i < |log| :: actions[i] == log[i].action
  {
    seq(|log|, i requires 0 <= i < |log| => log[i].action)
  }

  /** What an accepted command adds to its intent's log and to the queries. */
  lemma StepLogs(t: OrderTables, domain: (string, string), id: string, cmd: Command)
    requires t.facts.Keys == t.log.Keys && id in t.facts && t.facts[id].domain == domain && InputOk(id, cmd)
    requires Transact(t, t.facts[id], cmd).Ok? && !Transact(t, t.facts[id], cmd).value.conflict
    ensures var c := Transact(t, t.facts[id], cmd).value;
            var t' := Execute(t, domain, id, cmd).0;
            && Actions(t'.log[id]) == Actions(t.log[id]) + [c.action]
            && t'.queries == (if c.query.Some? then t.queries + {c.query.value} else t.queries)
  {
    hide InputOk, Transact, Execute;
    ExecuteAccepted(t, domain, id, cmd);
  }

  /** The log of an intent that was submitted and confirmed as its rolls decided. */
  function ConfirmationLog(digest: string, rolls: Rolls, exchangeId: string, queryId: string, deadlineMs: nat): seq<Action> {
    [SubmitStarted(digest)]
    + (if !rolls.unknown then [SubmitAccepted(exchangeId)]
       else [SubmitUnknown(TIMEOUT_REASON), if rolls.found then QueryFound(exchangeId) else QueryNotFound(queryId, deadlineMs)])
  }

  /** A confirmation leaves that log, and its query id if it needed a lookup. */
  predicate LoggedAs(log: seq<ActionFact>, before: set<string>, after: set<string>, digest: string, rolls: Rolls, exchangeId: string,
                     queryId: string, deadlineMs: nat) {
    && Actions(log) == ConfirmationLog(digest, rolls, exchangeId, queryId, deadlineMs)
    && after == before + (if rolls.unknown then {queryId} else {})
  }

  /** A row in flight, before any answer. */
  predicate InFlightRow(row: OrderFact, intent: IntentRow) {
    && row.submission == InFlight && row.domain == intent.domain && row.venue == intent.venue
    && row.orderedQuantity == intent.quantity && row.filledQuantity == 0.0 && row.reconciliation == Pending
    && row.cancel == NoCancel && row.exchangeOrderId == None
  }

  method BeginSubmission(order: OrderCore.OrderCore, intents: map<string, IntentRow>, intent: string, digest: string, ghost queryId: string)
    requires order.Valid() && Inv(order.Tables()) && ValidId(intent) && ValidDigest(digest)
    requires intent in intents && intents[intent].domain == order.domain && intents[intent].quantity > 0.0
    requires intent !in order.facts
    modifies order
    ensures order.Valid() && Submitting(old(order.Tables()), order.Tables(), intent, queryId)
    ensures InFlightRow(order.facts[intent], intents[intent]) && order.facts[intent].intentId == intent
    ensures order.queries == old(order.queries) && Actions(order.log[intent]) == [SubmitStarted(digest)]
  {
    hide Inv, ValidId, ValidDigest, OthersKept, Execute, Ensure;
    ghost var t0 := order.Tables();
    var row := NewRow(intent, intents[intent]);
    InvKeys(t0);
    EnsureFresh(t0, intents, order.domain, intent);
    EnsureKeepsInv(t0, intents, order.domain, intent);
    EnsuredOthersKept(t0.facts, intent, row);
    var made := order.EnsureIntent(intents, intent);
    ghost var t1 := order.Tables();
    assert Transact(t1, row, StartSubmit(digest)) ==
           Ok(Commit(row.(submission := InFlight, lastFactVersion := 1), SubmitStarted(digest), None, None, false));
    SubmittingExtends(t0, t1, order.domain, intent, StartSubmit(digest), queryId);
    StepLogs(t1, order.domain, intent, StartSubmit(digest));
    var started := order.StartSubmission(intent, digest);
  }

  /** The submission is accepted at once; only a taken exchange id can refuse it. */
  method AcceptSubmission(order: OrderCore.OrderCore, ghost before: OrderTables, ghost row: IntentRow, intent: string, exchangeId: string,
                          ghost queryId: string)
    returns (r: Result<OrderFact, OrderError>)
    requires order.Valid() && Submitting(before, order.Tables(), intent, queryId) && ValidId(exchangeId)
    requires InFlightRow(order.facts[intent], row) && row.domain == order.domain && order.facts[intent].intentId == intent
    modifies order
    ensures order.Valid() && Submitting(before, order.Tables(), intent, queryId)
    ensures r.Ok? ==>
              && SubmittedAs(order.facts[intent], row, AcceptedAs(exchangeId)) && order.queries == old(order.queries)
              && Actions(order.log[intent]) == Actions(old(order.log[intent])) + [SubmitAccepted(exchangeId)]
    ensures r.Err? <==> IdTaken(before.facts, intent, row.venue, exchangeId)
    ensures r.Err? ==> r.error == StoreRejected
  {
    hide Inv, ValidId, OthersKept, Execute, IdTaken;
    ghost var t := order.Tables();
    ghost var cmd := FinishSubmit(ResultAccepted(exchangeId));
    SubmittingKeys(before, t, intent, queryId);
    IdTakenKept(before.facts, t.facts, intent, row.venue, exchangeId);
    ExecuteAccepted(t, order.domain, intent, cmd);
    if !IdTaken(t.facts, intent, row.venue, exchangeId) {
      SubmittingExtends(before, t, order.domain, intent, cmd, queryId);
      StepLogs(t, order.domain, intent, cmd);
    }
    r := order.FinishSubmission(intent, ResultAccepted(exchangeId));
  }

  lemma SubmittingKeys(before: OrderTables, after: OrderTables, intent: string, queryId: string)
    requires Submitting(before, after, intent, queryId)
    ensures after.facts.Keys == after.log.Keys && intent in after.facts
  {
  }

  /** The submission times out and the order is looked up once. */
  method ResolveUnknown(order: OrderCore.OrderCore, ghost before: OrderTables, ghost row: IntentRow, intent: string, exchangeId: string,
                        queryId: string, found: bool, deadlineMs: nat)
    returns (r: Result<OrderFact, OrderError>)
    requires order.Valid() && Submitting(before, order.Tables(), intent, queryId) && ValidId(exchangeId) && ValidId(queryId)
    requires InFlightRow(order.facts[intent], row) && row.domain == order.domain && order.facts[intent].intentId == intent
    requires order.queries == before.queries
    modifies order
    ensures order.Valid() && Submitting(before, order.Tables(), intent, queryId)
    ensures r.Ok? ==>
              && SubmittedAs(order.facts[intent], row, if found then AcceptedAs(exchangeId) else UnknownUnrecoverable)
              && order.queries == old(order.queries) + {queryId}
              && Actions(order.log[intent]) == Actions(old(order.log[intent]))
                 + [SubmitUnknown(TIMEOUT_REASON), if found then QueryFound(exchangeId) else QueryNotFound(queryId, deadlineMs)]
    ensures var refusal := LookupRefusal(before.facts, before.queries, intent, row.venue, exchangeId, queryId, found, deadlineMs);
            if refusal.Some? then r == Err(refusal.value) else r.Ok?
  {
    hide Inv, ValidId, OthersKept, Execute, IdTaken, Submitting;
    ghost var t := order.Tables();
    SubmittingKeys(before, t, intent, queryId);
    TimeoutReasonIsValid();
    UnknownRow(t, t.facts[intent], row);
    ghost var cmd := FinishSubmit(ResultUnknown(TIMEOUT_REASON));
    SubmittingExtends(before, t, order.domain, intent, cmd, queryId);
    StepLogs(t, order.domain, intent, cmd);
    var unknown := order.FinishSubmission(intent, ResultUnknown(TIMEOUT_REASON));
    r := QueryUnknown(order, before, row, intent, exchangeId, queryId, found, deadlineMs);
  }

  lemma UnknownRow(t: OrderTables, r: OrderFact, row: IntentRow)
    requires InFlightRow(r, row) && ValidId(TIMEOUT_REASON)
    ensures var c := Transact(t, r, FinishSubmit(ResultUnknown(TIMEOUT_REASON)));
            c.Ok? && SubmittedAs(c.value.row, row, UnknownUnrecoverable) && c.value.row.intentId == r.intentId
            && c.value.trade.None? && c.value.query.None? && !c.value.conflict
  {
    hide ValidId;
  }

  method QueryUnknown(order: OrderCore.OrderCore, ghost before: OrderTables, ghost row: IntentRow, intent: string, exchangeId: string,
                      queryId: string, found: bool, deadlineMs: nat)
    returns (r: Result<OrderFact, OrderError>)
    requires order.Valid() && Submitting(before, order.Tables(), intent, queryId) && ValidId(exchangeId) && ValidId(queryId)
    requires SubmittedAs(order.facts[intent], row, UnknownUnrecoverable) && row.domain == order.domain && order.facts[intent].intentId == intent
    requires order.queries == before.queries
    modifies order
    ensures order.Valid() && Submitting(before, order.Tables(), intent, queryId)
    ensures r.Ok? ==>
              && SubmittedAs(order.facts[intent], row, if found then AcceptedAs(exchangeId) else UnknownUnrecoverable)
              && order.queries == old(order.queries) + {queryId}
              && Actions(order.log[intent]) == Actions(old(order.log[intent]))
                 + [if found then QueryFound(exchangeId) else QueryNotFound(queryId, deadlineMs)]
    ensures var refusal := LookupRefusal(before.facts, before.queries, intent, row.venue, exchangeId, queryId, found, deadlineMs);
            if refusal.Some? then r == Err(refusal.value) else r.Ok?
  {
    hide Inv, ValidId, OthersKept, Execute, IdTaken;
    ghost var t := order.Tables();
    var answer := if found then Found(queryId, exchangeId) else NotFound(queryId, deadlineMs);
    SubmittingKeys(before, t, intent, queryId);
    IdTakenKept(before.facts, t.facts, intent, row.venue, exchangeId);
    ExecuteAccepted(t, order.domain, intent, Query(answer));
    if Transact(t, t.facts[intent], Query(answer)).Ok? {
      SubmittingExtends(before, t, order.domain, intent, Query(answer), queryId);
      StepLogs(t, order.domain, intent, Query(answer));
    }
    r := order.RecordQuery(intent, answer);
  }

  /** Submits an intent that has just been reserved. No guard of the order core can refuse: it fails
      exactly for an identifier already taken in the store or an unstorable deadline. */
  method SubmitAndConfirm(order: OrderCore.OrderCore, intents: map<string, IntentRow>, runId: string, intent: string, leg: string,
                          digest: string, evaluatedAtMs: nat, rng: SimRng.SimRng, config: SubmitConfig)
    returns (r: Result<Confirmed, LegError>)
    requires order.Valid() && Inv(order.Tables()) && rng.Valid() && ValidId(intent) && ValidDigest(digest)
    requires intent in intents && intents[intent].domain == order.domain && intents[intent].quantity > 0.0
    requires intent !in order.facts
    requires ValidId(ExchangeId(runId, leg)) && ValidId(QueryId(runId, leg))
    modifies order, rng
    ensures order.Valid() && rng.Valid() && rng.seed == old(rng.seed)
    ensures Submitting(old(order.Tables()), order.Tables(), intent, QueryId(runId, leg))
    ensures var rolls := RollsAt(old(rng.seed), old(rng.draws), config);
            var refusal := SubmitRefusal(old(order.facts), old(order.queries), intent, intents[intent].venue, ExchangeId(runId, leg),
                                         QueryId(runId, leg), rolls, evaluatedAtMs + VISIBILITY_MS);
            if UsableProbabilities(config) then
              && rng.draws == old(rng.draws) + rolls.Draws()
              && r == (if refusal.Some? then Err(OrderFailed(refusal.value))
                       else Ok(Confirmed(rolls.Outcome(ExchangeId(runId, leg)), rolls.unknown, rolls.found)))
            else r == Err(BpsOutOfRange)
    ensures r.Ok? ==>
              var rolls := RollsAt(old(rng.seed), old(rng.draws), config);
              && SubmittedAs(order.facts[intent], intents[intent], r.value.outcome)
              && LoggedAs(order.log[intent], old(order.queries), order.queries, digest, rolls, ExchangeId(runId, leg), QueryId(runId, leg),
                          evaluatedAtMs + VISIBILITY_MS)
  {
    hide Inv, ValidId, ValidDigest, IdTaken, Submitting, SubmittedAs, InFlightRow, SimRng.Draw;
    var exchangeId, queryId := ExchangeId(runId, leg), QueryId(runId, leg);
    ghost var before, row := order.Tables(), intents[intent];
    BeginSubmission(order, intents, intent, digest, queryId);
    var unknownProb, foundProb := BpsToU64(config.unknownSubmitProbabilityBps), BpsToU64(config.queryFoundProbabilityBps);
    if unknownProb.Err? || foundProb.Err? {
      return Err(BpsOutOfRange);
    }
    var roll := rng.GenRangeU64(0, BPS_RANGE);
    var answer;
    if roll >= unknownProb.value {
      answer := AcceptSubmission(order, before, row, intent, exchangeId, queryId);
      return if answer.Err? then Err(OrderFailed(answer.error)) else Ok(Confirmed(AcceptedAs(exchangeId), false, false));
    }
    roll := rng.GenRangeU64(0, BPS_RANGE);
    var found := roll < foundProb.value;
    answer := ResolveUnknown(order, before, row, intent, exchangeId, queryId, found, evaluatedAtMs + VISIBILITY_MS);
    return if answer.Err? then Err(OrderFailed(answer.error))
           else Ok(Confirmed(if found then AcceptedAs(exchangeId) else UnknownUnrecoverable, true, found));
  }

  lemma InvKeys(t: OrderTables)
    requires Inv(t)
    ensures t.facts.Keys == t.log.Keys
  {
  }

  lemma EnsuredOthersKept(facts: map<string, OrderFact>, id: string, row: OrderFact)
    ensures OthersKept(facts, facts[id := row], id)
  {
  }

  // ---------------------------------------------------------------- the trade

  /** The row of a leg after its fill was booked, or left out because its order was never found. */
  predicate BookedAs(row: OrderFact, intent: IntentRow, outcome: Confirmation, filled: real) {
    && row.domain == intent.domain && row.venue == intent.venue && row.orderedQuantity == intent.quantity
    && row.filledQuantity == (if outcome.AcceptedAs? then filled else 0.0)
    && row.reconciliation == (if outcome.AcceptedAs? && filled > 0.0 then Matched else Pending)
    && row.submission == (if outcome.AcceptedAs? then Accepted else SubmissionUnknown)
    && row.exchangeOrderId == (if outcome.AcceptedAs? then Some(outcome.exchangeOrderId) else None)
  }

  lemma {:induction false} NothingBookedMeansNoTrade(facts: map<string, OrderFact>, trades: seq<TradeFact>, id: string)
    requires AllOwned(facts, trades)
    ensures Booked(trades, id) >= 0.0
    ensures Booked(trades, id) == 0.0 ==> forall k | 0 <= k < |trades| :: trades[k].intentId != id
  {
    hide ValidId;
    if trades != [] {
      var n := |trades| - 1;
      assert Owned(facts, trades[n]);
      forall k | 0 <= k < n ensures Owned(facts, trades[..n][k]) {
        assert Owned(facts, trades[k]);
      }
      NothingBookedMeansNoTrade(facts, trades[..n], id);
      assert forall k | 0 <= k < n :: trades[..n][k] == trades[k];
    }
  }

  /** An accepted order without fills has no stored trade, so its first trade is always new. */
  lemma FirstTradeIsNew(t: OrderTables, id: string, trade: TradeInput)
    requires Inv(t) && id in t.facts && t.facts[id].filledQuantity == 0.0
    requires t.facts[id].venue == trade.venue && t.facts[id].exchangeOrderId == Some(trade.exchangeOrderId)
    ensures Stored(t.trades, trade) == None
  {
    hide GoodLog, Replay, HasAcceptance, ValidTrade, Stored, Booked;
    assert GoodRow(t.facts[id], t.log[id], Booked(t.trades, id));
    NothingBookedMeansNoTrade(t.facts, t.trades, id);
    StoredFinds(t.trades, trade);
    forall k | 0 <= k < |t.trades| ensures !SameKey(t.trades[k].trade, trade) {
      assert Owned(t.facts, t.trades[k]);
    }
  }

  function FillTrade(venue: string, exchangeId: string, runId: string, leg: string, fill: SimulateLeg.SimLegResult, fee: real,
                     feeAsset: string, occurredAtMs: nat, scale: real -> nat): TradeInput {
    TradeInput(venue, exchangeId, TradeId(runId, leg), Amount(fill.filled, scale(fill.filled)), Amount(fill.avgPrice, scale(fill.avgPrice)),
               feeAsset, Amount(fee, scale(fee)), 1, occurredAtMs)
  }

  /** What booking a trade that is not yet stored commits. */
  lemma NewTradeCommits(t: OrderTables, row: OrderFact, trade: TradeInput)
    requires row.exchangeOrderId == Some(trade.exchangeOrderId) && row.venue == trade.venue && Stored(t.trades, trade) == None
    ensures var filled := row.filledQuantity + trade.quantity.value;
            Transact(t, row, RecordTrade(trade)) ==
            if !FitsColumns(trade) then Err(StoreRejected)
            else Ok(Commit(row.(lastFactVersion := row.lastFactVersion + 1, filledQuantity := filled,
                                reconciliation := Reconciled(filled, row.orderedQuantity)),
                           TradeRecorded(trade.tradeId, trade.quantity.value), Some(trade), None, false))
  {
    hide Stored, FitsColumns, IdTaken, ValidId;
  }

  lemma TradeOutcome(t: OrderTables, id: string, row: IntentRow, exchangeId: string, trade: TradeInput)
    requires Inv(t) && id in t.facts && SubmittedAs(t.facts[id], row, AcceptedAs(exchangeId))
    requires trade.venue == row.venue && trade.exchangeOrderId == exchangeId && 0.0 < trade.quantity.value <= row.quantity
    ensures var e := Transact(t, t.facts[id], RecordTrade(trade));
            && (FitsColumns(trade) ==>
                  e.Ok? && !e.value.conflict && e.value.trade == Some(trade) && e.value.query.None?
                  && BookedAs(e.value.row, row, AcceptedAs(exchangeId), trade.quantity.value))
            && (!FitsColumns(trade) ==> e == Err(StoreRejected))
  {
    hide Inv, Stored, FitsColumns, Transact;
    RowMatches(t, id, row, exchangeId);
    hide SubmittedAs;
    FirstTradeIsNew(t, id, trade);
    NewTradeCommits(t, t.facts[id], trade);
  }

  lemma RowMatches(t: OrderTables, id: string, row: IntentRow, exchangeId: string)
    requires Inv(t) && id in t.facts && SubmittedAs(t.facts[id], row, AcceptedAs(exchangeId))
    ensures var r := t.facts[id];
            && r.domain == row.domain && r.venue == row.venue && r.orderedQuantity == row.quantity
            && r.filledQuantity == 0.0 && r.submission == Accepted && r.exchangeOrderId == Some(exchangeId)
  {
    hide Inv;
  }

  /** Why booking a leg is refused, if it is: a price that rounded to nothing, or an unstorable time. */
  function BookRefusal(outcome: Confirmation, fill: SimulateLeg.SimLegResult, occurredAtMs: nat): Option<OrderError> {
    if outcome.UnknownUnrecoverable? || fill.filled <= 0.0 then None
    else if fill.avgPrice <= 0.0 then Some(InvalidInput)
    else if occurredAtMs > I64_MAX then Some(StoreRejected)
    else None
  }

  /** Fees are charged on what is booked. */
  function BookedFee(outcome: Confirmation, fill: SimulateLeg.SimLegResult, feeRate: real): real {
    if outcome.AcceptedAs? && fill.filled > 0.0 then Times(fill.quoteAmount, feeRate) else 0.0
  }

  /** The trade a leg leaves in the store: one for all it filled, if its order was confirmed. */
  function LegTrades(venue: string, outcome: Confirmation, runId: string, intent: string, leg: string, fill: SimulateLeg.SimLegResult,
                     feeRate: real, feeAsset: string, occurredAtMs: nat, scale: real -> nat): seq<TradeFact> {
    if outcome.AcceptedAs? && fill.filled > 0.0 then
      [TradeFact(intent, FillTrade(venue, outcome.exchangeOrderId, runId, leg, fill, BookedFee(outcome, fill, feeRate), feeAsset, occurredAtMs, scale))]
    else []
  }

  /** Books the fill of a confirmed leg as one trade. The guards on identity, quantity and
      uniqueness always pass: it fails exactly for a price that rounded to nothing or a time
      that does not fit its column. */
  method BookFill(order: OrderCore.OrderCore, row: IntentRow, runId: string, intent: string, leg: string, outcome: Confirmation,
                  fill: SimulateLeg.SimLegResult, feeRate: real, feeAsset: string, occurredAtMs: nat, scale: real -> nat)
    returns (r: Result<real, OrderError>)
    requires order.Valid() && Inv(order.Tables()) && intent in order.facts && row.domain == order.domain
    requires SubmittedAs(order.facts[intent], row, outcome)
    requires outcome.AcceptedAs? ==> ValidId(outcome.exchangeOrderId)
    requires ValidId(row.venue) && ValidId(TradeId(runId, leg)) && ValidId(feeAsset)
    requires 0.0 <= fill.filled <= row.quantity && fill.quoteAmount >= 0.0 && feeRate >= 0.0
    modifies order
    ensures order.Valid() && Inv(order.Tables()) && OthersKept(old(order.facts), order.facts, intent) && order.queries == old(order.queries)
    ensures var refusal := BookRefusal(outcome, fill, occurredAtMs);
            r == if refusal.Some? then Err(refusal.value) else Ok(BookedFee(outcome, fill, feeRate))
    ensures r.Ok? ==> BookedAs(order.facts[intent], row, outcome, fill.filled)
    ensures order.trades == old(order.trades)
              + (if r.Ok? then LegTrades(row.venue, outcome, runId, intent, leg, fill, feeRate, feeAsset, occurredAtMs, scale) else [])
  {
    hide Inv, ValidId, Execute, Transact, Times;
    ghost var t := order.Tables();
    if outcome.UnknownUnrecoverable? || fill.filled <= 0.0 {
      return Ok(0.0);
    }
    var fee := Times(fill.quoteAmount, feeRate);
    TimesSign(fill.quoteAmount, feeRate);
    var trade := FillTrade(row.venue, outcome.exchangeOrderId, runId, leg, fill, fee, feeAsset, occurredAtMs, scale);
    InvKeys(t);
    TradeOutcome(t, intent, row, outcome.exchangeOrderId, trade);
    if ValidTrade(trade) {
      ExecuteAccepted(t, order.domain, intent, RecordTrade(trade));
      if FitsColumns(trade) {
        StepOnIntent(t, order.domain, intent, RecordTrade(trade));
      }
    } else {
      InvalidTradeRefused(t, order.domain, intent, trade);
    }
    var booked := order.BookTrade(intent, trade);
    return if booked.Err? then Err(booked.error) else Ok(fee);
  }

  lemma InvalidTradeRefused(t: OrderTables, domain: (string, string), id: string, trade: TradeInput)
    requires t.facts.Keys == t.log.Keys && !ValidTrade(trade)
    ensures Execute(t, domain, id, RecordTrade(trade)) == (t, Err(InvalidInput))
  {
  }
}
