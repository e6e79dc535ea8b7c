/** The order core's methods, each one transaction over the tables (crates/core/src/order.rs). */
module OrderCore {
  import opened Common
  import opened Text
  import opened OrderModel

  class OrderCore {
    const domain: (string, string)
    var facts: map<string, OrderFact>
    var log: map<string, seq<ActionFact>>
    var trades: seq<TradeFact>
    var queries: set<string>

    predicate Valid()
      reads this
    {
      facts.Keys == log.Keys && forall id | id in facts :: facts[id].intentId == id
    }

    function Tables(): OrderTables
      reads this
    {
      OrderTables(facts, log, trades, queries)
    }

    constructor (domain: (string, string))
      ensures Valid() && this.domain == domain
      ensures Tables() == OrderTables(map[], map[], [], {})
    {
      this.domain := domain;
      facts, log, trades, queries := map[], map[], [], {};
    }

    method AppendAction(intent: string, version: nat, action: Action)
      requires intent in log
      modifies this`log
      ensures log == old(log)[intent := old(log)[intent] + [ActionFact(version, action)]]
    {
      log := log[intent := log[intent] + [ActionFact(version, action)]];
    }

    method LoadFact(intent: string) returns (r: Result<OrderFact, OrderError>)
      ensures r == Load(Tables(), domain, intent)
    {
      if intent !in facts {
        return Err(FactMissing);
      }
      return if facts[intent].domain == domain then Ok(facts[intent]) else Err(OutsideDomain);
    }

    /** Materialises an intent's row from the reserved intents of the plan tables. */
    method EnsureIntent(intents: map<string, IntentRow>, intent: string) returns (r: Result<OrderFact, OrderError>)
      requires Valid()
      modifies this`facts, this`log
      ensures Valid() && (Tables(), r) == Ensure(old(Tables()), intents, domain, intent)
    {
      if !ValidId(intent) {
        return Err(InvalidInput);
      }
      if intent in intents && intents[intent].domain == domain && intent !in facts {
        facts := facts[intent := NewRow(intent, intents[intent])];
        log := log[intent := []];
      }
      r := LoadFact(intent);
    }

    method StartSubmission(intent: string, digest: string) returns (r: Result<OrderFact, OrderError>)
      requires Valid()
      modifies this`facts, this`log
      ensures Valid() && (Tables(), r) == Execute(old(Tables()), domain, intent, StartSubmit(digest))
    {
      if !ValidId(intent) || !ValidDigest(digest) {
        return Err(InvalidInput);
      }
      if intent !in facts {
        return Err(FactMissing);
      }
      var current := facts[intent];
      if current.submission != NotSent {
        return Err(WrongState);
      }
      var version := current.lastFactVersion + 1;
      facts := facts[intent := current.(submission := InFlight, lastFactVersion := version)];
      AppendAction(intent, version, SubmitStarted(digest));
      r := LoadFact(intent);
    }

    method FinishSubmission(intent: string, result: SubmitResult) returns (r: Result<OrderFact, OrderError>)
      requires Valid()
      modifies this`facts, this`log
      ensures Valid() && (Tables(), r) == Execute(old(Tables()), domain, intent, FinishSubmit(result))
    {
      if intent !in facts {
        return Err(FactMissing);
      }
      var current := facts[intent];
      if current.submission != InFlight {
        return Err(WrongState);
      }
      var status, action, orderId, error;
      match result {
        case ResultAccepted(id) =>
          if !ValidId(id) { return Err(InvalidInput); }
          status, action, orderId, error := Accepted, SubmitAccepted(id), Some(id), None;
        case ResultRejected(reason) =>
          if !ValidId(reason) { return Err(InvalidInput); }
          status, action, orderId, error := DefinitelyRejected, SubmitRejected(reason), None, Some(reason);
        case ResultUnknown(reason) =>
          if !ValidId(reason) { return Err(InvalidInput); }
          status, action, orderId, error := SubmissionUnknown, SubmitUnknown(reason), None, Some(reason);
      }
      if orderId.Some? && IdTaken(facts, intent, current.venue, orderId.value) {
        return Err(StoreRejected);
      }
      var version := current.lastFactVersion + 1;
      facts := facts[intent := current.(submission := status, exchangeOrderId := Coalesce(orderId, current.exchangeOrderId),
                                        lastError := error, lastFactVersion := version)];
      AppendAction(intent, version, action);
      r := LoadFact(intent);
    }

    method RecordQuery(intent: string, answer: QueryResult) returns (r: Result<OrderFact, OrderError>)
      requires Valid()
      modifies this`facts, this`log, this`queries
      ensures Valid() && (Tables(), r) == Execute(old(Tables()), domain, intent, Query(answer))
    {
      if intent !in facts {
        return Err(FactMissing);
      }
      var current := facts[intent];
      if current.submission != SubmissionUnknown {
        return Err(WrongState);
      }
      var action, orderId, status;
      match answer {
        case NotFound(queryId, deadline) =>
          action, orderId, status := QueryNotFound(queryId, deadline), None, SubmissionUnknown;
        case Found(queryId, id) =>
          if !ValidId(id) { return Err(InvalidInput); }
          action, orderId, status := QueryFound(id), Some(id), Accepted;
      }
      if !ValidId(answer.queryId) || (answer.NotFound? && answer.visibilityDeadlineMs > I64_MAX) {
        return Err(InvalidInput);
      }
      if answer.queryId in queries {
        return Err(StoreRejected);
      }
      if orderId.Some? && IdTaken(facts, intent, current.venue, orderId.value) {
        return Err(StoreRejected);
      }
      queries := queries + {answer.queryId};
      var version := current.lastFactVersion + 1;
      facts := facts[intent := current.(submission := status, exchangeOrderId := Coalesce(orderId, current.exchangeOrderId),
                                        lastFactVersion := version)];
      AppendAction(intent, version, action);
      r := LoadFact(intent);
    }

    method AskCancel(intent: string) returns (r: Result<OrderFact, OrderError>)
      requires Valid()
      modifies this`facts, this`log
      ensures Valid() && (Tables(), r) == Execute(old(Tables()), domain, intent, RequestCancel)
    {
      if !ValidId(intent) {
        return Err(InvalidInput);
      }
      if intent !in facts {
        return Err(FactMissing);
      }
      var current := facts[intent];
      if current.submission != Accepted || (current.cancel != NoCancel && current.cancel != CancelUnknown) {
        return Err(WrongState);
      }
      var version := current.lastFactVersion + 1;
      facts := facts[intent := current.(cancel := CancelRequested, lastFactVersion := version)];
      AppendAction(intent, version, CancelRequest);
      r := LoadFact(intent);
    }

    method FinishCancellation(intent: string, confirmed: bool) returns (r: Result<OrderFact, OrderError>)
      requires Valid()
      modifies this`facts, this`log
      ensures Valid() && (Tables(), r) == Execute(old(Tables()), domain, intent, FinishCancel(confirmed))
    {
      if intent !in facts {
        return Err(FactMissing);
      }
      var current := facts[intent];
      if current.submission != Accepted || (current.cancel != CancelRequested && current.cancel != CancelUnknown) {
        return Err(WrongState);
      }
      var version := current.lastFactVersion + 1;
      facts := facts[intent := current.(cancel := if confirmed then CancelConfirmed else CancelUnknown, lastFactVersion := version)];
      AppendAction(intent, version, if confirmed then CancelResultConfirmed else CancelResultUnknown);
      r := LoadFact(intent);
    }

    method BookTrade(intent: string, trade: TradeInput) returns (r: Result<OrderFact, OrderError>)
      requires Valid()
      modifies this`facts, this`log, this`trades
      ensures Valid() && (Tables(), r) == Execute(old(Tables()), domain, intent, RecordTrade(trade))
    {
      hide ValidId, ValidTrade, Stored, FitsColumns;
      if !ValidTrade(trade) {
        return Err(InvalidInput);
      }
      if intent !in facts {
        return Err(FactMissing);
      }
      var current := facts[intent];
      if current.exchangeOrderId != Some(trade.exchangeOrderId) || current.venue != trade.venue {
        return Err(IdentityMismatch);
      }
      var existing := Stored(trades, trade);
      var version := current.lastFactVersion + 1;
      if existing.Some? {
        var same := existing.value == trade;
        AppendAction(intent, version, if same then TradeDuplicate(trade.tradeId) else TradeConflict(trade.tradeId));
        if same {
          facts := facts[intent := current.(lastFactVersion := version)];
        } else {
          facts := facts[intent := current.(reconciliation := Conflict, lastFactVersion := version)];
          return Err(TradeReused);
        }
        r := LoadFact(intent);
        return;
      }
      if !FitsColumns(trade) {
        return Err(StoreRejected);
      }
      trades := trades + [TradeFact(intent, trade)];
      var filled := current.filledQuantity + trade.quantity.value;
      var reconciliation := if filled <= current.orderedQuantity then Matched else Conflict;
      facts := facts[intent := current.(filledQuantity := filled, reconciliation := reconciliation, lastFactVersion := version)];
      AppendAction(intent, version, TradeRecorded(trade.tradeId, trade.quantity.value));
      r := LoadFact(intent);
    }
  }
}
