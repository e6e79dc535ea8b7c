/** Order facts: rows, the numbered action log and trade de-duplication (crates/core/src/order.rs).
    This module holds the tables and what one transaction does to them. */
module OrderModel {
  import opened Common
  import opened Text

  datatype Submission = NotSent | InFlight | Accepted | DefinitelyRejected | SubmissionUnknown

  datatype Cancel = NoCancel | CancelRequested | CancelUnknown | CancelConfirmed

  datatype Reconciliation = Pending | Matched | Conflict

  datatype TradeInput = TradeInput(
    venue: string,
    exchangeOrderId: string,
    tradeId: string,
    quantity: Amount,
    price: Amount,
    feeAsset: string,
    feeAmount: Amount,
    sourceSequence: nat,
    occurredAtMs: nat)

  /** One row of `order_facts`. */
  datatype OrderFact = OrderFact(
    intentId: string,
    domain: (string, string),
    venue: string,
    orderedQuantity: real,
    submission: Submission,
    cancel: Cancel,
    reconciliation: Reconciliation,
    exchangeOrderId: Option<string>,
    filledQuantity: real,
    lastFactVersion: nat,
    lastError: Option<string>)

  /** One kind of logged action with its payload. */
  datatype Action =
    | SubmitStarted(digest: string)
    | SubmitAccepted(exchangeOrderId: string)
    | SubmitRejected(reason: string)
    | SubmitUnknown(reason: string)
    | QueryNotFound(queryId: string, visibilityDeadlineMs: nat)
    | QueryFound(exchangeOrderId: string)
    | CancelRequest
    | CancelResultUnknown
    | CancelResultConfirmed
    | TradeRecorded(tradeId: string, quantity: real)
    | TradeDuplicate(tradeId: string)
    | TradeConflict(tradeId: string)

  datatype ActionFact = ActionFact(version: nat, action: Action)

  datatype TradeFact = TradeFact(intentId: string, trade: TradeInput)

  datatype IntentRow = IntentRow(domain: (string, string), venue: string, quantity: real)

  datatype OrderTables = OrderTables(
    facts: map<string, OrderFact>,
    log: map<string, seq<ActionFact>>,
    trades: seq<TradeFact>,
    queries: set<string>)

  datatype SubmitResult = ResultAccepted(exchangeOrderId: string) | ResultRejected(reason: string) | ResultUnknown(reason: string)

  datatype QueryResult = NotFound(queryId: string, visibilityDeadlineMs: nat) | Found(queryId: string, exchangeOrderId: string)

  datatype Command =
    | StartSubmit(digest: string)
    | FinishSubmit(result: SubmitResult)
    | Query(answer: QueryResult)
    | RequestCancel
    | FinishCancel(confirmed: bool)
    | RecordTrade(trade: TradeInput)

  datatype OrderError =
    | InvalidInput
    | FactMissing
    | WrongState
    | IdentityMismatch
    | StoreRejected
    | TradeReused
    | OutsideDomain

  // ---------------------------------------------------------------- validation

  predicate HexDigit(c: char) {
    '0' <= c <= '9' || 'a' <= c <= 'f' || 'A' <= c <= 'F'
  }

  predicate ValidDigest(d: string) {
    |d| == 64 && forall i | 0 <= i < |d| :: HexDigit(d[i])
  }

  predicate ValidTrade(t: TradeInput) {
    && ValidId(t.venue) && ValidId(t.exchangeOrderId) && ValidId(t.tradeId) && ValidId(t.feeAsset)
    && t.quantity.value > 0.0 && t.price.value > 0.0 && t.feeAmount.value >= 0.0
  }

  predicate FitsColumns(t: TradeInput) {
    t.sourceSequence <= I64_MAX && t.occurredAtMs <= I64_MAX
  }

  // ---------------------------------------------------------------- constraints of the store

  /** Another row already carries this exchange order id at this venue. */
  predicate IdTaken(facts: map<string, OrderFact>, intent: string, venue: string, exchangeOrderId: string) {
    exists other :: other in facts && other != intent && facts[other].venue == venue
                    && facts[other].exchangeOrderId == Some(exchangeOrderId)
  }

  predicate SameKey(a: TradeInput, b: TradeInput) {
    a.venue == b.venue && a.exchangeOrderId == b.exchangeOrderId && a.tradeId == b.tradeId
  }

  /** The stored trade under this trade's primary key. */
  function Stored(trades: seq<TradeFact>, t: TradeInput): Option<TradeInput> {
    if trades == [] then None
    else
      var last := trades[|trades| - 1].trade;
      if SameKey(last, t) then Some(last) else Stored(trades[..|trades| - 1], t)
  }

  // ---------------------------------------------------------------- one transaction

  function NewRow(intent: string, row: IntentRow): OrderFact {
    OrderFact(intent, row.domain, row.venue, row.quantity, NotSent, NoCancel, Pending, None, 0.0, 0, None)
  }

  /** What a transaction writes: the row, one log entry, perhaps a trade or a query id, and
      whether the caller is told of a trade conflict although the transaction commits. */
  datatype Commit = Commit(row: OrderFact, action: Action, trade: Option<TradeInput>, query: Option<string>, conflict: bool)

  function Reconciled(filled: real, ordered: real): Reconciliation {
    if filled <= ordered then Matched else Conflict
  }

  function Coalesce(a: Option<string>, b: Option<string>): Option<string> {
    if a.Some? then a else b
  }

  /** The guards and writes of one transaction on a locked row. */
  function Transact(t: OrderTables, row: OrderFact, cmd: Command): Result<Commit, OrderError> {
    var next := row.(lastFactVersion := row.lastFactVersion + 1);
    match cmd
    case StartSubmit(digest) =>
      if row.submission != NotSent then Err(WrongState)
      else Ok(Commit(next.(submission := InFlight), SubmitStarted(digest), None, None, false))
    case FinishSubmit(result) =>
      if row.submission != InFlight then Err(WrongState)
      else
        (match result
         case ResultAccepted(id) =>
           if !ValidId(id) then Err(InvalidInput)
           else if IdTaken(t.facts, row.intentId, row.venue, id) then Err(StoreRejected)
           else Ok(Commit(next.(submission := Accepted, exchangeOrderId := Some(id), lastError := None),
                          SubmitAccepted(id), None, None, false))
         case ResultRejected(reason) =>
           if !ValidId(reason) then Err(InvalidInput)
           else Ok(Commit(next.(submission := DefinitelyRejected, lastError := Some(reason)), SubmitRejected(reason), None, None, false))
         case ResultUnknown(reason) =>
           if !ValidId(reason) then Err(InvalidInput)
           else Ok(Commit(next.(submission := SubmissionUnknown, lastError := Some(reason)), SubmitUnknown(reason), None, None, false)))
    case Query(answer) =>
      if row.submission != SubmissionUnknown then Err(WrongState)
      else if answer.Found? && !ValidId(answer.exchangeOrderId) then Err(InvalidInput)
      else if !ValidId(answer.queryId) then Err(InvalidInput)
      else if answer.NotFound? && answer.visibilityDeadlineMs > I64_MAX then Err(InvalidInput)
      else if answer.queryId in t.queries then Err(StoreRejected)
      else
        (match answer
         case NotFound(q, deadline) => Ok(Commit(next, QueryNotFound(q, deadline), None, Some(q), false))
         case Found(q, id) =>
           if IdTaken(t.facts, row.intentId, row.venue, id) then Err(StoreRejected)
           else Ok(Commit(next.(submission := Accepted, exchangeOrderId := Some(id)), QueryFound(id), None, Some(q), false)))
    case RequestCancel =>
      if row.submission != Accepted || !(row.cancel == NoCancel || row.cancel == CancelUnknown) then Err(WrongState)
      else Ok(Commit(next.(cancel := CancelRequested), CancelRequest, None, None, false))
    case FinishCancel(confirmed) =>
      if row.submission != Accepted || !(row.cancel == CancelRequested || row.cancel == CancelUnknown) then Err(WrongState)
      else if confirmed then Ok(Commit(next.(cancel := CancelConfirmed), CancelResultConfirmed, None, None, false))
      else Ok(Commit(next.(cancel := CancelUnknown), CancelResultUnknown, None, None, false))
    case RecordTrade(trade) =>
      if row.exchangeOrderId != Some(trade.exchangeOrderId) || row.venue != trade.venue then Err(IdentityMismatch)
      else
        var existing := Stored(t.trades, trade);
        if existing.Some? then
          if existing.value == trade then Ok(Commit(next, TradeDuplicate(trade.tradeId), None, None, false))
          else Ok(Commit(next.(reconciliation := Conflict), TradeConflict(trade.tradeId), None, None, true))
        else if !FitsColumns(trade) then Err(StoreRejected)
        else
          var filled := row.filledQuantity + trade.quantity.value;
          Ok(Commit(next.(filledQuantity := filled, reconciliation := Reconciled(filled, row.orderedQuantity)),
                    TradeRecorded(trade.tradeId, trade.quantity.value), Some(trade), None, false))
  }

  /** Checks made before the row is even looked up. */
  predicate InputOk(intent: string, cmd: Command) {
    match cmd
    case StartSubmit(digest) => ValidId(intent) && ValidDigest(digest)
    case RequestCancel => ValidId(intent)
    case RecordTrade(trade) => ValidTrade(trade)
    case _ => true
  }

  function Committed(t: OrderTables, intent: string, c: Commit): OrderTables
    requires intent in t.log
  {
    OrderTables(t.facts[intent := c.row],
           t.log[intent := t.log[intent] + [ActionFact(c.row.lastFactVersion, c.action)]],
           if c.trade.Some? then t.trades + [TradeFact(intent, c.trade.value)] else t.trades,
           if c.query.Some? then t.queries + {c.query.value} else t.queries)
  }

  function Load(t: OrderTables, domain: (string, string), intent: string): Result<OrderFact, OrderError> {
    if intent !in t.facts then Err(FactMissing)
    else if t.facts[intent].domain != domain then Err(OutsideDomain)
    else Ok(t.facts[intent])
  }

  /** One call of the order core: the tables afterwards, and what the caller is told. The row
      of another domain is changed and committed all the same; only the final read refuses it. */
  function Execute(t: OrderTables, domain: (string, string), intent: string, cmd: Command): (r: (OrderTables, Result<OrderFact, OrderError>))
    requires t.facts.Keys == t.log.Keys
    ensures r.0.facts.Keys == r.0.log.Keys
  {
    if !InputOk(intent, cmd) then (t, Err(InvalidInput))
    else if intent !in t.facts then (t, Err(FactMissing))
    else
      match Transact(t, t.facts[intent], cmd)
      case Err(e) => (t, Err(e))
      case Ok(c) =>
        var t' := Committed(t, intent, c);
        (t', if c.conflict then Err(TradeReused) else Load(t', domain, intent))
  }

  /** Materialising an intent's row; an existing row is left alone. */
  function Ensure(t: OrderTables, intents: map<string, IntentRow>, domain: (string, string), intent: string)
    : (r: (OrderTables, Result<OrderFact, OrderError>))
    requires t.facts.Keys == t.log.Keys
    ensures r.0.facts.Keys == r.0.log.Keys
  {
    if !ValidId(intent) then (t, Err(InvalidInput))
    else
      var t' :=
        if intent in intents && intents[intent].domain == domain && intent !in t.facts then
          t.(facts := t.facts[intent := NewRow(intent, intents[intent])], log := t.log[intent := []])
        else t;
      (t', Load(t', domain, intent))
  }
}
