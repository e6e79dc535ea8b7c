/** What every run of the order core keeps: the log rebuilds the row, and the row its trades. */
module OrderHistory {
  import opened Common
  import opened Text
  import opened OrderModel

  // ---------------------------------------------------------------- the fold

  /** The row as it was materialised. */
  function Blank(row: OrderFact): OrderFact {
    NewRow(row.intentId, IntentRow(row.domain, row.venue, row.orderedQuantity))
  }

  /** The row after one logged action, from the action's payload alone. */
  function ReplayAction(row: OrderFact, a: Action): OrderFact {
    var next := row.(lastFactVersion := row.lastFactVersion + 1);
    match a
    case SubmitStarted(_) => next.(submission := InFlight)
    case SubmitAccepted(id) => next.(submission := Accepted, exchangeOrderId := Some(id), lastError := None)
    case SubmitRejected(reason) => next.(submission := DefinitelyRejected, lastError := Some(reason))
    case SubmitUnknown(reason) => next.(submission := SubmissionUnknown, lastError := Some(reason))
    case QueryNotFound(_, _) => next
    case QueryFound(id) => next.(submission := Accepted, exchangeOrderId := Some(id))
    case CancelRequest => next.(cancel := CancelRequested)
    case CancelResultUnknown => next.(cancel := CancelUnknown)
    case CancelResultConfirmed => next.(cancel := CancelConfirmed)
    case TradeRecorded(_, quantity) =>
      var filled := row.filledQuantity + quantity;
      next.(filledQuantity := filled, reconciliation := Reconciled(filled, row.orderedQuantity))
    case TradeDuplicate(_) => next
    case TradeConflict(_) => next.(reconciliation := Conflict)
  }

  function Replay(row: OrderFact, log: seq<ActionFact>): OrderFact {
    if log == [] then row else ReplayAction(Replay(row, log[..|log| - 1]), log[|log| - 1].action)
  }

  /** The quantity of the stored trades booked to an intent. */
  function Booked(trades: seq<TradeFact>, intent: string): real {
    if trades == [] then 0.0
    else
      var last := trades[|trades| - 1];
      Booked(trades[..|trades| - 1], intent) + (if last.intentId == intent then last.trade.quantity.value else 0.0)
  }

  predicate Accepts(a: Action) {
    a.SubmitAccepted? || a.QueryFound?
  }

  predicate NeedsAcceptance(a: Action) {
    || a.CancelRequest? || a.CancelResultUnknown? || a.CancelResultConfirmed?
    || a.TradeRecorded? || a.TradeDuplicate? || a.TradeConflict?
  }

  /** Some action of the log accepted the order. */
  predicate HasAcceptance(log: seq<ActionFact>) {
    exists j :: 0 <= j < |log| && Accepts(log[j].action)
  }

  /** Numbered from one without gaps, opened by the only submission start, accepted at most
      once, and free of cancels and trades before that. */
  predicate GoodLog(log: seq<ActionFact>) {
    && (forall i | 0 <= i < |log| :: log[i].version == i + 1)
    && (forall i | 0 <= i < |log| :: log[i].action.SubmitStarted? <==> i == 0)
    && (forall i | 0 <= i < |log| && NeedsAcceptance(log[i].action) :: HasAcceptance(log[..i]))
    && (forall i, j | 0 <= i < j < |log| :: !(Accepts(log[i].action) && Accepts(log[j].action)))
  }

  predicate GoodRow(row: OrderFact, log: seq<ActionFact>, booked: real) {
    && GoodLog(log)
    && row.lastFactVersion == |log|
    && row == Replay(Blank(row), log)
    && (log == [] <==> row.submission == NotSent)
    && (HasAcceptance(log) <==> row.submission == Accepted)
    && (row.exchangeOrderId.Some? <==> row.submission == Accepted)
    && row.filledQuantity == booked
    && (row.filledQuantity > row.orderedQuantity ==> row.reconciliation == Conflict)
  }

  lemma HasAcceptanceExtends(log: seq<ActionFact>, f: ActionFact)
    ensures HasAcceptance(log + [f]) <==> HasAcceptance(log) || Accepts(f.action)
  {
    var log' := log + [f];
    if HasAcceptance(log) {
      var j :| 0 <= j < |log| && Accepts(log[j].action);
      assert log'[j] == log[j];
    }
    if Accepts(f.action) { assert log'[|log|] == f; }
    if HasAcceptance(log') {
      var j :| 0 <= j < |log'| && Accepts(log'[j].action);
      assert j < |log| ==> log'[j] == log[j];
    }
  }

  lemma GoodLogExtends(log: seq<ActionFact>, f: ActionFact)
    requires GoodLog(log) && f.version == |log| + 1
    requires f.action.SubmitStarted? <==> log == []
    requires NeedsAcceptance(f.action) ==> HasAcceptance(log)
    requires Accepts(f.action) ==> !HasAcceptance(log)
    ensures GoodLog(log + [f])
  {
    var log' := log + [f];
    forall i | 0 <= i < |log'| && NeedsAcceptance(log'[i].action) ensures HasAcceptance(log'[..i]) {
      assert log'[..i] == log[..i];
      if i == |log| { assert log[..i] == log; }
    }
  }

  /** Every transaction's row is what replaying its log entry on the old row gives. */
  lemma TransactIsReplay(t: OrderTables, row: OrderFact, cmd: Command)
    requires Transact(t, row, cmd).Ok?
    ensures var c := Transact(t, row, cmd).value;
            c.row == ReplayAction(row, c.action) && Blank(c.row) == Blank(row) && c.row.intentId == row.intentId
  {
  }

  /** One transaction on a good row appends one entry and leaves a good row. */
  lemma TransactKeepsRow(t: OrderTables, row: OrderFact, cmd: Command, log: seq<ActionFact>, booked: real)
    requires GoodRow(row, log, booked) && Transact(t, row, cmd).Ok?
    ensures var c := Transact(t, row, cmd).value;
            GoodRow(c.row, log + [ActionFact(c.row.lastFactVersion, c.action)],
                    booked + (if c.trade.Some? then c.trade.value.quantity.value else 0.0))
    ensures var c := Transact(t, row, cmd).value;
            row.submission == Accepted ==> c.row.submission == Accepted && c.row.exchangeOrderId == row.exchangeOrderId
  {
    hide GoodLog, Replay, HasAcceptance, IdTaken, Stored, ValidId, FitsColumns;
    var c := Transact(t, row, cmd).value;
    var f := ActionFact(c.row.lastFactVersion, c.action);
    TransactIsReplay(t, row, cmd);
    HasAcceptanceExtends(log, f);
    GoodLogExtends(log, f);
    ReplayExtends(Blank(row), log, f);
  }

  lemma ReplayExtends(row: OrderFact, log: seq<ActionFact>, f: ActionFact)
    ensures Replay(row, log + [f]) == ReplayAction(Replay(row, log), f.action)
  {
    assert (log + [f])[..|log + [f]| - 1] == log;
  }

  lemma BookedExtends(trades: seq<TradeFact>, f: TradeFact, intent: string)
    ensures Booked(trades + [f], intent) == Booked(trades, intent) + (if f.intentId == intent then f.trade.quantity.value else 0.0)
  {
    assert (trades + [f])[..|trades + [f]| - 1] == trades;
  }

  // ---------------------------------------------------------------- the tables

  predicate GoodRows(t: OrderTables) {
    && t.facts.Keys == t.log.Keys
    && forall id | id in t.facts :: t.facts[id].intentId == id && GoodRow(t.facts[id], t.log[id], Booked(t.trades, id))
  }

  /** An exchange order id belongs to one intent per venue. */
  predicate UniqueIds(t: OrderTables) {
    forall a, b | a in t.facts && b in t.facts && t.facts[a].venue == t.facts[b].venue
                  && t.facts[a].exchangeOrderId.Some? && t.facts[a].exchangeOrderId == t.facts[b].exchangeOrderId :: a == b
  }

  /** Each stored trade carries the identity of the order it is booked to. */
  predicate Owned(facts: map<string, OrderFact>, f: TradeFact) {
    && f.intentId in facts && facts[f.intentId].venue == f.trade.venue
    && facts[f.intentId].exchangeOrderId == Some(f.trade.exchangeOrderId)
    && ValidTrade(f.trade)
  }

  predicate AllOwned(facts: map<string, OrderFact>, trades: seq<TradeFact>) {
    forall k | 0 <= k < |trades| :: Owned(facts, trades[k])
  }

  predicate DistinctKeys(trades: seq<TradeFact>) {
    forall i, j | 0 <= i < j < |trades| :: !SameKey(trades[i].trade, trades[j].trade)
  }

  predicate GoodTrades(t: OrderTables) {
    AllOwned(t.facts, t.trades) && DistinctKeys(t.trades)
  }

  predicate Inv(t: OrderTables) {
    GoodRows(t) && UniqueIds(t) && GoodTrades(t)
  }

  lemma {:induction false} StoredFinds(trades: seq<TradeFact>, t: TradeInput)
    ensures Stored(trades, t).None? <==> forall k | 0 <= k < |trades| :: !SameKey(trades[k].trade, t)
    ensures Stored(trades, t).Some? ==>
              SameKey(Stored(trades, t).value, t) && exists k | 0 <= k < |trades| :: trades[k].trade == Stored(trades, t).value
  {
    if trades != [] {
      var n := |trades| - 1;
      StoredFinds(trades[..n], t);
      if SameKey(trades[n].trade, t) {
        assert trades[n].trade == Stored(trades, t).value;
      } else if Stored(trades, t).Some? {
        var k :| 0 <= k < |trades[..n]| && trades[..n][k].trade == Stored(trades, t).value;
        assert trades[k].trade == Stored(trades, t).value;
      }
      assert forall k | 0 <= k < n :: trades[..n][k] == trades[k];
    }
  }

  lemma CommitKeepsRows(t: OrderTables, id: string, cmd: Command)
    requires Inv(t) && id in t.facts && Transact(t, t.facts[id], cmd).Ok?
    ensures GoodRows(Committed(t, id, Transact(t, t.facts[id], cmd).value))
  {
    hide GoodRow, Transact, UniqueIds, GoodTrades;
    var c := Transact(t, t.facts[id], cmd).value;
    var t' := Committed(t, id, c);
    TransactKeepsRow(t, t.facts[id], cmd, t.log[id], Booked(t.trades, id));
    TransactIsReplay(t, t.facts[id], cmd);
    forall x | x in t'.facts
      ensures t'.facts[x].intentId == x && GoodRow(t'.facts[x], t'.log[x], Booked(t'.trades, x))
    {
      if c.trade.Some? { BookedExtends(t.trades, TradeFact(id, c.trade.value), x); }
    }
  }

  /** How a committed row's exchange id relates to the old one's. */
  lemma IdOnlyAppears(t: OrderTables, id: string, cmd: Command)
    requires Inv(t) && id in t.facts && Transact(t, t.facts[id], cmd).Ok?
    ensures var c := Transact(t, t.facts[id], cmd).value;
            && c.row.venue == t.facts[id].venue
            && (t.facts[id].exchangeOrderId.Some? ==> c.row.exchangeOrderId == t.facts[id].exchangeOrderId)
            && (t.facts[id].exchangeOrderId.None? && c.row.exchangeOrderId.Some? ==>
                  !IdTaken(t.facts, id, c.row.venue, c.row.exchangeOrderId.value))
  {
    hide UniqueIds, GoodTrades, IdTaken, GoodLog, Replay, HasAcceptance, Stored, ValidId;
    assert t.facts[id].intentId == id && GoodRow(t.facts[id], t.log[id], Booked(t.trades, id));
  }

  lemma CommitKeepsIds(t: OrderTables, id: string, cmd: Command)
    requires Inv(t) && id in t.facts && Transact(t, t.facts[id], cmd).Ok?
    ensures UniqueIds(Committed(t, id, Transact(t, t.facts[id], cmd).value))
  {
    hide GoodRows, Transact, GoodTrades;
    IdOnlyAppears(t, id, cmd);
  }

  lemma OwnershipSurvives(facts: map<string, OrderFact>, trades: seq<TradeFact>, id: string, row: OrderFact)
    requires AllOwned(facts, trades)
    requires id in facts ==>
      row.venue == facts[id].venue && (facts[id].exchangeOrderId.Some? ==> row.exchangeOrderId == facts[id].exchangeOrderId)
    ensures AllOwned(facts[id := row], trades)
  {
    hide ValidTrade;
    forall k | 0 <= k < |trades| ensures Owned(facts[id := row], trades[k]) {
      assert Owned(facts, trades[k]);
    }
  }

  lemma TradeJoins(facts: map<string, OrderFact>, trades: seq<TradeFact>, f: TradeFact)
    requires AllOwned(facts, trades) && DistinctKeys(trades) && Owned(facts, f) && Stored(trades, f.trade).None?
    ensures AllOwned(facts, trades + [f]) && DistinctKeys(trades + [f])
  {
    hide ValidTrade, Stored;
    StoredFinds(trades, f.trade);
  }

  lemma CommitKeepsTrades(t: OrderTables, id: string, cmd: Command)
    requires Inv(t) && id in t.facts && Transact(t, t.facts[id], cmd).Ok? && InputOk(id, cmd)
    ensures GoodTrades(Committed(t, id, Transact(t, t.facts[id], cmd).value))
  {
    hide GoodRow, Transact, UniqueIds, ValidTrade, AllOwned, DistinctKeys;
    IdOnlyAppears(t, id, cmd);
    var c := Transact(t, t.facts[id], cmd).value;
    OwnershipSurvives(t.facts, t.trades, id, c.row);
    if c.trade.Some? {
      NewTradeFits(t, id, cmd);
      TradeJoins(t.facts[id := c.row], t.trades, TradeFact(id, c.trade.value));
    }
  }

  lemma NewTradeFits(t: OrderTables, id: string, cmd: Command)
    requires id in t.facts && Transact(t, t.facts[id], cmd).Ok? && InputOk(id, cmd)
    requires Transact(t, t.facts[id], cmd).value.trade.Some?
    ensures var c := Transact(t, t.facts[id], cmd).value;
            && cmd == RecordTrade(c.trade.value) && ValidTrade(c.trade.value)
            && t.facts[id].venue == c.trade.value.venue && t.facts[id].exchangeOrderId == Some(c.trade.value.exchangeOrderId)
            && c.row.venue == t.facts[id].venue && c.row.exchangeOrderId == t.facts[id].exchangeOrderId
            && Stored(t.trades, c.trade.value).None?
  {
    hide ValidTrade, Stored, FitsColumns, IdTaken, ValidId;
  }

  lemma ExecuteKeepsInv(t: OrderTables, domain: (string, string), id: string, cmd: Command)
    requires Inv(t)
    ensures Inv(Execute(t, domain, id, cmd).0)
  {
    hide GoodRows, UniqueIds, GoodTrades, Transact;
    if InputOk(id, cmd) && id in t.facts && Transact(t, t.facts[id], cmd).Ok? {
      CommitKeepsRows(t, id, cmd);
      CommitKeepsIds(t, id, cmd);
      CommitKeepsTrades(t, id, cmd);
    }
  }

  lemma EnsureKeepsInv(t: OrderTables, intents: map<string, IntentRow>, domain: (string, string), id: string)
    requires Inv(t) && (id in intents ==> intents[id].quantity > 0.0)
    ensures Inv(Ensure(t, intents, domain, id).0)
  {
    hide ValidId, ValidTrade, AllOwned, DistinctKeys, GoodRow;
    var t' := Ensure(t, intents, domain, id).0;
    if t' != t {
      var row := NewRow(id, intents[id]);
      NothingBooked(t, id, |t.trades|);
      NewRowIsGood(id, intents[id]);
      OwnershipSurvives(t.facts, t.trades, id, row);
    }
  }

  lemma NewRowIsGood(id: string, intent: IntentRow)
    requires intent.quantity > 0.0
    ensures GoodRow(NewRow(id, intent), [], 0.0)
  {
  }

  lemma {:induction false} NothingBooked(t: OrderTables, id: string, n: nat)
    requires GoodTrades(t) && id !in t.facts && n <= |t.trades|
    ensures Booked(t.trades[..n], id) == 0.0 && t.trades[..|t.trades|] == t.trades
  {
    if n > 0 {
      NothingBooked(t, id, n - 1);
      assert t.trades[..n][..n - 1] == t.trades[..n - 1];
      assert t.trades[..n][|t.trades[..n]| - 1] == t.trades[n - 1] && Owned(t.facts, t.trades[n - 1]);
    }
  }

  predicate PositiveIntents(intents: map<string, IntentRow>) {
    forall id | id in intents :: intents[id].quantity > 0.0
  }

  // ---------------------------------------------------------------- runs

  /** A call by the core of any domain. */
  datatype Call =
    | EnsureCall(domain: (string, string), intent: string)
    | ExecuteCall(domain: (string, string), intent: string, cmd: Command)

  function AfterCall(t: OrderTables, intents: map<string, IntentRow>, call: Call): (r: OrderTables)
    requires t.facts.Keys == t.log.Keys
    ensures r.facts.Keys == r.log.Keys
  {
    match call
    case EnsureCall(domain, intent) => Ensure(t, intents, domain, intent).0
    case ExecuteCall(domain, intent, cmd) => Execute(t, domain, intent, cmd).0
  }

  function AfterCalls(t: OrderTables, intents: map<string, IntentRow>, calls: seq<Call>): (r: OrderTables)
    requires t.facts.Keys == t.log.Keys
    ensures r.facts.Keys == r.log.Keys
    decreases |calls|
  {
    if calls == [] then t else AfterCalls(AfterCall(t, intents, calls[0]), intents, calls[1..])
  }

  const EMPTY_TABLES := OrderTables(map[], map[], [], {})

  /** What no call takes back of one intent: its log and identity, an acceptance, a rejection. */
  predicate GrownRow(row: OrderFact, log: seq<ActionFact>, row': OrderFact, log': seq<ActionFact>) {
    && log <= log' && Blank(row) == Blank(row')
    && (row.submission == Accepted ==> row'.submission == Accepted && row'.exchangeOrderId == row.exchangeOrderId)
    && (row.submission == DefinitelyRejected ==> row' == row && log' == log)
  }

  predicate Grown(t: OrderTables, t': OrderTables) {
    && t.facts.Keys == t.log.Keys && t'.facts.Keys == t'.log.Keys
    && t.trades <= t'.trades && t.queries <= t'.queries
    && forall id | id in t.facts :: id in t'.facts && GrownRow(t.facts[id], t.log[id], t'.facts[id], t'.log[id])
  }

  lemma GrownReflexive(t: OrderTables)
    requires Inv(t)
    ensures Grown(t, t)
  {
  }

  lemma GrownTransitive(a: OrderTables, b: OrderTables, c: OrderTables)
    requires Grown(a, b) && Grown(b, c)
    ensures Grown(a, c)
  {
    hide Blank;
    forall id | id in a.facts ensures id in c.facts && GrownRow(a.facts[id], a.log[id], c.facts[id], c.log[id]) {
      assert GrownRow(a.facts[id], a.log[id], b.facts[id], b.log[id]);
      assert GrownRow(b.facts[id], b.log[id], c.facts[id], c.log[id]);
    }
  }

  lemma TransactGrowsRow(t: OrderTables, row: OrderFact, log: seq<ActionFact>, booked: real, cmd: Command)
    requires GoodRow(row, log, booked) && Transact(t, row, cmd).Ok?
    ensures var c := Transact(t, row, cmd).value;
            GrownRow(row, log, c.row, log + [ActionFact(c.row.lastFactVersion, c.action)])
  {
    TransactKeepsRow(t, row, cmd, log, booked);
    TransactIsReplay(t, row, cmd);
    hide GoodLog, Replay, HasAcceptance, IdTaken, Stored, ValidId, FitsColumns;
  }

  lemma CallGrows(t: OrderTables, intents: map<string, IntentRow>, call: Call)
    requires Inv(t)
    ensures Grown(t, AfterCall(t, intents, call))
  {
    hide UniqueIds, GoodTrades, GoodRow, Transact, InputOk, ValidId;
    var t' := AfterCall(t, intents, call);
    forall id | id in t.facts ensures id in t'.facts && GrownRow(t.facts[id], t.log[id], t'.facts[id], t'.log[id]) {
      if call.ExecuteCall? && call.intent == id && Transact(t, t.facts[id], call.cmd).Ok? {
        TransactGrowsRow(t, t.facts[id], t.log[id], Booked(t.trades, id), call.cmd);
      }
    }
  }

  lemma {:induction false} CallsKeepInv(t: OrderTables, intents: map<string, IntentRow>, calls: seq<Call>)
    requires Inv(t) && PositiveIntents(intents)
    ensures Inv(AfterCalls(t, intents, calls)) && Grown(t, AfterCalls(t, intents, calls))
    decreases |calls|
  {
    GrownReflexive(t);
    hide GoodRow, UniqueIds, GoodTrades, Execute, Ensure, GrownRow;
    if calls != [] {
      var next := AfterCall(t, intents, calls[0]);
      match calls[0] {
        case EnsureCall(domain, intent) => EnsureKeepsInv(t, intents, domain, intent);
        case ExecuteCall(domain, intent, cmd) => ExecuteKeepsInv(t, domain, intent, cmd);
      }
      CallGrows(t, intents, calls[0]);
      CallsKeepInv(next, intents, calls[1..]);
      GrownTransitive(t, next, AfterCalls(t, intents, calls));
    }
  }

  /** In every run of calls by any number of cores, each intent's log is numbered from one to its
      last version, is opened by its only submission start, accepts at most once and before any
      cancel or trade, and rebuilds the row; an exchange id is present exactly when accepted;
      the filled quantity is the sum of the stored trades; over-fill always means conflict. */
  lemma EveryRunRebuildsItsRows(intents: map<string, IntentRow>, calls: seq<Call>, id: string)
    requires PositiveIntents(intents) && id in AfterCalls(EMPTY_TABLES, intents, calls).facts
    ensures var t := AfterCalls(EMPTY_TABLES, intents, calls);
            var row, log := t.facts[id], t.log[id];
            && GoodLog(log)
            && row.lastFactVersion == |log|
            && row == Replay(Blank(row), log)
            && (HasAcceptance(log) <==> row.submission == Accepted)
            && (row.exchangeOrderId.Some? <==> row.submission == Accepted)
            && row.filledQuantity == Booked(t.trades, id)
            && (row.filledQuantity > row.orderedQuantity ==> row.reconciliation == Conflict)
  {
    hide GoodLog, Replay, HasAcceptance;
    CallsKeepInv(EMPTY_TABLES, intents, calls);
    var t := AfterCalls(EMPTY_TABLES, intents, calls);
    assert GoodRow(t.facts[id], t.log[id], Booked(t.trades, id));
  }

  /** Cutting a run anywhere: what follows only extends logs and trades, never touches a
      definitely rejected intent, and never changes an accepted order's identity. */
  lemma RunsOnlyGrow(intents: map<string, IntentRow>, before: seq<Call>, after: seq<Call>)
    requires PositiveIntents(intents)
    ensures var mid := AfterCalls(EMPTY_TABLES, intents, before);
            Grown(mid, AfterCalls(mid, intents, after))
  {
    CallsKeepInv(EMPTY_TABLES, intents, before);
    CallsKeepInv(AfterCalls(EMPTY_TABLES, intents, before), intents, after);
  }

  // ---------------------------------------------------------------- commits that are reported as errors

  /** A call changes the tables and still reports an error exactly when its guards accept and it
      either records a reused trade or works on the intent of another domain. */
  lemma CommitsAndRefusesExactlyWhen(t: OrderTables, domain: (string, string), id: string, cmd: Command)
    requires t.facts.Keys == t.log.Keys
    ensures Execute(t, domain, id, cmd).1.Err? && Execute(t, domain, id, cmd).0 != t <==>
            && InputOk(id, cmd) && id in t.facts && Transact(t, t.facts[id], cmd).Ok?
            && (Transact(t, t.facts[id], cmd).value.conflict || t.facts[id].domain != domain)
  {
    hide IdTaken, Stored, FitsColumns, InputOk;
    if id in t.facts && Transact(t, t.facts[id], cmd).Ok? {
      assert Committed(t, id, Transact(t, t.facts[id], cmd).value).log[id] != t.log[id];
    }
  }

  /** A run in which the core of another domain starts the submission of an intent, is refused, and
      has started it. */
  lemma ForeignCallCommits()
    ensures var mine, other := ("a", "i"), ("b", "j");
            var intents := map["x" := IntentRow(mine, "v", 1.0)];
            var start := StartSubmit(seq(64, _ => '0'));
            var t := AfterCalls(EMPTY_TABLES, intents, [EnsureCall(mine, "x")]);
            var e := Execute(t, other, "x", start);
            && e.1 == Err(OutsideDomain) && e.0 == AfterCall(t, intents, ExecuteCall(other, "x", start))
            && t.facts["x"].submission == NotSent && e.0.facts["x"].submission == InFlight
  {
    hide Trim;
    ValidIdMeans("x");
    hide ValidId;
    var mine := ("a", "i");
    var intents := map["x" := IntentRow(mine, "v", 1.0)];
    assert [EnsureCall(mine, "x")][1..] == [];
    var made := AfterCall(EMPTY_TABLES, intents, EnsureCall(mine, "x"));
    assert AfterCalls(EMPTY_TABLES, intents, [EnsureCall(mine, "x")]) == AfterCalls(made, intents, []) == made;
    assert made.facts["x"] == NewRow("x", intents["x"]);
  }

  /** A trade that this order can book and that is not stored yet. */
  predicate NewTrade(t: OrderTables, row: OrderFact, trade: TradeInput) {
    && ValidTrade(trade) && FitsColumns(trade) && Stored(t.trades, trade) == None
    && row.exchangeOrderId == Some(trade.exchangeOrderId) && row.venue == trade.venue
  }

  /** Whatever the reconciliation was, a new trade leaves it matched exactly when the new fill is
      within the order: a conflict left by a reused trade is forgotten, over-fill is not. */
  lemma NewTradeResolvesConflict(t: OrderTables, domain: (string, string), id: string, trade: TradeInput)
    requires Inv(t) && id in t.facts && NewTrade(t, t.facts[id], trade)
    ensures var t' := Execute(t, domain, id, RecordTrade(trade)).0;
            && id in t'.facts
            && t'.facts[id].filledQuantity == t.facts[id].filledQuantity + trade.quantity.value
            && (t'.facts[id].reconciliation == Matched <==> t'.facts[id].filledQuantity <= t.facts[id].orderedQuantity)
            && (t'.facts[id].reconciliation == Conflict <==> t'.facts[id].filledQuantity > t.facts[id].orderedQuantity)
  {
    hide ValidTrade, Stored, FitsColumns, GoodRows, UniqueIds, GoodTrades;
  }

  /** Reporting a stored trade with other content sets the conflict, commits and is refused; it
      neither stores nor counts anything, so the next new trade decides as if it had not come. */
  lemma ReusedTradeIsForgotten(t: OrderTables, domain: (string, string), id: string, reused: TradeInput, next: TradeInput)
    requires Inv(t) && id in t.facts && NewTrade(t, t.facts[id], next)
    requires ValidTrade(reused) && t.facts[id].exchangeOrderId == Some(reused.exchangeOrderId) && t.facts[id].venue == reused.venue
    requires Stored(t.trades, reused).Some? && Stored(t.trades, reused).value != reused
    ensures var e := Execute(t, domain, id, RecordTrade(reused));
            && e.1 == Err(TradeReused) && id in e.0.facts && e.0.facts[id].reconciliation == Conflict && e.0.trades == t.trades
            && var t' := Execute(e.0, domain, id, RecordTrade(next)).0;
               && id in t'.facts
               && (t'.facts[id].reconciliation == Matched <==>
                     t.facts[id].filledQuantity + next.quantity.value <= t.facts[id].orderedQuantity)
  {
    ReusedTradeCommits(t, domain, id, reused);
    ExecuteKeepsInv(t, domain, id, RecordTrade(reused));
    hide ValidTrade, Stored, FitsColumns, Inv, Execute;
    NewTradeResolvesConflict(Execute(t, domain, id, RecordTrade(reused)).0, domain, id, next);
  }

  lemma ReusedTradeCommits(t: OrderTables, domain: (string, string), id: string, reused: TradeInput)
    requires t.facts.Keys == t.log.Keys && id in t.facts && ValidTrade(reused)
    requires t.facts[id].exchangeOrderId == Some(reused.exchangeOrderId) && t.facts[id].venue == reused.venue
    requires Stored(t.trades, reused).Some? && Stored(t.trades, reused).value != reused
    ensures var e := Execute(t, domain, id, RecordTrade(reused));
            && e.1 == Err(TradeReused) && id in e.0.facts && e.0.trades == t.trades
            && e.0.facts[id] == t.facts[id].(reconciliation := Conflict, lastFactVersion := t.facts[id].lastFactVersion + 1)
  {
    hide ValidTrade, Stored, FitsColumns;
  }
}
