/** What each call of the order core is answered and records, told from the command and the log
    alone (crates/core/src/order.rs). */
module OrderAnswers {
  import opened Common
  import opened Text
  import opened OrderModel
  import opened OrderHistory

  // ---------------------------------------------------------------- commands and their entries

  predicate KeyStored(trades: seq<TradeFact>, trade: TradeInput) {
    exists k | 0 <= k < |trades| ::
      && trades[k].trade.venue == trade.venue
      && trades[k].trade.exchangeOrderId == trade.exchangeOrderId
      && trades[k].trade.tradeId == trade.tradeId
  }

  predicate ContentStored(trades: seq<TradeFact>, trade: TradeInput) {
    exists k | 0 <= k < |trades| :: trades[k].trade == trade
  }

  lemma StoredMeans(trades: seq<TradeFact>, trade: TradeInput)
    requires DistinctKeys(trades)
    ensures Stored(trades, trade).Some? <==> KeyStored(trades, trade)
    ensures Stored(trades, trade) == Some(trade) <==> ContentStored(trades, trade)
  {
    StoredFinds(trades, trade);
    if k :| 0 <= k < |trades| && trades[k].trade == trade {
      assert SameKey(trades[k].trade, trade);
      var j :| 0 <= j < |trades| && trades[j].trade == Stored(trades, trade).value;
      assert SameKey(trades[j].trade, trades[k].trade) && SameKey(trades[k].trade, trades[j].trade);
      assert j == k;
    }
    if k :| 0 <= k < |trades| && trades[k].trade.venue == trade.venue
            && trades[k].trade.exchangeOrderId == trade.exchangeOrderId && trades[k].trade.tradeId == trade.tradeId {
      assert SameKey(trades[k].trade, trade);
    }
  }

  /** The entry that stands for a command: its own content, and for a trade what is stored under
      the trade's key. */
  predicate Records(trades: seq<TradeFact>, cmd: Command, a: Action) {
    match cmd
    case StartSubmit(digest) => a == SubmitStarted(digest)
    case FinishSubmit(ResultAccepted(id)) => a == SubmitAccepted(id)
    case FinishSubmit(ResultRejected(reason)) => a == SubmitRejected(reason)
    case FinishSubmit(ResultUnknown(reason)) => a == SubmitUnknown(reason)
    case Query(NotFound(q, deadline)) => a == QueryNotFound(q, deadline)
    case Query(Found(_, id)) => a == QueryFound(id)
    case RequestCancel => a == CancelRequest
    case FinishCancel(confirmed) => a == if confirmed then CancelResultConfirmed else CancelResultUnknown
    case RecordTrade(trade) =>
      if !KeyStored(trades, trade) then a == TradeRecorded(trade.tradeId, trade.quantity.value)
      else if ContentStored(trades, trade) then a == TradeDuplicate(trade.tradeId)
      else a == TradeConflict(trade.tradeId)
  }

  predicate BooksNewTrade(t: OrderTables, cmd: Command) {
    cmd.RecordTrade? && !KeyStored(t.trades, cmd.trade)
  }

  /** The tables with one more entry on an intent's log, for a command. */
  predicate Recorded(t: OrderTables, id: string, cmd: Command, t': OrderTables)
    requires id in t.log && id in t.facts
  {
    && t'.facts.Keys == t.facts.Keys && t'.log.Keys == t.log.Keys
    && (forall other | other in t.facts && other != id :: t'.facts[other] == t.facts[other])
    && (forall other | other in t.log && other != id :: t'.log[other] == t.log[other])
    && |t'.log[id]| == |t.log[id]| + 1 && t.log[id] <= t'.log[id]
    && t'.log[id][|t.log[id]|].version == |t.log[id]| + 1
    && Records(t.trades, cmd, t'.log[id][|t.log[id]|].action)
    && t'.trades == (if BooksNewTrade(t, cmd) then t.trades + [TradeFact(id, cmd.trade)] else t.trades)
    && t'.queries == (if cmd.Query? then t.queries + {cmd.answer.queryId} else t.queries)
  }

  lemma TransactRecords(t: OrderTables, row: OrderFact, cmd: Command)
    requires DistinctKeys(t.trades) && Transact(t, row, cmd).Ok?
    ensures var c := Transact(t, row, cmd).value;
            && Records(t.trades, cmd, c.action) && c.row.lastFactVersion == row.lastFactVersion + 1
            && c.trade == (if BooksNewTrade(t, cmd) then Some(cmd.trade) else None)
            && c.query == (if cmd.Query? then Some(cmd.answer.queryId) else None)
            && (c.conflict <==> c.action.TradeConflict?)
  {
    hide IdTaken, ValidId, FitsColumns, Stored, KeyStored, ContentStored;
    if cmd.RecordTrade? {
      StoredMeans(t.trades, cmd.trade);
    }
  }

  /** Every call leaves the tables alone or records its command. */
  lemma CallRecordsItsCommand(t: OrderTables, domain: (string, string), id: string, cmd: Command)
    requires Inv(t) && id in t.facts
    ensures var t' := Execute(t, domain, id, cmd).0;
            t' == t || Recorded(t, id, cmd, t')
  {
    hide UniqueIds, Transact, InputOk, GoodLog, Replay, HasAcceptance, Records, BooksNewTrade, AllOwned, DistinctKeys;
    if Transact(t, t.facts[id], cmd).Ok? {
      TransactRecords(t, t.facts[id], cmd);
      assert GoodRow(t.facts[id], t.log[id], Booked(t.trades, id));
    }
  }

  // ---------------------------------------------------------------- the life of a submission

  /** Entries 1 to n - 1 are an unknown result, with the row's error, and fruitless queries. */
  predicate UnknownUntil(row: OrderFact, log: seq<ActionFact>, n: nat) {
    && 2 <= n <= |log| && row.lastError.Some? && log[1].action == SubmitUnknown(row.lastError.value)
    && forall i | 2 <= i < n :: log[i].action.QueryNotFound?
  }

  /** Entry a accepted the order under the row's exchange id: the submission's own result, or a
      query after an unknown one; only cancels and trades follow. */
  predicate AcceptedAt(row: OrderFact, log: seq<ActionFact>, a: nat)
    requires a < |log|
  {
    && row.exchangeOrderId.Some?
    && (if a == 1 then log[1].action == SubmitAccepted(row.exchangeOrderId.value) && row.lastError == None
        else UnknownUntil(row, log, a) && log[a].action == QueryFound(row.exchangeOrderId.value))
    && forall i | a < i < |log| :: NeedsAcceptance(log[i].action)
  }

  /** The submission status, the error and the exchange id, told from the log. */
  predicate SubmissionFits(row: OrderFact, log: seq<ActionFact>) {
    match row.submission
    case NotSent => log == [] && row.lastError == None
    case InFlight => |log| == 1 && row.lastError == None
    case DefinitelyRejected => |log| == 2 && row.lastError.Some? && log[1].action == SubmitRejected(row.lastError.value)
    case SubmissionUnknown => UnknownUntil(row, log, |log|)
    case Accepted => exists a | 1 <= a < |log| :: AcceptedAt(row, log, a)
  }

  /** The cancel status the last cancel entry leaves. */
  function LastCancel(log: seq<ActionFact>): Cancel {
    if log == [] then NoCancel
    else
      match log[|log| - 1].action
      case CancelRequest => CancelRequested
      case CancelResultUnknown => CancelUnknown
      case CancelResultConfirmed => CancelConfirmed
      case _ => LastCancel(log[..|log| - 1])
  }

  lemma {:induction false} ReplayKeepsCancel(row: OrderFact, log: seq<ActionFact>)
    ensures Replay(Blank(row), log).cancel == LastCancel(log)
  {
    if log != [] {
      ReplayKeepsCancel(row, log[..|log| - 1]);
    }
  }

  lemma PrefixStaysUnknown(row: OrderFact, log: seq<ActionFact>, n: nat, row': OrderFact, f: ActionFact)
    requires UnknownUntil(row, log, n) && row'.lastError == row.lastError
    ensures UnknownUntil(row', log + [f], n)
  {
    assert forall i | 0 <= i < |log| :: (log + [f])[i] == log[i];
  }

  lemma TransactKeepsFit(t: OrderTables, row: OrderFact, cmd: Command, log: seq<ActionFact>)
    requires GoodLog(log) && SubmissionFits(row, log) && Transact(t, row, cmd).Ok?
    requires row.exchangeOrderId.Some? <==> row.submission == Accepted
    ensures var c := Transact(t, row, cmd).value;
            SubmissionFits(c.row, log + [ActionFact(c.row.lastFactVersion, c.action)])
  {
    hide IdTaken, ValidId, FitsColumns, Stored, GoodLog, UnknownUntil;
    var c := Transact(t, row, cmd).value;
    var f := ActionFact(c.row.lastFactVersion, c.action);
    var log' := log + [f];
    if row.submission == Accepted {
      var a :| 1 <= a < |log| && AcceptedAt(row, log, a);
      AcceptedStays(row, log, a, c.row, f);
    } else if row.submission == SubmissionUnknown {
      UnknownGoesOn(row, log, c.row, f);
    } else if c.row.submission == SubmissionUnknown {
      assert log'[1] == f && |log'| == 2;
      assert UnknownUntil(c.row, log', 2) by { FirstUnknown(c.row, log'); }
    } else if c.row.submission == Accepted {
      assert log'[1] == f && AcceptedAt(c.row, log', 1);
    }
  }

  lemma FirstUnknown(row: OrderFact, log: seq<ActionFact>)
    requires |log| == 2 && row.lastError.Some? && log[1].action == SubmitUnknown(row.lastError.value)
    ensures UnknownUntil(row, log, 2)
  {
  }

  lemma AcceptedStays(row: OrderFact, log: seq<ActionFact>, a: nat, row': OrderFact, f: ActionFact)
    requires 1 <= a < |log| && AcceptedAt(row, log, a) && NeedsAcceptance(f.action)
    requires row'.submission == Accepted && row'.exchangeOrderId == row.exchangeOrderId && row'.lastError == row.lastError
    ensures SubmissionFits(row', log + [f])
  {
    hide UnknownUntil;
    var log' := log + [f];
    assert forall i | 0 <= i < |log| :: log'[i] == log[i];
    if a > 1 {
      PrefixStaysUnknown(row, log, a, row', f);
    }
    assert AcceptedAt(row', log', a);
  }

  lemma UnknownGoesOn(row: OrderFact, log: seq<ActionFact>, row': OrderFact, f: ActionFact)
    requires UnknownUntil(row, log, |log|) && row'.lastError == row.lastError
    requires || (row'.submission == SubmissionUnknown && f.action.QueryNotFound?)
             || (row'.submission == Accepted && row'.exchangeOrderId.Some? && f.action == QueryFound(row'.exchangeOrderId.value))
    ensures SubmissionFits(row', log + [f])
  {
    PrefixStaysUnknown(row, log, |log|, row', f);
    if row'.submission == Accepted {
      hide UnknownUntil;
      assert (log + [f])[|log|] == f;
      assert AcceptedAt(row', log + [f], |log|);
    }
  }

  predicate AllFit(t: OrderTables) {
    && t.facts.Keys == t.log.Keys
    && forall id | id in t.facts :: SubmissionFits(t.facts[id], t.log[id])
  }

  lemma CallKeepsFit(t: OrderTables, intents: map<string, IntentRow>, call: Call)
    requires Inv(t) && AllFit(t)
    ensures AllFit(AfterCall(t, intents, call))
  {
    hide UniqueIds, GoodTrades, Transact, InputOk, ValidId, SubmissionFits, GoodLog, Replay, HasAcceptance;
    match call
    case EnsureCall(domain, id) =>
      if id in intents {
        BlankFits(id, intents[id]);
      }
    case ExecuteCall(domain, id, cmd) =>
      if id in t.facts && Transact(t, t.facts[id], cmd).Ok? {
        assert GoodRow(t.facts[id], t.log[id], Booked(t.trades, id));
        TransactKeepsFit(t, t.facts[id], cmd, t.log[id]);
      }
  }

  lemma BlankFits(id: string, intent: IntentRow)
    ensures SubmissionFits(NewRow(id, intent), [])
  {
  }

  lemma {:induction false} CallsKeepFit(t: OrderTables, intents: map<string, IntentRow>, calls: seq<Call>)
    requires Inv(t) && AllFit(t) && PositiveIntents(intents)
    ensures Inv(AfterCalls(t, intents, calls)) && AllFit(AfterCalls(t, intents, calls))
    decreases |calls|
  {
    hide GoodRow, UniqueIds, GoodTrades, AllFit, Ensure, Execute;
    if calls != [] {
      CallKeepsFit(t, intents, calls[0]);
      OneCallKeepsInv(t, intents, calls[0]);
      CallsKeepFit(AfterCall(t, intents, calls[0]), intents, calls[1..]);
    }
  }

  lemma OneCallKeepsInv(t: OrderTables, intents: map<string, IntentRow>, call: Call)
    requires Inv(t) && PositiveIntents(intents)
    ensures Inv(AfterCall(t, intents, call))
  {
    hide Inv, Ensure, Execute;
    match call {
      case EnsureCall(domain, intent) => EnsureKeepsInv(t, intents, domain, intent);
      case ExecuteCall(domain, intent, cmd) => ExecuteKeepsInv(t, domain, intent, cmd);
    }
  }

  lemma EmptyFits()
    ensures Inv(EMPTY_TABLES) && AllFit(EMPTY_TABLES)
  {
  }

  /** In every run, the log tells each intent's status, last error and exchange id: nothing sent on
      an empty log; in flight after the start alone; rejected after the start and that rejection;
      unknown after the start, that unknown result and fruitless queries; accepted by the
      submission's result or by a query after an unknown one, with only cancels and trades since.
      The cancel status is that of the last cancel entry. */
  lemma EveryRunFollowsLifecycle(intents: map<string, IntentRow>, calls: seq<Call>, id: string)
    requires PositiveIntents(intents) && id in AfterCalls(EMPTY_TABLES, intents, calls).facts
    ensures var t := AfterCalls(EMPTY_TABLES, intents, calls);
            SubmissionFits(t.facts[id], t.log[id]) && t.facts[id].cancel == LastCancel(t.log[id])
  {
    hide SubmissionFits, GoodLog, Replay, HasAcceptance, AfterCalls;
    EmptyFits();
    CallsKeepFit(EMPTY_TABLES, intents, calls);
    var t := AfterCalls(EMPTY_TABLES, intents, calls);
    assert GoodRow(t.facts[id], t.log[id], Booked(t.trades, id));
    ReplayKeepsCancel(t.facts[id], t.log[id]);
  }

  // ---------------------------------------------------------------- which calls are recorded

  /** Another intent holds this exchange order id at this intent's venue. */
  predicate HeldElsewhere(t: OrderTables, id: string, exchangeOrderId: string)
    requires id in t.facts
  {
    exists other | other in t.facts && other != id ::
      t.facts[other].venue == t.facts[id].venue && t.facts[other].exchangeOrderId == Some(exchangeOrderId)
  }

  predicate AcceptedUnder(log: seq<ActionFact>, exchangeOrderId: string) {
    exists j | 0 <= j < |log| :: log[j].action in {SubmitAccepted(exchangeOrderId), QueryFound(exchangeOrderId)}
  }

  /** When a command may be recorded, told from the log and the other tables. */
  predicate MayRecord(t: OrderTables, id: string, cmd: Command)
    requires id in t.log && id in t.facts
  {
    var log := t.log[id];
    match cmd
    case StartSubmit(digest) => ValidId(id) && ValidDigest(digest) && log == []
    case FinishSubmit(ResultAccepted(x)) => |log| == 1 && ValidId(x) && !HeldElsewhere(t, id, x)
    case FinishSubmit(ResultRejected(reason)) => |log| == 1 && ValidId(reason)
    case FinishSubmit(ResultUnknown(reason)) => |log| == 1 && ValidId(reason)
    case Query(NotFound(q, deadline)) =>
      && |log| >= 2 && log[1].action.SubmitUnknown? && !HasAcceptance(log)
      && ValidId(q) && q !in t.queries && deadline <= I64_MAX
    case Query(Found(q, x)) =>
      && |log| >= 2 && log[1].action.SubmitUnknown? && !HasAcceptance(log)
      && ValidId(q) && q !in t.queries && ValidId(x) && !HeldElsewhere(t, id, x)
    case RequestCancel => ValidId(id) && HasAcceptance(log) && (LastCancel(log) == NoCancel || LastCancel(log) == CancelUnknown)
    case FinishCancel(_) => HasAcceptance(log) && (LastCancel(log) == CancelRequested || LastCancel(log) == CancelUnknown)
    case RecordTrade(trade) =>
      && ValidTrade(trade) && AcceptedUnder(log, trade.exchangeOrderId) && t.facts[id].venue == trade.venue
      && (KeyStored(t.trades, trade) || (trade.sourceSequence <= I64_MAX && trade.occurredAtMs <= I64_MAX))
  }

  lemma AcceptanceNames(row: OrderFact, log: seq<ActionFact>, x: string)
    requires SubmissionFits(row, log) && GoodLog(log)
    requires row.exchangeOrderId.Some? <==> row.submission == Accepted
    requires HasAcceptance(log) <==> row.submission == Accepted
    ensures AcceptedUnder(log, x) <==> row.exchangeOrderId == Some(x)
  {
    if j :| 0 <= j < |log| && log[j].action in {SubmitAccepted(x), QueryFound(x)} {
      assert Accepts(log[j].action) && HasAcceptance(log);
      var a :| 1 <= a < |log| && AcceptedAt(row, log, a);
      assert Accepts(log[a].action);
      assert j == a;
    }
    if row.exchangeOrderId == Some(x) {
      var a :| 1 <= a < |log| && AcceptedAt(row, log, a);
      assert log[a].action in {SubmitAccepted(x), QueryFound(x)};
    }
  }

  lemma StatusFromLog(row: OrderFact, log: seq<ActionFact>, booked: real)
    requires SubmissionFits(row, log) && GoodRow(row, log, booked)
    ensures row.submission == NotSent <==> log == []
    ensures row.submission == InFlight <==> |log| == 1
    ensures row.submission == SubmissionUnknown <==> |log| >= 2 && log[1].action.SubmitUnknown? && !HasAcceptance(log)
    ensures row.submission == Accepted <==> HasAcceptance(log)
    ensures row.cancel == LastCancel(log)
  {
    ReplayKeepsCancel(row, log);
    hide GoodLog, Replay, HasAcceptance, LastCancel;
  }

  lemma TakenMeansHeld(t: OrderTables, id: string, x: string)
    requires id in t.facts
    ensures IdTaken(t.facts, id, t.facts[id].venue, x) <==> HeldElsewhere(t, id, x)
  {
  }

  lemma TransactAcceptsExactlyWhen(t: OrderTables, id: string, cmd: Command)
    requires Inv(t) && AllFit(t) && id in t.facts
    ensures InputOk(id, cmd) && Transact(t, t.facts[id], cmd).Ok? <==> MayRecord(t, id, cmd)
  {
    hide UniqueIds, AllOwned, ValidId, ValidDigest, ValidTrade, GoodLog, Replay, HasAcceptance, SubmissionFits, LastCancel,
         IdTaken, HeldElsewhere, AcceptedUnder, Stored, KeyStored, DistinctKeys;
    var row, log := t.facts[id], t.log[id];
    assert row.intentId == id && GoodRow(row, log, Booked(t.trades, id));
    StatusFromLog(row, log, Booked(t.trades, id));
    match cmd
    case FinishSubmit(ResultAccepted(x)) => TakenMeansHeld(t, id, x);
    case Query(Found(_, x)) => TakenMeansHeld(t, id, x);
    case RecordTrade(trade) =>
      AcceptanceNames(row, log, trade.exchangeOrderId);
      StoredMeans(t.trades, trade);
    case _ =>
  }

  /** In every reachable state a call is recorded if and only if the log and the other tables allow
      its command. It is answered with the new row exactly when, beyond that, it is no reused trade
      and the core holds the intent's domain; otherwise it reports an error. */
  lemma AnsweredExactlyWhen(t: OrderTables, domain: (string, string), id: string, cmd: Command)
    requires Inv(t) && AllFit(t) && id in t.facts
    ensures var (t', r) := Execute(t, domain, id, cmd);
            && (Recorded(t, id, cmd, t') <==> MayRecord(t, id, cmd))
            && (r.Ok? <==>
                  && MayRecord(t, id, cmd) && t.facts[id].domain == domain
                  && !(cmd.RecordTrade? && KeyStored(t.trades, cmd.trade) && !ContentStored(t.trades, cmd.trade)))
            && (r.Ok? ==> r.value == t'.facts[id])
  {
    TransactAcceptsExactlyWhen(t, id, cmd);
    CallRecordsItsCommand(t, domain, id, cmd);
    hide UniqueIds, AllFit, MayRecord, Records, BooksNewTrade, KeyStored, ContentStored, GoodLog, Replay, HasAcceptance, InputOk;
    if Transact(t, t.facts[id], cmd).Ok? {
      RefusedTrades(t, t.facts[id], cmd);
    }
    hide Transact;
  }

  lemma RefusedTrades(t: OrderTables, row: OrderFact, cmd: Command)
    requires DistinctKeys(t.trades) && Transact(t, row, cmd).Ok?
    ensures var c := Transact(t, row, cmd).value;
            && c.row.domain == row.domain
            && (c.conflict <==> cmd.RecordTrade? && KeyStored(t.trades, cmd.trade) && !ContentStored(t.trades, cmd.trade))
  {
    hide IdTaken, ValidId, FitsColumns, Stored, KeyStored, ContentStored;
    if cmd.RecordTrade? {
      StoredMeans(t.trades, cmd.trade);
    }
  }

  /** What a recorded command may change of its row. Identity never changes and the version counts
      up. Only trades touch the fill and the reconciliation, only cancels the cancel status, and only
      a start, a result and a successful query the status, the id and the error. A new trade adds its
      quantity and decides the reconciliation; a repeated one changes neither; one stored with other
      content sets the conflict. */
  lemma CommandsTouchTheirOwn(t: OrderTables, domain: (string, string), id: string, cmd: Command)
    requires Inv(t) && id in t.facts && Execute(t, domain, id, cmd).0 != t
    ensures var (was, facts) := (t.facts[id], Execute(t, domain, id, cmd).0.facts);
            && id in facts && TouchesItsOwn(t, was, facts[id], cmd)
  {
    hide UniqueIds, AllOwned, GoodRow, InputOk, Stored, KeyStored, ContentStored, DistinctKeys, IdTaken, FitsColumns, ValidId;
    if cmd.RecordTrade? {
      StoredMeans(t.trades, cmd.trade);
    }
  }

  predicate TouchesItsOwn(t: OrderTables, was: OrderFact, row: OrderFact, cmd: Command) {
    && (row.intentId, row.domain, row.venue, row.orderedQuantity) == (was.intentId, was.domain, was.venue, was.orderedQuantity)
    && row.lastFactVersion == was.lastFactVersion + 1
    && (!cmd.RecordTrade? ==> row.filledQuantity == was.filledQuantity && row.reconciliation == was.reconciliation)
    && (!cmd.RequestCancel? && !cmd.FinishCancel? ==> row.cancel == was.cancel)
    && (cmd.StartSubmit? || cmd.FinishSubmit? || (cmd.Query? && cmd.answer.Found?)
        || (row.submission, row.exchangeOrderId, row.lastError) == (was.submission, was.exchangeOrderId, was.lastError))
    && (cmd.RecordTrade? ==>
          if !KeyStored(t.trades, cmd.trade) then
            && row.filledQuantity == was.filledQuantity + cmd.trade.quantity.value
            && row.reconciliation == (if row.filledQuantity <= was.orderedQuantity then Matched else Conflict)
          else
            && row.filledQuantity == was.filledQuantity
            && row.reconciliation == (if ContentStored(t.trades, cmd.trade) then was.reconciliation else Conflict))
  }

  /** A materialised row: the intent's own identity, venue and quantity, and no history. Only the
      core of the intent's domain makes it, and only once. */
  lemma EnsureMaterialises(t: OrderTables, intents: map<string, IntentRow>, domain: (string, string), id: string)
    requires t.facts.Keys == t.log.Keys && ValidId(id)
    ensures var (t', r) := Ensure(t, intents, domain, id);
            && (t' != t <==> id !in t.facts && id in intents && intents[id].domain == domain)
            && (t' != t ==>
                  && t' == t.(facts := t'.facts, log := t.log[id := []])
                  && t'.facts == t.facts[id := t'.facts[id]]
                  && t'.facts[id].intentId == id && t'.facts[id].domain == domain
                  && t'.facts[id].venue == intents[id].venue && t'.facts[id].orderedQuantity == intents[id].quantity
                  && t'.facts[id].submission == NotSent && t'.facts[id].cancel == NoCancel
                  && t'.facts[id].reconciliation == Pending && t'.facts[id].filledQuantity == 0.0)
            && (r.Ok? <==> id in t'.facts && t'.facts[id].domain == domain)
            && (r.Ok? ==> r.value == t'.facts[id])
  {
    hide ValidId;
  }

  // ---------------------------------------------------------------- what results lead to

  lemma {:induction false} CallsGrow(t: OrderTables, intents: map<string, IntentRow>, calls: seq<Call>)
    requires Inv(t) && AllFit(t) && PositiveIntents(intents)
    ensures var t' := AfterCalls(t, intents, calls); Inv(t') && AllFit(t') && Grown(t, t')
  {
    hide Inv, AllFit, Grown, AfterCalls;
    CallsKeepInv(t, intents, calls);
    CallsKeepFit(t, intents, calls);
  }

  lemma NothingRecorded(t: OrderTables, domain: (string, string), id: string, cmd: Command)
    requires Inv(t) && AllFit(t) && id in t.facts && !MayRecord(t, id, cmd)
    ensures Execute(t, domain, id, cmd).0 == t && Execute(t, domain, id, cmd).1.Err?
  {
    AnsweredExactlyWhen(t, domain, id, cmd);
    CallRecordsItsCommand(t, domain, id, cmd);
    hide Inv, AllFit, MayRecord, Execute, Recorded;
  }

  /** The result of a submission in flight, whoever reports it: accepted under the reported id with
      no error; or rejected, or unknown, each with the reported reason and no id. */
  lemma ResultDecidesSubmission(t: OrderTables, domain: (string, string), id: string, result: SubmitResult)
    requires Inv(t) && AllFit(t) && id in t.facts && t.facts[id].submission == InFlight
    requires MayRecord(t, id, FinishSubmit(result))
    ensures var (was, now) := (t.facts[id], Execute(t, domain, id, FinishSubmit(result)).0.facts);
            && id in now && now[id].lastFactVersion == 2
            && now[id].cancel == was.cancel && now[id].filledQuantity == was.filledQuantity
            && match result
               case ResultAccepted(x) =>
                 now[id].submission == Accepted && now[id].exchangeOrderId == Some(x) && now[id].lastError == None
               case ResultRejected(reason) =>
                 now[id].submission == DefinitelyRejected && now[id].exchangeOrderId == None && now[id].lastError == Some(reason)
               case ResultUnknown(reason) =>
                 now[id].submission == SubmissionUnknown && now[id].exchangeOrderId == None && now[id].lastError == Some(reason)
  {
    hide UniqueIds, GoodTrades, MayRecord, GoodLog, Replay, HasAcceptance, IdTaken, ValidId;
    TransactAcceptsExactlyWhen(t, id, FinishSubmit(result));
    assert GoodRow(t.facts[id], t.log[id], Booked(t.trades, id));
    assert SubmissionFits(t.facts[id], t.log[id]);
  }

  /** After a definite rejection, whatever calls follow, by any core: the row and the log stay, and
      every further call on the intent changes nothing and is refused. */
  lemma RejectionIsFinal(t: OrderTables, intents: map<string, IntentRow>, domain: (string, string), id: string, reason: string,
                         calls: seq<Call>, later: (string, string), cmd: Command)
    requires Inv(t) && AllFit(t) && PositiveIntents(intents) && id in t.facts
    requires t.facts[id].submission == InFlight && ValidId(reason)
    ensures var rejected := Execute(t, domain, id, FinishSubmit(ResultRejected(reason))).0;
            var after := AfterCalls(rejected, intents, calls);
            && id in rejected.facts && rejected.facts[id].submission == DefinitelyRejected
            && rejected.facts[id].lastError == Some(reason)
            && id in after.facts && after.facts[id] == rejected.facts[id] && after.log[id] == rejected.log[id]
            && Execute(after, later, id, cmd).0 == after && Execute(after, later, id, cmd).1.Err?
  {
    hide UniqueIds, GoodTrades, GoodLog, Replay, HasAcceptance, ValidId, Execute, Recorded;
    assert |t.log[id]| == 1 by { assert SubmissionFits(t.facts[id], t.log[id]); }
    ResultDecidesSubmission(t, domain, id, ResultRejected(reason));
    CallKeepsFit(t, intents, ExecuteCall(domain, id, FinishSubmit(ResultRejected(reason))));
    ExecuteKeepsInv(t, domain, id, FinishSubmit(ResultRejected(reason)));
    var rejected := Execute(t, domain, id, FinishSubmit(ResultRejected(reason))).0;
    CallsGrow(rejected, intents, calls);
    var after := AfterCalls(rejected, intents, calls);
    RejectedRefuses(after, id, cmd);
    NothingRecorded(after, later, id, cmd);
  }

  lemma RejectedRefuses(t: OrderTables, id: string, cmd: Command)
    requires Inv(t) && AllFit(t) && id in t.facts && t.facts[id].submission == DefinitelyRejected
    ensures !MayRecord(t, id, cmd)
  {
    hide UniqueIds, GoodTrades, GoodLog, Replay, ValidId, ValidDigest, ValidTrade, KeyStored, HeldElsewhere, LastCancel;
    assert GoodRow(t.facts[id], t.log[id], Booked(t.trades, id));
    assert SubmissionFits(t.facts[id], t.log[id]);
    assert forall x :: !AcceptedUnder(t.log[id], x);
  }

  /** After an unknown result a query under a fresh id is always accepted: a fruitless one leaves
      the row as it was but for its version, and one that finds an order no other intent holds
      accepts it under the found id, the reason of the unknown result staying on the row. */
  lemma TimeoutLeavesQueryable(t: OrderTables, domain: (string, string), id: string, answer: QueryResult)
    requires Inv(t) && AllFit(t) && id in t.facts && t.facts[id].submission == SubmissionUnknown
    requires ValidId(answer.queryId) && answer.queryId !in t.queries
    requires match answer
             case NotFound(_, deadline) => deadline <= I64_MAX
             case Found(_, x) => ValidId(x) && !HeldElsewhere(t, id, x)
    ensures var (was, t') := (t.facts[id], Execute(t, domain, id, Query(answer)).0);
            && id in t'.facts && Recorded(t, id, Query(answer), t')
            && match answer
               case NotFound(_, _) => t'.facts[id] == was.(lastFactVersion := was.lastFactVersion + 1)
               case Found(_, x) =>
                 && t'.facts[id].submission == Accepted && t'.facts[id].exchangeOrderId == Some(x)
                 && t'.facts[id].lastError == was.lastError && was.lastError.Some?
  {
    hide UniqueIds, GoodTrades, GoodLog, Replay, HasAcceptance, ValidId, HeldElsewhere, IdTaken, Recorded;
    assert GoodRow(t.facts[id], t.log[id], Booked(t.trades, id));
    assert SubmissionFits(t.facts[id], t.log[id]);
    AnsweredExactlyWhen(t, domain, id, Query(answer));
    TransactAcceptsExactlyWhen(t, id, Query(answer));
  }

  lemma ConfirmedStays(t: OrderTables, intents: map<string, IntentRow>, id: string, call: Call)
    requires Inv(t) && AllFit(t) && id in t.facts && LastCancel(t.log[id]) == CancelConfirmed
    ensures var t' := AfterCall(t, intents, call);
            id in t'.facts && LastCancel(t'.log[id]) == CancelConfirmed
  {
    hide UniqueIds, GoodTrades, GoodRow, AllFit, Transact, InputOk, ValidId, LastCancel, MayRecord, Recorded;
    if call.ExecuteCall? && call.intent == id {
      CallRecordsItsCommand(t, call.domain, id, call.cmd);
      AnsweredExactlyWhen(t, call.domain, id, call.cmd);
      var t' := Execute(t, call.domain, id, call.cmd).0;
      if t' != t {
        EntryKeepsConfirmed(t, id, call.cmd, t');
      }
    }
  }

  lemma EntryKeepsConfirmed(t: OrderTables, id: string, cmd: Command, t': OrderTables)
    requires id in t.facts && id in t.log && id in t'.log
    requires LastCancel(t.log[id]) == CancelConfirmed && MayRecord(t, id, cmd) && Recorded(t, id, cmd, t')
    ensures LastCancel(t'.log[id]) == CancelConfirmed
  {
    hide KeyStored, ContentStored, HeldElsewhere, AcceptedUnder, HasAcceptance, ValidId, ValidDigest, ValidTrade;
    assert t'.log[id][..|t.log[id]|] == t.log[id];
  }

  /** After a confirmed cancel, whatever calls follow, by any core: it stays confirmed, and every
      further cancel request or cancel result is refused; but a valid storable trade of the order
      that is not stored yet is still booked. */
  lemma {:induction false} ConfirmedCancelIsFinal(t: OrderTables, intents: map<string, IntentRow>, id: string, calls: seq<Call>,
                                                  later: (string, string))
    requires Inv(t) && AllFit(t) && PositiveIntents(intents) && id in t.facts && LastCancel(t.log[id]) == CancelConfirmed
    ensures var after := AfterCalls(t, intents, calls);
            && id in after.facts && after.facts[id].cancel == CancelConfirmed
            && Execute(after, later, id, RequestCancel).0 == after && Execute(after, later, id, RequestCancel).1.Err?
            && (forall b :: Execute(after, later, id, FinishCancel(b)).0 == after && Execute(after, later, id, FinishCancel(b)).1.Err?)
            && forall trade | NewTrade(after, after.facts[id], trade) ::
                 Recorded(after, id, RecordTrade(trade), Execute(after, later, id, RecordTrade(trade)).0)
    decreases |calls|
  {
    hide UniqueIds, GoodLog, Replay, HasAcceptance, Execute, Ensure, AllFit, Recorded, MayRecord, AllOwned, ValidTrade, Stored;
    if calls == [] {
      ConfirmedDecides(t, id);
      NothingRecorded(t, later, id, RequestCancel);
      NothingRecorded(t, later, id, FinishCancel(true));
      NothingRecorded(t, later, id, FinishCancel(false));
      forall trade | NewTrade(t, t.facts[id], trade) ensures Recorded(t, id, RecordTrade(trade), Execute(t, later, id, RecordTrade(trade)).0) {
        NewTradeRecorded(t, later, id, trade);
      }
    } else {
      var next := AfterCall(t, intents, calls[0]);
      ConfirmedStays(t, intents, id, calls[0]);
      CallKeepsFit(t, intents, calls[0]);
      OneCallKeepsInv(t, intents, calls[0]);
      ConfirmedCancelIsFinal(next, intents, id, calls[1..], later);
    }
  }

  lemma ConfirmedDecides(t: OrderTables, id: string)
    requires Inv(t) && id in t.facts && LastCancel(t.log[id]) == CancelConfirmed
    ensures t.facts[id].cancel == CancelConfirmed
    ensures !MayRecord(t, id, RequestCancel) && !MayRecord(t, id, FinishCancel(true)) && !MayRecord(t, id, FinishCancel(false))
  {
    hide UniqueIds, GoodTrades, GoodLog, HasAcceptance, Replay, LastCancel, ValidId;
    assert GoodRow(t.facts[id], t.log[id], Booked(t.trades, id));
    ReplayKeepsCancel(t.facts[id], t.log[id]);
  }

  lemma NewTradeRecorded(t: OrderTables, domain: (string, string), id: string, trade: TradeInput)
    requires Inv(t) && AllFit(t) && id in t.facts && NewTrade(t, t.facts[id], trade)
    ensures Recorded(t, id, RecordTrade(trade), Execute(t, domain, id, RecordTrade(trade)).0)
  {
    hide Inv, AllFit, MayRecord, Execute, Recorded, Stored, ValidTrade, FitsColumns;
    TransactAcceptsExactlyWhen(t, id, RecordTrade(trade));
    AnsweredExactlyWhen(t, domain, id, RecordTrade(trade));
  }
}
