/** Trades may be delivered in any order and any number of times (crates/core/src/order.rs). */
module OrderDelivery {
  import opened Common
  import opened Text
  import opened OrderModel
  import opened OrderHistory

  /** A delivery: trade reports and cancel steps for one intent. */
  predicate IsDelivery(cmds: seq<Command>) {
    forall i | 0 <= i < |cmds| :: cmds[i].RecordTrade? || cmds[i].RequestCancel? || cmds[i].FinishCancel?
  }

  function Deliver(t: OrderTables, domain: (string, string), id: string, cmds: seq<Command>): (r: OrderTables)
    requires t.facts.Keys == t.log.Keys
    ensures r.facts.Keys == r.log.Keys
  {
    if cmds == [] then t
    else Execute(Deliver(t, domain, id, cmds[..|cmds| - 1]), domain, id, cmds[|cmds| - 1]).0
  }

  function TradesIn(cmds: seq<Command>): set<TradeInput> {
    set i | 0 <= i < |cmds| && cmds[i].RecordTrade? :: cmds[i].trade
  }

  /** The cancel steps of a delivery, in their order. */
  function CancelsIn(cmds: seq<Command>): seq<Command> {
    if cmds == [] then []
    else CancelsIn(cmds[..|cmds| - 1]) + (if cmds[|cmds| - 1].RecordTrade? then [] else [cmds[|cmds| - 1]])
  }

  function StoredSet(trades: seq<TradeFact>): set<TradeInput> {
    set k | 0 <= k < |trades| :: trades[k].trade
  }

  /** No trade key is used with two contents, among these trades and the stored ones. */
  predicate ConflictFree(trades: set<TradeInput>) {
    forall a, b | a in trades && b in trades && SameKey(a, b) :: a == b
  }

  /** The trade passes validation, fits its columns and names this order. */
  predicate Bookable(row: OrderFact, trade: TradeInput) {
    && ValidTrade(trade) && FitsColumns(trade)
    && row.exchangeOrderId == Some(trade.exchangeOrderId) && row.venue == trade.venue
  }

  /** The cancel status after the cancel steps alone. */
  function CancelAfter(start: Cancel, cancels: seq<Command>): Cancel {
    if cancels == [] then start
    else CancelStep(CancelAfter(start, cancels[..|cancels| - 1]), cancels[|cancels| - 1])
  }

  function CancelStep(c: Cancel, cmd: Command): Cancel {
    match cmd
    case RequestCancel => if c == NoCancel || c == CancelUnknown then CancelRequested else c
    case FinishCancel(confirmed) =>
      if c == CancelRequested || c == CancelUnknown then (if confirmed then CancelConfirmed else CancelUnknown) else c
    case _ => c
  }

  /** The stored trades are extended for one intent by the bookable ones among those delivered. */
  predicate TradesDelivered(trades: seq<TradeFact>, trades': seq<TradeFact>, id: string, row: OrderFact, delivered: set<TradeInput>) {
    && trades <= trades'
    && (forall k | |trades| <= k < |trades'| :: trades'[k].intentId == id)
    && StoredSet(trades') == StoredSet(trades) + (set x | x in delivered && Bookable(row, x))
  }

  /** How tables after a delivery relate to the tables before it, in terms of the delivered
      trades as a set and the cancel steps as a sequence only. */
  predicate Delivered(t: OrderTables, id: string, cmds: seq<Command>, t': OrderTables)
    requires id in t.facts && id in t'.facts
  {
    var row, row' := t.facts[id], t'.facts[id];
    && Inv(t')
    && row'.submission == row.submission && row'.exchangeOrderId == row.exchangeOrderId
    && row'.venue == row.venue && row'.orderedQuantity == row.orderedQuantity
    && row'.cancel == CancelAfter(row.cancel, CancelsIn(cmds))
    && TradesDelivered(t.trades, t'.trades, id, row, TradesIn(cmds))
    && (t'.trades == t.trades ==> row'.reconciliation == row.reconciliation)
    && (t'.trades != t.trades ==> row'.reconciliation == Reconciled(row'.filledQuantity, row.orderedQuantity))
  }

  lemma TradesInStep(cmds: seq<Command>)
    requires cmds != []
    ensures var last := cmds[|cmds| - 1];
            TradesIn(cmds) == TradesIn(cmds[..|cmds| - 1]) + (if last.RecordTrade? then {last.trade} else {})
  {
    var n := |cmds| - 1;
    var init := cmds[..n];
    forall x | x in TradesIn(cmds)
      ensures x in TradesIn(init) || (cmds[n].RecordTrade? && x == cmds[n].trade)
    {
      var i :| 0 <= i < |cmds| && cmds[i].RecordTrade? && cmds[i].trade == x;
      if i < n { assert init[i] == cmds[i]; }
    }
    forall x | x in TradesIn(init) ensures x in TradesIn(cmds) {
      var i :| 0 <= i < |init| && init[i].RecordTrade? && init[i].trade == x;
      assert cmds[i] == init[i];
    }
  }

  lemma StoredSetExtends(trades: seq<TradeFact>, f: TradeFact)
    ensures StoredSet(trades + [f]) == StoredSet(trades) + {f.trade}
  {
    var all := trades + [f];
    forall x | x in StoredSet(trades) + {f.trade} ensures x in StoredSet(all) {
      if x == f.trade {
        assert all[|trades|].trade == x;
      } else {
        var k :| 0 <= k < |trades| && trades[k].trade == x;
        assert all[k].trade == x;
      }
    }
  }

  lemma StoredInSet(trades: seq<TradeFact>, x: TradeInput)
    requires ConflictFree(StoredSet(trades) + {x})
    ensures Stored(trades, x) == if x in StoredSet(trades) then Some(x) else None
  {
    StoredFinds(trades, x);
    if Stored(trades, x).Some? {
      var k :| 0 <= k < |trades| && trades[k].trade == Stored(trades, x).value;
      assert trades[k].trade in StoredSet(trades);
    }
  }

  /** One cancel step only moves the cancel status. */
  lemma CancelDelivered(t: OrderTables, domain: (string, string), id: string, cmd: Command)
    requires Inv(t) && id in t.facts && t.facts[id].submission == Accepted && ValidId(id)
    requires cmd.RequestCancel? || cmd.FinishCancel?
    ensures var t' := Execute(t, domain, id, cmd).0;
            && id in t'.facts && t'.trades == t.trades
            && t'.facts[id] == t.facts[id].(cancel := CancelStep(t.facts[id].cancel, cmd), lastFactVersion := t'.facts[id].lastFactVersion)
  {
    hide GoodRow, UniqueIds, GoodTrades, ValidId, Load;
  }

  /** One trade report adds the trade if it is bookable and new, and otherwise changes nothing
      but the log. */
  lemma TradeDelivered(t: OrderTables, domain: (string, string), id: string, trade: TradeInput)
    requires Inv(t) && id in t.facts && ConflictFree(StoredSet(t.trades) + {trade})
    ensures var t' := Execute(t, domain, id, RecordTrade(trade)).0;
            var row := t.facts[id];
            && id in t'.facts
            && (Bookable(row, trade) && trade !in StoredSet(t.trades) ==>
                  var filled := row.filledQuantity + trade.quantity.value;
                  && t'.trades == t.trades + [TradeFact(id, trade)]
                  && t'.facts[id] == row.(filledQuantity := filled, reconciliation := Reconciled(filled, row.orderedQuantity),
                                          lastFactVersion := row.lastFactVersion + 1))
            && (!(Bookable(row, trade) && trade !in StoredSet(t.trades)) ==>
                  && t'.trades == t.trades
                  && t'.facts[id] == row.(lastFactVersion := t'.facts[id].lastFactVersion))
  {
    hide ValidTrade, FitsColumns, GoodRows, UniqueIds, Stored;
    StoredInSet(t.trades, trade);
  }

  lemma {:induction false} DeliveryIsDetermined(t: OrderTables, domain: (string, string), id: string, cmds: seq<Command>)
    requires Inv(t) && id in t.facts && t.facts[id].submission == Accepted && ValidId(id)
    requires IsDelivery(cmds) && ConflictFree(StoredSet(t.trades) + TradesIn(cmds))
    ensures id in Deliver(t, domain, id, cmds).facts
    ensures Delivered(t, id, cmds, Deliver(t, domain, id, cmds))
  {
    hide Inv, Delivered, Execute, ConflictFree, TradesIn, StoredSet, IsDelivery;
    if cmds == [] {
      NothingDelivered(t, id);
    } else {
      hide Deliver;
      var n := |cmds| - 1;
      var init, last := cmds[..n], cmds[n];
      assert cmds == init + [last];
      KeysAgree(t);
      DeliverStep(t, domain, id, cmds);
      TradesInStep(cmds);
      SubsetConflictFree(StoredSet(t.trades) + TradesIn(init), StoredSet(t.trades) + TradesIn(cmds));
      DeliveryIsDetermined(t, domain, id, init);
      StepDelivered(t, domain, id, init, last, Deliver(t, domain, id, init));
    }
  }

  lemma StepDelivered(t: OrderTables, domain: (string, string), id: string, init: seq<Command>, last: Command, mid: OrderTables)
    requires Inv(t) && id in t.facts && t.facts[id].submission == Accepted && ValidId(id)
    requires id in mid.facts && Delivered(t, id, init, mid) && mid.facts.Keys == mid.log.Keys
    requires last.RecordTrade? || last.RequestCancel? || last.FinishCancel?
    requires ConflictFree(StoredSet(t.trades) + TradesIn(init + [last]))
    requires TradesIn(init + [last]) == TradesIn(init) + (if last.RecordTrade? then {last.trade} else {})
    ensures id in Execute(mid, domain, id, last).0.facts
    ensures Delivered(t, id, init + [last], Execute(mid, domain, id, last).0)
  {
    hide Inv, Delivered, Execute, ConflictFree, TradesIn, StoredSet;
    DeliveredKeepsInv(t, id, init, mid);
    ExecuteKeepsInv(mid, domain, id, last);
    if last.RecordTrade? {
      assert StoredSet(t.trades) + TradesIn(init + [last]) == StoredSet(t.trades) + TradesIn(init) + {last.trade};
      TradeStepDelivered(t, domain, id, init, last.trade, mid);
    } else {
      CancelStepDelivered(t, domain, id, init, last, mid);
    }
  }

  lemma KeysAgree(t: OrderTables)
    requires Inv(t)
    ensures t.facts.Keys == t.log.Keys
  {
  }

  lemma DeliverStep(t: OrderTables, domain: (string, string), id: string, cmds: seq<Command>)
    requires t.facts.Keys == t.log.Keys && cmds != [] && IsDelivery(cmds)
    ensures var init, last := cmds[..|cmds| - 1], cmds[|cmds| - 1];
            && Deliver(t, domain, id, cmds) == Execute(Deliver(t, domain, id, init), domain, id, last).0
            && IsDelivery(init) && (last.RecordTrade? || last.RequestCancel? || last.FinishCancel?)
  {
    hide Execute;
  }

  lemma NothingDelivered(t: OrderTables, id: string)
    requires Inv(t) && id in t.facts
    ensures Delivered(t, id, [], t)
  {
    hide Inv;
    assert TradesIn([]) == {};
  }

  lemma DeliveredKeepsInv(t: OrderTables, id: string, cmds: seq<Command>, t': OrderTables)
    requires id in t.facts && id in t'.facts && Delivered(t, id, cmds, t')
    ensures Inv(t')
  {
  }

  lemma CancelStepDelivered(t: OrderTables, domain: (string, string), id: string, init: seq<Command>, last: Command, mid: OrderTables)
    requires Inv(t) && id in t.facts && t.facts[id].submission == Accepted && ValidId(id)
    requires id in mid.facts && Delivered(t, id, init, mid)
    requires last.RequestCancel? || last.FinishCancel?
    requires Inv(Execute(mid, domain, id, last).0)
    requires TradesIn(init + [last]) == TradesIn(init)
    ensures id in Execute(mid, domain, id, last).0.facts
    ensures Delivered(t, id, init + [last], Execute(mid, domain, id, last).0)
  {
    hide Inv, Execute, TradesIn, TradesDelivered;
    CancelDelivered(mid, domain, id, last);
    assert (init + [last])[..|init + [last]| - 1] == init;
    var before := CancelsIn(init);
    assert (before + [last])[..|before + [last]| - 1] == before;
  }

  lemma TradeStepDelivered(t: OrderTables, domain: (string, string), id: string, init: seq<Command>, trade: TradeInput, mid: OrderTables)
    requires Inv(t) && id in t.facts
    requires id in mid.facts && Delivered(t, id, init, mid)
    requires ConflictFree(StoredSet(t.trades) + TradesIn(init) + {trade})
    requires Inv(Execute(mid, domain, id, RecordTrade(trade)).0)
    requires TradesIn(init + [RecordTrade(trade)]) == TradesIn(init) + {trade}
    ensures id in Execute(mid, domain, id, RecordTrade(trade)).0.facts
    ensures Delivered(t, id, init + [RecordTrade(trade)], Execute(mid, domain, id, RecordTrade(trade)).0)
  {
    hide Inv, Execute, TradesIn, StoredSet, Bookable, ConflictFree, TradesDelivered;
    var last := RecordTrade(trade);
    StoredStaysWithin(t.trades, mid.trades, id, t.facts[id], TradesIn(init));
    SubsetConflictFree(StoredSet(mid.trades) + {trade}, StoredSet(t.trades) + TradesIn(init) + {trade});
    TradeDelivered(mid, domain, id, trade);
    assert (init + [last])[..|init + [last]| - 1] == init;
    assert CancelsIn(init + [last]) == CancelsIn(init);
    SameBookable(t.facts[id], mid.facts[id], trade);
    OneMoreDelivered(t.trades, mid.trades, id, t.facts[id], TradesIn(init), trade);
    OneMoreBooked(t.trades, mid.trades, id, t.facts[id], TradesIn(init), trade);
  }

  lemma StoredStaysWithin(trades: seq<TradeFact>, trades': seq<TradeFact>, id: string, row: OrderFact, delivered: set<TradeInput>)
    requires TradesDelivered(trades, trades', id, row, delivered)
    ensures StoredSet(trades') <= StoredSet(trades) + delivered
  {
    hide StoredSet, Bookable;
  }

  /** A report that is not bookable, or already stored, adds nothing. */
  lemma OneMoreDelivered(trades: seq<TradeFact>, trades': seq<TradeFact>, id: string, row: OrderFact, delivered: set<TradeInput>, trade: TradeInput)
    requires TradesDelivered(trades, trades', id, row, delivered)
    ensures !(Bookable(row, trade) && trade !in StoredSet(trades')) ==> TradesDelivered(trades, trades', id, row, delivered + {trade})
  {
    hide StoredSet, Bookable;
  }

  lemma OneMoreBooked(trades: seq<TradeFact>, trades': seq<TradeFact>, id: string, row: OrderFact, delivered: set<TradeInput>, trade: TradeInput)
    requires TradesDelivered(trades, trades', id, row, delivered)
    ensures Bookable(row, trade) ==> TradesDelivered(trades, trades' + [TradeFact(id, trade)], id, row, delivered + {trade})
    ensures trades' + [TradeFact(id, trade)] != trades
  {
    StoredSetExtends(trades', TradeFact(id, trade));
    hide StoredSet, Bookable;
  }

  lemma SameBookable(row: OrderFact, row': OrderFact, trade: TradeInput)
    requires row.exchangeOrderId == row'.exchangeOrderId && row.venue == row'.venue
    ensures Bookable(row, trade) == Bookable(row', trade)
  {
  }

  lemma SubsetConflictFree(a: set<TradeInput>, b: set<TradeInput>)
    requires a <= b && ConflictFree(b)
    ensures ConflictFree(a)
  {
  }

  // ---------------------------------------------------------------- sums of trades

  function Quantities(trades: seq<TradeFact>): real {
    if trades == [] then 0.0 else trades[0].trade.quantity.value + Quantities(trades[1..])
  }

  lemma {:induction false} QuantitiesConcat(a: seq<TradeFact>, b: seq<TradeFact>)
    ensures Quantities(a + b) == Quantities(a) + Quantities(b)
  {
    if a == [] {
      assert a + b == b;
    } else {
      assert (a + b)[1..] == a[1..] + b;
      QuantitiesConcat(a[1..], b);
    }
  }

  predicate Distinct(s: seq<TradeFact>) {
    forall i, j | 0 <= i < j < |s| :: s[i] != s[j]
  }

  predicate Contained(a: seq<TradeFact>, b: seq<TradeFact>) {
    forall i | 0 <= i < |a| :: a[i] in b
  }

  function Without(s: seq<TradeFact>, k: nat): seq<TradeFact>
    requires k < |s|
  {
    s[..k] + s[k + 1..]
  }

  lemma WithoutDistinct(s: seq<TradeFact>, k: nat)
    requires k < |s| && Distinct(s)
    ensures Distinct(Without(s, k)) && s[k] !in Without(s, k)
    ensures forall i | 0 <= i < |s| && i != k :: s[i] in Without(s, k)
  {
    var rest := Without(s, k);
    forall i | 0 <= i < |rest| ensures rest[i] == s[if i < k then i else i + 1] {}
    forall i | 0 <= i < |s| && i != k ensures s[i] in rest {
      assert rest[if i < k then i else i - 1] == s[i];
    }
  }

  lemma QuantitiesWithout(s: seq<TradeFact>, k: nat)
    requires k < |s|
    ensures Quantities(s) == Quantities(Without(s, k)) + s[k].trade.quantity.value
  {
    hide Quantities;
    var prefix, suffix := s[..k], s[k + 1..];
    assert s == prefix + ([s[k]] + suffix);
    QuantitiesConcat(prefix, [s[k]] + suffix);
    QuantitiesConcat(prefix, suffix);
    QuantitiesCons(s[k], suffix);
  }

  lemma QuantitiesCons(f: TradeFact, rest: seq<TradeFact>)
    ensures Quantities([f] + rest) == f.trade.quantity.value + Quantities(rest)
  {
    assert ([f] + rest)[1..] == rest;
  }

  lemma ContainedWithout(a: seq<TradeFact>, i: nat, b: seq<TradeFact>, k: nat)
    requires i < |a| && k < |b| && a[i] == b[k] && Distinct(a) && Distinct(b) && Contained(a, b)
    ensures Contained(Without(a, i), Without(b, k))
  {
    WithoutDistinct(a, i);
    WithoutDistinct(b, k);
    var p, q := Without(a, i), Without(b, k);
    forall m | 0 <= m < |p| ensures p[m] in q {
      assert p[m] == a[if m < i then m else m + 1];
      assert p[m] in p && p[m] != b[k];
      var n :| 0 <= n < |b| && b[n] == p[m];
    }
  }

  /** Two duplicate-free lists with the same members have the same total. */
  lemma {:induction false} SameTradesSameTotal(a: seq<TradeFact>, b: seq<TradeFact>)
    requires Distinct(a) && Distinct(b) && Contained(a, b) && Contained(b, a)
    ensures Quantities(a) == Quantities(b)
    decreases |a|
  {
    assert b == [] || b[0] in a;
    if a != [] {
      assert a[0] in b;
      var k :| 0 <= k < |b| && b[k] == a[0];
      WithoutDistinct(a, 0);
      WithoutDistinct(b, k);
      ContainedWithout(a, 0, b, k);
      ContainedWithout(b, k, a, 0);
      SameTradesSameTotal(Without(a, 0), Without(b, k));
      QuantitiesWithout(a, 0);
      QuantitiesWithout(b, k);
    }
  }

  lemma {:induction false} BookedOfSuffix(before: seq<TradeFact>, added: seq<TradeFact>, id: string)
    requires forall k | 0 <= k < |added| :: added[k].intentId == id
    ensures Booked(before + added, id) == Booked(before, id) + Quantities(added)
    decreases |added|
  {
    if added == [] {
      assert before + added == before;
    } else {
      var n := |added| - 1;
      var init := added[..n];
      BookedOfSuffix(before, init, id);
      assert before + added == (before + init) + [added[n]];
      BookedExtends(before + init, added[n], id);
      assert added == init + [added[n]];
      QuantitiesConcat(init, [added[n]]);
      assert [added[n]][1..] == [];
    }
  }

  /** Two deliveries of the same conflict-free collection of trades, in whatever order, with
      whatever repetition and whatever interleaving with the same cancel steps, leave the intent
      with the same filled quantity, reconciliation, cancel status and identity. */
  lemma DeliveryOrderIsIrrelevant(t: OrderTables, domain: (string, string), id: string, a: seq<Command>, b: seq<Command>)
    requires Inv(t) && id in t.facts && t.facts[id].submission == Accepted && ValidId(id)
    requires IsDelivery(a) && IsDelivery(b)
    requires TradesIn(a) == TradesIn(b) && CancelsIn(a) == CancelsIn(b)
    requires ConflictFree(StoredSet(t.trades) + TradesIn(a))
    ensures id in Deliver(t, domain, id, a).facts && id in Deliver(t, domain, id, b).facts
    ensures var x, y := Deliver(t, domain, id, a).facts[id], Deliver(t, domain, id, b).facts[id];
            && x.filledQuantity == y.filledQuantity
            && x.reconciliation == y.reconciliation
            && x.cancel == y.cancel
            && x.submission == y.submission && x.exchangeOrderId == y.exchangeOrderId
  {
    hide Execute, Bookable, ConflictFree, TradesIn, StoredSet;
    DeliveryIsDetermined(t, domain, id, a);
    DeliveryIsDetermined(t, domain, id, b);
    SameStoreSameFill(t, id, Deliver(t, domain, id, a), Deliver(t, domain, id, b));
  }

  lemma SameStoreSameFill(t: OrderTables, id: string, x: OrderTables, y: OrderTables)
    requires id in t.facts && id in x.facts && id in y.facts && Inv(x) && Inv(y)
    requires t.trades <= x.trades && t.trades <= y.trades
    requires forall k | |t.trades| <= k < |x.trades| :: x.trades[k].intentId == id
    requires forall k | |t.trades| <= k < |y.trades| :: y.trades[k].intentId == id
    requires StoredSet(x.trades) == StoredSet(y.trades)
    ensures x.facts[id].filledQuantity == y.facts[id].filledQuantity
    ensures x.trades == t.trades <==> y.trades == t.trades
  {
    hide Inv, StoredSet, DistinctKeys, Distinct, Contained, Quantities, Booked;
    var p := FilledByAdded(t, id, x);
    var q := FilledByAdded(t, id, y);
    AddedCoincide(t.trades, p, q, id);
    AddedCoincide(t.trades, q, p, id);
    SameTradesSameTotal(p, q);
    EmptyTogether(p, q);
    EmptyTogether(q, p);
  }

  /** What the trades added since `t` contribute to the fill. */
  lemma FilledByAdded(t: OrderTables, id: string, x: OrderTables) returns (p: seq<TradeFact>)
    requires id in x.facts && Inv(x) && t.trades <= x.trades
    requires forall k | |t.trades| <= k < |x.trades| :: x.trades[k].intentId == id
    ensures x.trades == t.trades + p && (x.trades == t.trades <==> p == [])
    ensures forall k | 0 <= k < |p| :: p[k].intentId == id
    ensures DistinctKeys(t.trades + p) && Distinct(p)
    ensures x.facts[id].filledQuantity == Booked(t.trades, id) + Quantities(p)
  {
    hide Inv, DistinctKeys, Distinct, Quantities, Booked;
    FilledIsBooked(x, id);
    p := x.trades[|t.trades|..];
    assert x.trades == t.trades + p;
    AddedDistinct(t.trades, p);
    BookedOfSuffix(t.trades, p, id);
  }

  lemma EmptyTogether(p: seq<TradeFact>, q: seq<TradeFact>)
    requires Contained(p, q)
    ensures q == [] ==> p == []
  {
    assert p == [] || p[0] in q;
  }

  lemma FilledIsBooked(t: OrderTables, id: string)
    requires Inv(t) && id in t.facts
    ensures t.facts[id].filledQuantity == Booked(t.trades, id) && DistinctKeys(t.trades)
  {
    hide GoodLog, Replay, HasAcceptance, UniqueIds, AllOwned;
    assert GoodRow(t.facts[id], t.log[id], Booked(t.trades, id));
  }

  lemma AddedDistinct(before: seq<TradeFact>, p: seq<TradeFact>)
    requires DistinctKeys(before + p)
    ensures Distinct(p)
  {
    var n := |before|;
    forall i, j | 0 <= i < j < |p| ensures p[i] != p[j] {
      assert !SameKey((before + p)[n + i].trade, (before + p)[n + j].trade);
    }
  }

  lemma AddedCoincide(before: seq<TradeFact>, p: seq<TradeFact>, q: seq<TradeFact>, id: string)
    requires DistinctKeys(before + p) && DistinctKeys(before + q)
    requires forall k | 0 <= k < |p| :: p[k].intentId == id
    requires forall k | 0 <= k < |q| :: q[k].intentId == id
    requires StoredSet(before + p) == StoredSet(before + q)
    ensures Contained(p, q)
  {
    var n := |before|;
    forall i | 0 <= i < |p| ensures p[i] in q {
      var f := p[i];
      assert (before + p)[n + i] == f;
      assert f.trade in StoredSet(before + p);
      forall k | 0 <= k < n ensures (before + q)[k].trade != f.trade {
        assert (before + p)[k] == before[k] == (before + q)[k];
        assert !SameKey((before + p)[k].trade, (before + p)[n + i].trade);
      }
      var k :| 0 <= k < |before + q| && (before + q)[k].trade == f.trade;
      assert q[k - n] == f;
    }
  }
}
