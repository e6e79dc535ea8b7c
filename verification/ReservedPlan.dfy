/** What a committed reservation shows to the execution and order cores, which join the plan
    tables (crates/core/src/order.rs, crates/core/src/execution.rs). */
module ReservedPlan {
  import opened Common
  import opened PaperRequest
  import opened PaperStore
  import OrderModel

  /** The stored intents with the domain of their plan. */
  function KnownIntents(plans: map<string, PlanRow>, rows: seq<IntentRow>): map<string, OrderModel.IntentRow> {
    if rows == [] then map[]
    else
      var last := rows[|rows| - 1];
      var earlier := KnownIntents(plans, rows[..|rows| - 1]);
      if last.planId in plans then
        earlier[last.intent.intentId :=
          OrderModel.IntentRow(DomainOf(plans[last.planId]), last.intent.venue, last.intent.quantity.value)]
      else earlier
  }

  function DomainOf(plan: PlanRow): (string, string) {
    (plan.account, plan.instrument)
  }

  function KnownPlans(plans: map<string, PlanRow>): map<string, (string, string)> {
    map p | p in plans :: DomainOf(plans[p])
  }

  lemma {:induction false} KnownAreStored(plans: map<string, PlanRow>, rows: seq<IntentRow>, id: string)
    requires id in KnownIntents(plans, rows)
    ensures exists i | 0 <= i < |rows| :: rows[i].intent.intentId == id
  {
    var n := |rows| - 1;
    if rows[n].intent.intentId != id {
      KnownAreStored(plans, rows[..n], id);
    }
  }

  lemma {:induction false} OtherPlanChangesNothing(plans: map<string, PlanRow>, rows: seq<IntentRow>, p: string, row: PlanRow)
    requires forall i | 0 <= i < |rows| :: rows[i].planId != p
    ensures KnownIntents(plans[p := row], rows) == KnownIntents(plans, rows)
  {
    if rows != [] {
      OtherPlanChangesNothing(plans, rows[..|rows| - 1], p, row);
    }
  }

  lemma KnownAppended(plans: map<string, PlanRow>, rows: seq<IntentRow>, row: IntentRow)
    requires row.planId in plans
    ensures KnownIntents(plans, rows + [row]) ==
            KnownIntents(plans, rows)[row.intent.intentId :=
              OrderModel.IntentRow(DomainOf(plans[row.planId]), row.intent.venue, row.intent.quantity.value)]
  {
    assert (rows + [row])[..|rows|] == rows;
  }

  /** After a fresh reservation exactly the plan and its two intents, unknown before, are known
      in the writer's domain, with the venues and quantities of the request. */
  lemma FreshReservationIsKnown(s: Store, c: Call)
    requires Sound(s) && c.ReserveCall? && Serve(s, c).1.Reserved?
    ensures var t := Serve(s, c).0;
            var r := c.request;
            var domain := (c.account, c.instrument);
            var a, b := r.intents[0], r.intents[1];
            && r.planId !in s.plans && KnownPlans(t.plans) == KnownPlans(s.plans)[r.planId := domain]
            && a.intentId !in KnownIntents(s.plans, s.intents) && b.intentId !in KnownIntents(s.plans, s.intents)
            && KnownIntents(t.plans, t.intents) ==
               KnownIntents(s.plans, s.intents)[a.intentId := OrderModel.IntentRow(domain, a.venue, a.quantity.value)]
                                               [b.intentId := OrderModel.IntentRow(domain, b.venue, b.quantity.value)]
  {
    hide ValidRequest, FirstRefusal, KnownIntents, Canonical, Debited, FundsSound, PlansSound, LineStored, DomainBusy;
    var t := Serve(s, c).0;
    var r := c.request;
    var a, b := r.intents[0], r.intents[1];
    OwnDomain(r, c.account, c.instrument);
    FreshIntent(s.plans, s.intents, a);
    FreshIntent(s.plans, s.intents, b);
    OtherPlanChangesNothing(s.plans, s.intents, r.planId, t.plans[r.planId]);
    var rowA, rowB := IntentRow(r.planId, a), IntentRow(r.planId, b);
    assert t.intents == (s.intents + [rowA]) + [rowB];
    KnownAppended(t.plans, s.intents, rowA);
    KnownAppended(t.plans, s.intents + [rowA], rowB);
  }

  lemma OwnDomain(r: ReservePlanRequest, account: string, instrument: string)
    requires ValidRequest(r, account, instrument)
    ensures r.accountId == account && r.instrumentId == instrument
  {
  }

  lemma FreshIntent(plans: map<string, PlanRow>, rows: seq<IntentRow>, intent: OrderIntentInput)
    requires !IntentStored(rows, intent)
    ensures intent.intentId !in KnownIntents(plans, rows)
  {
    hide KnownIntents;
    if intent.intentId in KnownIntents(plans, rows) {
      KnownAreStored(plans, rows, intent.intentId);
    }
  }
}
