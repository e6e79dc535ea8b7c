/** When reservation and balance calls succeed, in terms of the plans and funds the tables hold, and
    what a success changes (crates/core/src/paper.rs). */
module PaperAnswers {
  import opened Common
  import opened Text
  import opened Sorting
  import opened PaperRequest
  import opened PaperStore

  // ---------------------------------------------------------------- conflicts

  predicate SharesLineId(a: ReservePlanRequest, b: ReservePlanRequest) {
    exists i, j | 0 <= i < |a.reservations| && 0 <= j < |b.reservations| ::
      a.reservations[i].reservationId == b.reservations[j].reservationId
  }

  predicate SharesIntentId(a: ReservePlanRequest, b: ReservePlanRequest) {
    exists i, j | 0 <= i < |a.intents| && 0 <= j < |b.intents| ::
      || a.intents[i].intentId == b.intents[j].intentId
      || a.intents[i].attemptId == b.intents[j].attemptId
      || a.intents[i].clientOrderId == b.intents[j].clientOrderId
  }

  /** Two requests that cannot both have plans. */
  predicate Collide(a: ReservePlanRequest, b: ReservePlanRequest) {
    || a.planId == b.planId || a.requestId == b.requestId
    || (a.accountId == b.accountId && a.instrumentId == b.instrumentId)
    || SharesLineId(a, b) || SharesIntentId(a, b)
  }

  lemma {:induction false} RowIsUnderItsPlan(rows: seq<ReservationRow>, i: nat)
    requires i < |rows|
    ensures rows[i].line in LinesOf(rows, rows[i].planId)
  {
    if i < |rows| - 1 {
      RowIsUnderItsPlan(rows[..|rows| - 1], i);
    }
  }

  lemma {:induction false} IntentIsUnderItsPlan(rows: seq<IntentRow>, i: nat)
    requires i < |rows|
    ensures rows[i].intent in IntentsOf(rows, rows[i].planId)
  {
    if i < |rows| - 1 {
      IntentIsUnderItsPlan(rows[..|rows| - 1], i);
    }
  }

  lemma {:induction false} IntentStoredUnderPlan(rows: seq<IntentRow>, p: string, intent: OrderIntentInput)
    requires intent in IntentsOf(rows, p)
    ensures exists k | 0 <= k < |rows| :: rows[k].planId == p && rows[k].intent == intent
  {
    var n := |rows| - 1;
    if !(rows[n].planId == p && rows[n].intent == intent) {
      IntentStoredUnderPlan(rows[..n], p, intent);
      var k :| 0 <= k < |rows[..n]| && rows[..n][k].planId == p && rows[..n][k].intent == intent;
      assert rows[k].planId == p && rows[k].intent == intent;
    }
  }

  /** A stored line id is one of some plan's request, and conversely. */
  lemma StoredLinesArePlanned(s: Store, r: ReservePlanRequest)
    requires RowsSound(s)
    ensures (exists i | 0 <= i < |r.reservations| :: LineStored(s.reservations, r.reservations[i]))
            <==> exists p | p in s.plans :: SharesLineId(s.plans[p].digest, r)
  {
    hide LinesOf, IntentsOf;
    if i :| 0 <= i < |r.reservations| && LineStored(s.reservations, r.reservations[i]) {
      var k :| 0 <= k < |s.reservations| && s.reservations[k].line.reservationId == r.reservations[i].reservationId;
      var p := s.reservations[k].planId;
      RowIsUnderItsPlan(s.reservations, k);
      var lines := s.plans[p].digest.reservations;
      assert s.reservations[k].line in multiset(lines);
      var a :| 0 <= a < |lines| && lines[a] == s.reservations[k].line;
      assert SharesLineId(s.plans[p].digest, r);
    }
    if p :| p in s.plans && SharesLineId(s.plans[p].digest, r) {
      var d := s.plans[p].digest;
      var a, i :| 0 <= a < |d.reservations| && 0 <= i < |r.reservations| && d.reservations[a].reservationId == r.reservations[i].reservationId;
      assert d.reservations[a] in multiset(d.reservations);
      StoredUnderPlan(s.reservations, p, d.reservations[a]);
      assert LineStored(s.reservations, r.reservations[i]);
    }
  }

  lemma StoredIntentsArePlanned(s: Store, r: ReservePlanRequest)
    requires RowsSound(s)
    ensures (exists i | 0 <= i < |r.intents| :: IntentStored(s.intents, r.intents[i]))
            <==> exists p | p in s.plans :: SharesIntentId(s.plans[p].digest, r)
  {
    hide LinesOf, IntentsOf;
    if i :| 0 <= i < |r.intents| && IntentStored(s.intents, r.intents[i]) {
      var k := StoredAt(s.intents, r.intents[i]);
      var p := s.intents[k].planId;
      IntentIsUnderItsPlan(s.intents, k);
      var intents := s.plans[p].digest.intents;
      assert s.intents[k].intent in multiset(intents);
      var a :| 0 <= a < |intents| && intents[a] == s.intents[k].intent;
      assert SharesIntentId(s.plans[p].digest, r);
    }
    if p :| p in s.plans && SharesIntentId(s.plans[p].digest, r) {
      var d := s.plans[p].digest;
      var a, i := SharedAt(d, r);
      assert d.intents[a] in multiset(d.intents);
      IntentStoredUnderPlan(s.intents, p, d.intents[a]);
      assert IntentStored(s.intents, r.intents[i]);
    }
  }

  lemma StoredAt(rows: seq<IntentRow>, intent: OrderIntentInput) returns (k: nat)
    requires IntentStored(rows, intent)
    ensures k < |rows|
    ensures || rows[k].intent.intentId == intent.intentId || rows[k].intent.attemptId == intent.attemptId
            || rows[k].intent.clientOrderId == intent.clientOrderId
  {
    k :| 0 <= k < |rows| && (|| rows[k].intent.intentId == intent.intentId || rows[k].intent.attemptId == intent.attemptId
                             || rows[k].intent.clientOrderId == intent.clientOrderId);
  }

  lemma SharedAt(a: ReservePlanRequest, b: ReservePlanRequest) returns (i: nat, j: nat)
    requires SharesIntentId(a, b)
    ensures i < |a.intents| && j < |b.intents|
    ensures || a.intents[i].intentId == b.intents[j].intentId || a.intents[i].attemptId == b.intents[j].attemptId
            || a.intents[i].clientOrderId == b.intents[j].clientOrderId
  {
    i, j :| 0 <= i < |a.intents| && 0 <= j < |b.intents|
            && (|| a.intents[i].intentId == b.intents[j].intentId || a.intents[i].attemptId == b.intents[j].attemptId
                || a.intents[i].clientOrderId == b.intents[j].clientOrderId);
  }

  predicate CollidesWithPlan(s: Store, r: ReservePlanRequest) {
    exists p | p in s.plans :: Collide(s.plans[p].digest, r)
  }

  /** In sound tables the unique indexes refuse a request exactly when it collides with the request
      of a plan: its approval and its event never stand in its way on their own. */
  lemma ConflictsExactlyWhenColliding(s: Store, r: ReservePlanRequest)
    requires Sound(s)
    ensures Conflicts(s, r) <==> CollidesWithPlan(s, r)
  {
    hide LineStored, IntentStored, SharesLineId, SharesIntentId, FundsSound, RecordsSound, EventStored, LinesOf, IntentsOf;
    StoredLinesArePlanned(s, r);
    StoredIntentsArePlanned(s, r);
    if r.planId !in s.plans {
      RecordsFollowPlans(s, r.planId);
    }
    if Conflicts(s, r) {
      if r.planId in s.plans {
        assert Collide(s.plans[r.planId].digest, r);
      } else if r.requestId in s.requests {
        assert Collide(s.plans[s.requests[r.requestId]].digest, r);
      } else if DomainBusy(s.plans, r.accountId, r.instrumentId) {
        var p :| p in s.plans && s.plans[p].account == r.accountId && s.plans[p].instrument == r.instrumentId;
        assert Collide(s.plans[p].digest, r);
      }
    }
    if p :| p in s.plans && Collide(s.plans[p].digest, r) {
      assert DigestFits(s.plans[p]);
    }
  }

  // ---------------------------------------------------------------- answers

  /** The balance of a line exists, and its amount beside all reservations held there is free. */
  predicate Covered(s: Store, account: string, line: ReservationInput) {
    && KeyOf(account, line) in s.balances
    && line.amount.value + ReservedFor(s.reservations, KeyOf(account, line)) <= s.balances[KeyOf(account, line)].free
  }

  predicate AllCovered(s: Store, r: ReservePlanRequest) {
    forall i | 0 <= i < |r.reservations| :: Covered(s, r.accountId, r.reservations[i])
  }

  lemma CoverageDecides(s: Store, r: ReservePlanRequest)
    requires FundsSound(s.balances, s.reservations)
    ensures FirstRefusal(s.balances, r.accountId, SortedLines(r)).None? <==> AllCovered(s, r)
  {
    hide FirstRefusal, SortBy, ReservedFor;
    var lines := SortedLines(r);
    SortPermutes(r.reservations, LineKey);
    FirstRefusalIsFirst(s.balances, r.accountId, lines);
    assert forall line | line in lines :: LineRefusal(s.balances, r.accountId, line).None? <==> Covered(s, r.accountId, line);
    if AllCovered(s, r) {
      forall i | 0 <= i < |lines| ensures LineRefusal(s.balances, r.accountId, lines[i]).None? {
        assert lines[i] in multiset(lines);
        assert lines[i] in r.reservations;
      }
    } else {
      var i :| 0 <= i < |r.reservations| && !Covered(s, r.accountId, r.reservations[i]);
      assert r.reservations[i] in multiset(r.reservations);
      assert r.reservations[i] in lines;
    }
  }

  /** A refused line: the first, by venue and asset, that is not covered. */
  predicate NamesUncovered(s: Store, r: ReservePlanRequest, why: Refusal) {
    exists i | 0 <= i < |r.reservations| ::
      var k := KeyOf(r.accountId, r.reservations[i]);
      && !Covered(s, r.accountId, r.reservations[i])
      && (forall j | 0 <= j < |r.reservations| && PairLess(LineKey(r.reservations[j]), LineKey(r.reservations[i])) ::
            Covered(s, r.accountId, r.reservations[j]))
      && why == (if k in s.balances then InsufficientFunds(k) else BalanceMissing(k))
  }

  lemma RefusalNamesUncovered(s: Store, r: ReservePlanRequest)
    requires FundsSound(s.balances, s.reservations) && FirstRefusal(s.balances, r.accountId, SortedLines(r)).Some?
    requires ValidRequest(r, r.accountId, r.instrumentId)
    ensures NamesUncovered(s, r, FirstRefusal(s.balances, r.accountId, SortedLines(r)).value)
  {
    hide FirstRefusal, SortBy, ReservedFor, ValidRequest, LineKey, PairLess;
    var lines := SortedLines(r);
    SortPermutes(r.reservations, LineKey);
    ValidKeysDistinct(r);
    SortAscends(r.reservations, LineKey);
    FirstRefusalIsFirst(s.balances, r.accountId, lines);
    var n :| 0 <= n < |lines| && FirstRefusal(s.balances, r.accountId, lines) == LineRefusal(s.balances, r.accountId, lines[n])
             && forall j | 0 <= j < n :: LineRefusal(s.balances, r.accountId, lines[j]).None?;
    assert lines[n] in multiset(lines);
    assert lines[n] in r.reservations;
    var i :| 0 <= i < |r.reservations| && r.reservations[i] == lines[n];
    assert !Covered(s, r.accountId, r.reservations[i]);
    forall j | 0 <= j < |r.reservations| && PairLess(LineKey(r.reservations[j]), LineKey(r.reservations[i]))
      ensures Covered(s, r.accountId, r.reservations[j])
    {
      assert r.reservations[j] in multiset(r.reservations);
      assert r.reservations[j] in lines;
      var m :| 0 <= m < |lines| && lines[m] == r.reservations[j];
      EarlierInOrder(lines, m, n);
      assert LineRefusal(s.balances, r.accountId, lines[m]).None?;
    }
  }

  /** In an ascending list the smaller key comes first. */
  lemma EarlierInOrder(lines: seq<ReservationInput>, m: nat, n: nat)
    requires Ascending(lines, LineKey) && m < |lines| && n < |lines| && PairLess(LineKey(lines[m]), LineKey(lines[n]))
    ensures m < n
  {
    hide PairLess, LineKey;
    if m >= n {
      if m > n {
        assert PairLess(LineKey(lines[n]), LineKey(lines[m]));
        PairLessTransitive(LineKey(lines[n]), LineKey(lines[m]), LineKey(lines[n]));
      }
      PairLessIrreflexive(LineKey(lines[n]));
    }
  }

  /** In sound tables, every answer to a reservation: invalid, out of range, known or reused exactly
      when it is; otherwise reserved if and only if every line is covered beside the reservations
      already held and no plan's request collides; else refused, for the first uncovered line by venue
      and asset if there is one, and only then for the collision. */
  lemma ReservesExactlyWhen(s: Store, c: Call)
    requires Sound(s) && c.ReserveCall?
    ensures var (r, answer) := (c.request, Serve(s, c).1);
            var open := ValidRequest(r, c.account, c.instrument) && c.nowMs <= I64_MAX && r.requestId !in s.requests;
            && (answer.Reserved? <==> open && AllCovered(s, r) && !CollidesWithPlan(s, r))
            && (answer.Reserved? ==> answer.planId == r.planId)
            && (answer == Refused(InvalidRequest) <==> !ValidRequest(r, c.account, c.instrument))
            && (answer == Refused(ClockOutOfRange) <==> ValidRequest(r, c.account, c.instrument) && c.nowMs > I64_MAX)
            && (answer == Refused(StoreRejected) <==> open && AllCovered(s, r) && CollidesWithPlan(s, r))
            && (open && !AllCovered(s, r) ==> answer.Refused? && NamesUncovered(s, r, answer.why))
  {
    hide ValidRequest, FirstRefusal, Conflicts, Inserted, AllCovered, CollidesWithPlan, NamesUncovered, SortedLines, PlansSound, RowsSound, RecordsSound,
         FundsSound, Canonical;
    var r := c.request;
    ConflictsExactlyWhenColliding(s, r);
    CoverageDecides(s, r);
    var refusal := FirstRefusal(s.balances, r.accountId, SortedLines(r));
    if ValidRequest(r, c.account, c.instrument) {
      RequestOfDomain(r, c.account, c.instrument);
    }
    if ValidRequest(r, c.account, c.instrument) && refusal.Some? {
      RefusalNamesUncovered(s, r);
      UncoveredKind(s, r, refusal.value);
    }
  }

  lemma RequestOfDomain(r: ReservePlanRequest, account: string, instrument: string)
    requires ValidRequest(r, account, instrument)
    ensures r.accountId == account && r.instrumentId == instrument
  {
  }

  lemma UncoveredKind(s: Store, r: ReservePlanRequest, why: Refusal)
    requires NamesUncovered(s, r, why)
    ensures why.BalanceMissing? || why.InsufficientFunds?
  {
    hide Covered;
  }

  // ---------------------------------------------------------------- effects

  lemma ReservedMeans(s: Store, c: Call)
    requires c.ReserveCall? && Serve(s, c).1.Reserved?
    ensures ValidRequest(c.request, c.account, c.instrument) && !Conflicts(s, c.request)
    ensures Serve(s, c) == (Inserted(s, c.request, c.nowMs), Reserved(c.request.planId))
  {
    hide ValidRequest, FirstRefusal, Conflicts, Inserted, SortedLines, Canonical;
  }

  lemma ValidLinesApart(r: ReservePlanRequest, account: string, instrument: string)
    requires ValidRequest(r, account, instrument)
    ensures LinesApart(r.reservations)
  {
    hide ValidId, AllNamed, PaperRequest.Funded;
  }

  lemma PlanIdIsFree(s: Store, r: ReservePlanRequest)
    requires !Conflicts(s, r)
    ensures r.planId !in s.plans
  {
    hide DomainBusy, EventStored, LineStored, IntentStored;
  }

  /** What a reservation changes about the funds: each balance's reserved part grows by the amount
      of the one line on it, if any, and nothing else about balances changes. */
  lemma ReservationDebits(s: Store, c: Call)
    requires c.ReserveCall? && Serve(s, c).1.Reserved?
    ensures var (r, before, after) := (c.request, s.balances, Serve(s, c).0.balances);
            && after.Keys == before.Keys
            && forall k | k in before ::
                 && (forall i | 0 <= i < |r.reservations| && KeyOf(r.accountId, r.reservations[i]) == k ::
                       after[k] == before[k].(reserved := before[k].reserved + r.reservations[i].amount.value))
                 && ((forall i | 0 <= i < |r.reservations| :: KeyOf(r.accountId, r.reservations[i]) != k) ==>
                       after[k] == before[k])
  {
    hide Serve, ValidRequest, Conflicts, Debited, LineTotal, LinesApart;
    var r := c.request;
    ReservedMeans(s, c);
    ValidLinesApart(r, c.account, c.instrument);
    DebitAddsLineTotals(s.balances, r.accountId, r.reservations);
    forall k | k in s.balances
      ensures forall i | 0 <= i < |r.reservations| && KeyOf(r.accountId, r.reservations[i]) == k ::
                LineTotal(r.accountId, r.reservations, k) == r.reservations[i].amount.value
      ensures (forall i | 0 <= i < |r.reservations| :: KeyOf(r.accountId, r.reservations[i]) != k) ==>
                LineTotal(r.accountId, r.reservations, k) == 0.0
    {
      OneLinePerBalance(r.accountId, r.reservations, k);
    }
  }

  /** What a reservation changes about the plans: the plan, not there before, is recovered as
      requested and stamped with the time of the call; every other plan is recovered as before. */
  lemma ReservationRecords(s: Store, c: Call)
    requires Sound(s) && c.ReserveCall? && Serve(s, c).1.Reserved?
    ensures var (r, t) := (c.request, Serve(s, c).0);
            && r.planId !in s.plans && t.plans.Keys == s.plans.Keys + {r.planId}
            && RecoversRequest(Recovered(t, r.planId), r) && t.plans[r.planId].createdAtMs == c.nowMs
            && r.planId in t.decisions && t.decisions[r.planId].decidedAtMs == c.nowMs
            && (forall p | p in s.plans :: Recovered(t, p) == Recovered(s, p))
  {
    hide Serve, ValidRequest, Conflicts, LinesOf, IntentsOf, FundsSound, PlansSound, RecordsSound, Canonical, Debited;
    var r := c.request;
    ReservedMeans(s, c);
    PlanIdIsFree(s, r);
    NothingUnderFreshPlan(s.reservations, s.intents, r.planId);
    forall p: string
      ensures LinesOf(s.reservations + LineRows(r.planId, r.accountId, r.reservations), p)
              == LinesOf(s.reservations, p) + (if p == r.planId then multiset(r.reservations) else multiset{})
      ensures IntentsOf(s.intents + IntentRows(r.planId, r.intents), p)
              == IntentsOf(s.intents, p) + (if p == r.planId then multiset(r.intents) else multiset{})
    {
      NewRowsOfPlan(s.reservations, r.planId, r.accountId, r.reservations, p);
      NewIntentsOfPlan(s.intents, r.planId, r.intents, p);
    }
  }

  lemma {:induction false} ReservedForNonNegative(rows: seq<ReservationRow>, k: BalanceKey)
    requires forall i | 0 <= i < |rows| :: rows[i].line.amount.value > 0.0
    ensures ReservedFor(rows, k) >= 0.0
    ensures HasRows(rows, k) <==> ReservedFor(rows, k) > 0.0
  {
    if rows != [] {
      var n := |rows| - 1;
      ReservedForNonNegative(rows[..n], k);
      assert forall i | 0 <= i < n :: rows[..n][i] == rows[i];
      if HasRows(rows, k) && rows[n].key != k {
        assert HasRows(rows[..n], k);
      }
    }
  }

  /** In sound tables a balance is replaced if and only if the observation is well formed and no
      funds are reserved on it; then it holds exactly what was observed, and nothing else changes. */
  lemma ObservesExactlyWhen(s: Store, c: Call)
    requires Sound(s) && c.BalanceCall?
    ensures var (t, answer) := Serve(s, c);
            && (answer == BalanceStored <==>
                  && ValidId(c.key.account) && ValidId(c.key.venue) && ValidId(c.key.asset)
                  && 0.0 <= c.free <= c.total && 0 < c.observedAtMs <= I64_MAX
                  && ReservedFor(s.reservations, c.key) == 0.0)
            && (answer == BalanceStored ==> t == s.(balances := s.balances[c.key := Balance(c.total, c.free, 0.0, c.observedAtMs)]))
            && (answer != BalanceStored ==> t == s)
            && (answer == Refused(ActiveReservations) ==> ReservedFor(s.reservations, c.key) > 0.0)
  {
    hide ValidId, HasRows, ReservedFor, PlansSound, RowsSound, RecordsSound;
    ReservedForNonNegative(s.reservations, c.key);
  }
}
