/** Reserving plans and setting balances, statement by statement (crates/core/src/paper.rs). */
module PaperCore {
  import opened Common
  import opened Text
  import opened Sorting
  import opened PaperRequest
  import opened PaperStore

  /** The committed tables. */
  class Database {
    var balances: map<BalanceKey, Balance>
    var plans: map<string, PlanRow>
    var requests: map<string, string>
    var decisions: map<string, RiskDecision>
    var reservations: seq<ReservationRow>
    var intents: seq<IntentRow>
    var audits: map<string, AuditEvent>

    constructor ()
      ensures Tables() == EMPTY_STORE
    {
      balances, plans, requests, decisions := map[], map[], map[], map[];
      reservations, intents, audits := [], [], map[];
    }

    function Tables(): Store
      reads this
    {
      Store(balances, plans, requests, decisions, reservations, intents, audits)
    }

    method Commit(s: Store)
      modifies this
      ensures Tables() == s
    {
      balances, plans, requests, decisions := s.balances, s.plans, s.requests, s.decisions;
      reservations, intents, audits := s.reservations, s.intents, s.audits;
    }
  }

  /** Replaces an observed balance unless funds are reserved on it. */
  method SetPaperBalance(db: Database, account: string, venue: string, asset: string, total: real, free: real, observedAtMs: nat)
    returns (answer: Outcome)
    modifies db
    ensures (db.Tables(), answer) == Serve(old(db.Tables()), BalanceCall(BalanceKey(account, venue, asset), total, free, observedAtMs))
  {
    if !ValidId(account) || !ValidId(venue) || !ValidId(asset) {
      return Refused(InvalidBalance);
    }
    if total < 0.0 || free < 0.0 || free > total {
      return Refused(InvalidBalance);
    }
    if observedAtMs == 0 || observedAtMs > I64_MAX {
      return Refused(InvalidBalance);
    }
    var k := BalanceKey(account, venue, asset);
    if HasRows(db.reservations, k) {
      return Refused(ActiveReservations);
    }
    db.balances := db.balances[k := Balance(total, free, 0.0, observedAtMs)];
    answer := BalanceStored;
  }

  /** The writer of one account and instrument. */
  class PaperCore {
    const account: string
    const instrument: string
    const db: Database

    constructor (db: Database, account: string, instrument: string)
      ensures this.db == db && this.account == account && this.instrument == instrument
    {
      this.db, this.account, this.instrument := db, account, instrument;
    }

    /** Sorted by venue and asset, each line is checked against its balance. */
    method LockAndCheckBalances(request: ReservePlanRequest) returns (refusal: Option<Refusal>)
      ensures refusal == FirstRefusal(db.balances, request.accountId, SortedLines(request))
    {
      hide SortBy;
      var lines := SortBy(request.reservations, LineKey);
      assert lines == SortedLines(request);
      var i := 0;
      refusal := None;
      while i < |lines|
        invariant 0 <= i <= |lines|
        invariant FirstRefusal(db.balances, request.accountId, lines[..i]) == None
      {
        var line := lines[i];
        var k := BalanceKey(request.accountId, line.venue, line.asset);
        ghost var done := lines[..i + 1];
        assert done[..|done| - 1] == lines[..i];
        if k !in db.balances {
          RefusalStays(db.balances, request.accountId, lines, i + 1);
          return Some(BalanceMissing(k));
        }
        var available := db.balances[k].free - db.balances[k].reserved;
        if available < line.amount.value {
          RefusalStays(db.balances, request.accountId, lines, i + 1);
          return Some(InsufficientFunds(k));
        }
        i := i + 1;
      }
      assert lines[..i] == lines;
    }

    /** Stages every row of the plan; any refused row abandons all of them. */
    method InsertPlan(request: ReservePlanRequest, nowMs: nat) returns (staged: Option<Store>)
      requires ValidRequest(request, account, instrument)
      ensures staged.None? <==> Conflicts(db.Tables(), request)
      ensures staged.Some? ==> staged.value == Inserted(db.Tables(), request, nowMs)
    {
      hide ValidId, Canonical, AllNamed, Funded, EventStored, EventId;
      if request.planId in db.plans || request.requestId in db.requests
         || DomainBusy(db.plans, request.accountId, request.instrumentId) {
        return None;
      }
      var digest := Canonical(request);
      var plans := db.plans[request.planId :=
        PlanRow(request.requestId, digest, request.accountId, request.instrumentId, request.opportunityId,
                request.strategyConfigVersion, request.targetQuantity, request.maxUnmatchedExposure, nowMs)];
      var requests := db.requests[request.requestId := request.planId];
      if request.planId in db.decisions {
        return None;
      }
      var decisions := db.decisions[request.planId := RiskDecision(digest, nowMs)];
      var balances, rows, refused := StageLines(request);
      if refused {
        return None;
      }
      var intents;
      intents, refused := StageIntents(request);
      if refused {
        return None;
      }
      if EventStored(db.audits, request.planId) {
        return None;
      }
      var event := AuditEvent(request.planId, request.requestId, request.accountId, request.instrumentId, request.opportunityId,
                              digest, |request.reservations|, |request.intents|, nowMs);
      var audits := db.audits[EventId(request.planId) := event];
      staged := Some(Store(balances, plans, requests, decisions, rows, intents, audits));
    }

    method StageLines(request: ReservePlanRequest)
      returns (balances: map<BalanceKey, Balance>, rows: seq<ReservationRow>, refused: bool)
      requires LinesApart(request.reservations)
      ensures refused <==> exists j | 0 <= j < |request.reservations| :: LineStored(db.reservations, request.reservations[j])
      ensures !refused ==>
                && balances == Debited(db.balances, request.accountId, request.reservations)
                && rows == db.reservations + LineRows(request.planId, request.accountId, request.reservations)
    {
      var lines := request.reservations;
      balances, rows, refused := db.balances, db.reservations, false;
      var i := 0;
      while i < |lines|
        invariant 0 <= i <= |lines|
        invariant balances == Debited(db.balances, request.accountId, lines[..i])
        invariant rows == db.reservations + LineRows(request.planId, request.accountId, lines[..i])
        invariant forall j | 0 <= j < i :: !LineStored(db.reservations, lines[j])
      {
        var line := lines[i];
        balances := AddReserved(balances, KeyOf(request.accountId, line), line.amount.value);
        if LineStored(rows, line) {
          StagedLinesDiffer(db.reservations, request.planId, request.accountId, lines, i);
          return balances, rows, true;
        }
        StagedLinesDiffer(db.reservations, request.planId, request.accountId, lines, i);
        rows := rows + [ReservationRow(request.planId, KeyOf(request.accountId, line), line)];
        assert lines[..i + 1][..i] == lines[..i];
        i := i + 1;
      }
      assert lines[..i] == lines;
    }

    method StageIntents(request: ReservePlanRequest) returns (rows: seq<IntentRow>, refused: bool)
      requires !SameIntent(request.intents[0], request.intents[1])
      ensures refused <==> exists j | 0 <= j < |request.intents| :: IntentStored(db.intents, request.intents[j])
      ensures !refused ==> rows == db.intents + IntentRows(request.planId, request.intents)
    {
      rows, refused := db.intents, false;
      var i := 0;
      while i < |request.intents|
        invariant 0 <= i <= |request.intents|
        invariant rows == db.intents + IntentRows(request.planId, request.intents[..i])
        invariant forall j | 0 <= j < i :: !IntentStored(db.intents, request.intents[j])
      {
        StagedIntentsDiffer(db.intents, request.planId, request.intents, i);
        if IntentStored(rows, request.intents[i]) {
          return rows, true;
        }
        rows := rows + [IntentRow(request.planId, request.intents[i])];
        i := i + 1;
      }
      assert request.intents[..i] == request.intents;
    }

    /** The committed plan with its intents and lines. */
    method LoadPlan(planId: string) returns (plan: RecoveredPlan)
      requires planId in db.plans
      ensures plan == Recovered(db.Tables(), planId)
    {
      plan := RecoveredPlan(planId, db.plans[planId], IntentsOf(db.intents, planId), LinesOf(db.reservations, planId));
    }

    /** Reserves a plan: replayed, refused without effect, or committed whole. A replayed or
        committed plan is loaded for the caller. */
    method ReservePlan(request: ReservePlanRequest, nowMs: nat) returns (answer: Outcome, plan: Option<RecoveredPlan>)
      modifies db
      ensures answer.Reserved? || answer.Replayed? ==>
                answer.planId in db.plans && plan == Some(Recovered(db.Tables(), answer.planId))
      ensures !(answer.Reserved? || answer.Replayed?) ==> plan == None
      ensures (db.Tables(), answer) == Serve(old(db.Tables()), ReserveCall(account, instrument, request, nowMs))
    {
      hide ValidId, Canonical, AllNamed, Funded, Conflicts, Inserted, FirstRefusal, SortedLines, Recovered;
      plan := None;
      var verdict := ValidateRequest(request, account, instrument);
      if verdict.Err? {
        return Refused(InvalidRequest), None;
      }
      var digest := Canonical(request);
      if nowMs > I64_MAX {
        return Refused(ClockOutOfRange), None;
      }
      if request.requestId in db.requests {
        var existing := db.requests[request.requestId];
        if existing !in db.plans || db.plans[existing].digest != digest {
          return Refused(RequestReused), None;
        }
        var loaded := LoadPlan(existing);
        return Replayed(existing), Some(loaded);
      }
      var refusal := LockAndCheckBalances(request);
      if refusal.Some? {
        return Refused(refusal.value), None;
      }
      var staged := InsertPlan(request, nowMs);
      if staged.None? {
        return Refused(StoreRejected), None;
      }
      db.Commit(staged.value);
      assert request.planId in db.plans by { InsertedHasPlan(old(db.Tables()), request, nowMs); }
      var loaded := LoadPlan(request.planId);
      return Reserved(request.planId), Some(loaded);
    }
  }

  lemma InsertedHasPlan(s: Store, r: ReservePlanRequest, nowMs: nat)
    ensures r.planId in Inserted(s, r, nowMs).plans
  {
  }

  /** The rows staged so far belong to other lines of the same request, so they cannot clash. */
  lemma StagedLinesDiffer(rows: seq<ReservationRow>, planId: string, account: string, lines: seq<ReservationInput>, i: nat)
    requires i < |lines| && LinesApart(lines)
    ensures LineStored(rows + LineRows(planId, account, lines[..i]), lines[i]) <==> LineStored(rows, lines[i])
  {
    var staged := rows + LineRows(planId, account, lines[..i]);
    forall j | |rows| <= j < |staged| ensures staged[j].line.reservationId != lines[i].reservationId {
      assert !SameLine(lines[j - |rows|], lines[i]);
    }
    assert forall j | 0 <= j < |rows| :: staged[j] == rows[j];
  }

  lemma StagedIntentsDiffer(rows: seq<IntentRow>, planId: string, intents: IntentPair, i: nat)
    requires i < |intents| && !SameIntent(intents[0], intents[1])
    ensures IntentStored(rows + IntentRows(planId, intents[..i]), intents[i]) <==> IntentStored(rows, intents[i])
  {
    var staged := rows + IntentRows(planId, intents[..i]);
    assert forall j | 0 <= j < |rows| :: staged[j] == rows[j];
  }
}
