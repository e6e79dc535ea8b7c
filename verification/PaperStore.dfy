/** The funds and plan tables, and what one committed call does to them (crates/core/src/paper.rs). */
module PaperStore {
  import opened Common
  import opened Text
  import opened Sorting
  import opened PaperRequest

  datatype BalanceKey = BalanceKey(account: string, venue: string, asset: string)

  datatype Balance = Balance(total: real, free: real, reserved: real, observedAtMs: nat)

  /** The scalars of a plan; the digest is the canonical form it stands for. */
  datatype PlanRow = PlanRow(
    requestId: string,
    digest: ReservePlanRequest,
    account: string,
    instrument: string,
    opportunityId: string,
    strategyConfigVersion: string,
    targetQuantity: Amount,
    maxUnmatchedExposure: Amount,
    createdAtMs: nat)

  datatype ReservationRow = ReservationRow(planId: string, key: BalanceKey, line: ReservationInput)

  datatype IntentRow = IntentRow(planId: string, intent: OrderIntentInput)

  /** The approval recorded with a plan. */
  datatype RiskDecision = RiskDecision(digest: ReservePlanRequest, decidedAtMs: nat)

  /** The reservation event recorded with a plan, with its payload. */
  datatype AuditEvent = AuditEvent(
    aggregateId: string,
    causationId: string,
    account: string,
    instrument: string,
    opportunityId: string,
    digest: ReservePlanRequest,
    reservationCount: nat,
    intentCount: nat,
    occurredAtMs: nat)

  /** What loading a plan returns; its lines and intents come back in some order. */
  datatype RecoveredPlan = RecoveredPlan(
    planId: string,
    row: PlanRow,
    intents: multiset<OrderIntentInput>,
    reservations: multiset<ReservationInput>)

  /** The tables; `requests` is the unique index from request ids to plans. */
  datatype Store = Store(
    balances: map<BalanceKey, Balance>,
    plans: map<string, PlanRow>,
    requests: map<string, string>,
    decisions: map<string, RiskDecision>,
    reservations: seq<ReservationRow>,
    intents: seq<IntentRow>,
    audits: map<string, AuditEvent>)

  const EMPTY_STORE := Store(map[], map[], map[], map[], [], [], map[])

  datatype Call =
    | ReserveCall(account: string, instrument: string, request: ReservePlanRequest, nowMs: nat)
    | BalanceCall(key: BalanceKey, total: real, free: real, observedAtMs: nat)

  datatype Refusal =
    | InvalidRequest
    | ClockOutOfRange
    | RequestReused
    | BalanceMissing(key: BalanceKey)
    | InsufficientFunds(key: BalanceKey)
    | StoreRejected
    | InvalidBalance
    | ActiveReservations

  datatype Outcome = Reserved(planId: string) | Replayed(planId: string) | BalanceStored | Refused(why: Refusal)

  // ---------------------------------------------------------------- funds

  function KeyOf(account: string, line: ReservationInput): BalanceKey {
    BalanceKey(account, line.venue, line.asset)
  }

  /** The check of one line against its balance. */
  function LineRefusal(balances: map<BalanceKey, Balance>, account: string, line: ReservationInput): Option<Refusal> {
    var k := KeyOf(account, line);
    if k !in balances then Some(BalanceMissing(k))
    else if balances[k].free - balances[k].reserved < line.amount.value then Some(InsufficientFunds(k))
    else None
  }

  /** The first failing check, in the order of the lines. */
  function FirstRefusal(balances: map<BalanceKey, Balance>, account: string, lines: seq<ReservationInput>): Option<Refusal> {
    if lines == [] then None
    else
      var earlier := FirstRefusal(balances, account, lines[..|lines| - 1]);
      if earlier.Some? then earlier else LineRefusal(balances, account, lines[|lines| - 1])
  }

  /** Adds one amount to a balance's reserved funds; an absent balance matches no row. */
  function AddReserved(balances: map<BalanceKey, Balance>, k: BalanceKey, amount: real): map<BalanceKey, Balance> {
    if k in balances then balances[k := balances[k].(reserved := balances[k].reserved + amount)] else balances
  }

  function Debited(balances: map<BalanceKey, Balance>, account: string, lines: seq<ReservationInput>): map<BalanceKey, Balance> {
    if lines == [] then balances
    else
      var last := lines[|lines| - 1];
      AddReserved(Debited(balances, account, lines[..|lines| - 1]), KeyOf(account, last), last.amount.value)
  }

  function LineRows(planId: string, account: string, lines: seq<ReservationInput>): seq<ReservationRow> {
    seq(|lines|, i requires 0 <= i < |lines| => ReservationRow(planId, KeyOf(account, lines[i]), lines[i]))
  }

  function IntentRows(planId: string, intents: seq<OrderIntentInput>): seq<IntentRow> {
    seq(|intents|, i requires 0 <= i < |intents| => IntentRow(planId, intents[i]))
  }

  /** What is locally reserved on a balance: the sum of its reservation rows. */
  function ReservedFor(rows: seq<ReservationRow>, k: BalanceKey): real {
    if rows == [] then 0.0
    else
      var last := rows[|rows| - 1];
      ReservedFor(rows[..|rows| - 1], k) + (if last.key == k then last.line.amount.value else 0.0)
  }

  // ---------------------------------------------------------------- constraints and writes

  predicate LineStored(rows: seq<ReservationRow>, line: ReservationInput) {
    exists i | 0 <= i < |rows| :: rows[i].line.reservationId == line.reservationId
  }

  predicate IntentStored(rows: seq<IntentRow>, intent: OrderIntentInput) {
    exists i | 0 <= i < |rows| ::
      || rows[i].intent.intentId == intent.intentId
      || rows[i].intent.attemptId == intent.attemptId
      || rows[i].intent.clientOrderId == intent.clientOrderId
  }

  /** A plan of this account and instrument exists; plans are never closed here. */
  predicate DomainBusy(plans: map<string, PlanRow>, account: string, instrument: string) {
    exists p | p in plans :: plans[p].account == account && plans[p].instrument == instrument
  }

  function EventId(planId: string): string { planId + ":reserved" }

  /** The event id, or the first version of the aggregate, is recorded already. */
  predicate EventStored(audits: map<string, AuditEvent>, planId: string) {
    EventId(planId) in audits || exists e | e in audits :: audits[e].aggregateId == planId
  }

  /** Some unique index refuses the rows of this request. */
  predicate Conflicts(s: Store, r: ReservePlanRequest) {
    || r.planId in s.plans
    || r.requestId in s.requests
    || DomainBusy(s.plans, r.accountId, r.instrumentId)
    || r.planId in s.decisions
    || EventStored(s.audits, r.planId)
    || (exists i | 0 <= i < |r.reservations| :: LineStored(s.reservations, r.reservations[i]))
    || (exists i | 0 <= i < |r.intents| :: IntentStored(s.intents, r.intents[i]))
  }

  function PlanRowOf(r: ReservePlanRequest, nowMs: nat): PlanRow {
    PlanRow(r.requestId, Canonical(r), r.accountId, r.instrumentId, r.opportunityId, r.strategyConfigVersion,
            r.targetQuantity, r.maxUnmatchedExposure, nowMs)
  }

  function AuditOf(r: ReservePlanRequest, nowMs: nat): AuditEvent {
    AuditEvent(r.planId, r.requestId, r.accountId, r.instrumentId, r.opportunityId, Canonical(r), |r.reservations|, |r.intents|, nowMs)
  }

  function Inserted(s: Store, r: ReservePlanRequest, nowMs: nat): Store {
    Store(Debited(s.balances, r.accountId, r.reservations),
          s.plans[r.planId := PlanRowOf(r, nowMs)],
          s.requests[r.requestId := r.planId],
          s.decisions[r.planId := RiskDecision(Canonical(r), nowMs)],
          s.reservations + LineRows(r.planId, r.accountId, r.reservations),
          s.intents + IntentRows(r.planId, r.intents),
          s.audits[EventId(r.planId) := AuditOf(r, nowMs)])
  }

  function Recovered(s: Store, planId: string): RecoveredPlan
    requires planId in s.plans
  {
    RecoveredPlan(planId, s.plans[planId], IntentsOf(s.intents, planId), LinesOf(s.reservations, planId))
  }

  /** The recovered plan has the scalars, intents and lines of a request. */
  predicate RecoversRequest(plan: RecoveredPlan, r: ReservePlanRequest) {
    && plan.planId == r.planId && plan.row.requestId == r.requestId
    && plan.row.account == r.accountId && plan.row.instrument == r.instrumentId
    && plan.row.opportunityId == r.opportunityId && plan.row.strategyConfigVersion == r.strategyConfigVersion
    && plan.row.targetQuantity == r.targetQuantity && plan.row.maxUnmatchedExposure == r.maxUnmatchedExposure
    && plan.intents == multiset(r.intents) && plan.reservations == multiset(r.reservations)
  }

  function SortedLines(r: ReservePlanRequest): seq<ReservationInput> {
    SortBy(r.reservations, LineKey)
  }

  /** The answer for a request id that already has a plan. */
  function Replay(s: Store, r: ReservePlanRequest): Outcome
    requires r.requestId in s.requests
  {
    var p := s.requests[r.requestId];
    if p in s.plans && s.plans[p].digest == Canonical(r) then Replayed(p) else Refused(RequestReused)
  }

  predicate GoodObservation(c: Call)
    requires c.BalanceCall?
  {
    && ValidId(c.key.account) && ValidId(c.key.venue) && ValidId(c.key.asset)
    && 0.0 <= c.free <= c.total && 0 < c.observedAtMs <= I64_MAX
  }

  predicate HasRows(rows: seq<ReservationRow>, k: BalanceKey) {
    exists i | 0 <= i < |rows| :: rows[i].key == k
  }

  /** One call executed alone: the tables afterwards and the answer. */
  function Serve(s: Store, c: Call): (Store, Outcome) {
    match c
    case ReserveCall(account, instrument, r, nowMs) =>
      if !ValidRequest(r, account, instrument) then (s, Refused(InvalidRequest))
      else if nowMs > I64_MAX then (s, Refused(ClockOutOfRange))
      else if r.requestId in s.requests then (s, Replay(s, r))
      else
        var refusal := FirstRefusal(s.balances, account, SortedLines(r));
        if refusal.Some? then (s, Refused(refusal.value))
        else if Conflicts(s, r) then (s, Refused(StoreRejected))
        else (Inserted(s, r, nowMs), Reserved(r.planId))
    case BalanceCall(k, total, free, at) =>
      if !GoodObservation(c) then (s, Refused(InvalidBalance))
      else if HasRows(s.reservations, k) then (s, Refused(ActiveReservations))
      else (s.(balances := s.balances[k := Balance(total, free, 0.0, at)]), BalanceStored)
  }

  // ---------------------------------------------------------------- invariant

  predicate GoodBalance(b: Balance) {
    0.0 <= b.reserved <= b.free <= b.total
  }

  /** Every balance stays within its bounds, and its reserved part is the sum of its rows. */
  ghost predicate FundsSound(balances: map<BalanceKey, Balance>, rows: seq<ReservationRow>) {
    && (forall k | k in balances :: GoodBalance(balances[k]) && balances[k].reserved == ReservedFor(rows, k))
    && (forall i | 0 <= i < |rows| :: rows[i].key in balances && rows[i].line.amount.value > 0.0)
  }

  /** The scalars of a plan row are those of the request its digest stands for. */
  predicate DigestFits(row: PlanRow) {
    && row.digest.requestId == row.requestId
    && row.digest.accountId == row.account && row.digest.instrumentId == row.instrument
    && row.digest.opportunityId == row.opportunityId && row.digest.strategyConfigVersion == row.strategyConfigVersion
    && row.digest.targetQuantity == row.targetQuantity && row.digest.maxUnmatchedExposure == row.maxUnmatchedExposure
  }

  ghost predicate PlansSound(plans: map<string, PlanRow>, requests: map<string, string>) {
    && (forall r | r in requests :: requests[r] in plans && plans[requests[r]].requestId == r)
    && (forall p | p in plans :: plans[p].requestId in requests && requests[plans[p].requestId] == p)
    && (forall p | p in plans ::
          && plans[p].digest.planId == p
          && DigestFits(plans[p]))
    && (forall p, q | p in plans && q in plans ::
          plans[p].account == plans[q].account && plans[p].instrument == plans[q].instrument ==> p == q)
  }

  /** The lines and intents stored under one plan. */
  function LinesOf(rows: seq<ReservationRow>, planId: string): multiset<ReservationInput> {
    if rows == [] then multiset{}
    else
      var last := rows[|rows| - 1];
      LinesOf(rows[..|rows| - 1], planId) + (if last.planId == planId then multiset{last.line} else multiset{})
  }

  function IntentsOf(rows: seq<IntentRow>, planId: string): multiset<OrderIntentInput> {
    if rows == [] then multiset{}
    else
      var last := rows[|rows| - 1];
      IntentsOf(rows[..|rows| - 1], planId) + (if last.planId == planId then multiset{last.intent} else multiset{})
  }

  /** Each plan's stored rows are exactly those of the request its digest stands for, on the
      balances of its own account. */
  ghost predicate RowsSound(s: Store) {
    && (forall p | p in s.plans ::
          && LinesOf(s.reservations, p) == multiset(s.plans[p].digest.reservations)
          && IntentsOf(s.intents, p) == multiset(s.plans[p].digest.intents))
    && (forall i | 0 <= i < |s.reservations| ::
          var row := s.reservations[i];
          row.planId in s.plans && row.key == KeyOf(s.plans[row.planId].account, row.line))
    && (forall i | 0 <= i < |s.intents| :: s.intents[i].planId in s.plans)
  }

  /** Each plan has exactly one approval and one reservation event, both of its own content. */
  ghost predicate RecordsSound(plans: map<string, PlanRow>, decisions: map<string, RiskDecision>, audits: map<string, AuditEvent>) {
    && decisions.Keys == plans.Keys
    && (forall p | p in plans ::
          && decisions[p] == RiskDecision(plans[p].digest, plans[p].createdAtMs)
          && EventId(p) in audits && EventFits(audits[EventId(p)], p, plans[p]))
    && (forall e | e in audits :: audits[e].aggregateId in plans && e == EventId(audits[e].aggregateId))
  }

  predicate EventFits(e: AuditEvent, p: string, row: PlanRow) {
    && e.aggregateId == p && e.causationId == row.requestId && e.account == row.account && e.instrument == row.instrument
    && e.opportunityId == row.opportunityId && e.digest == row.digest && e.occurredAtMs == row.createdAtMs
    && e.reservationCount == |row.digest.reservations| && e.intentCount == |row.digest.intents|
  }

  ghost predicate Sound(s: Store) {
    && FundsSound(s.balances, s.reservations) && PlansSound(s.plans, s.requests) && RowsSound(s)
    && RecordsSound(s.plans, s.decisions, s.audits)
  }

  // ---------------------------------------------------------------- checks and debits

  lemma {:induction false} FirstRefusalIsFirst(balances: map<BalanceKey, Balance>, account: string, lines: seq<ReservationInput>)
    ensures FirstRefusal(balances, account, lines).None? <==>
            forall i | 0 <= i < |lines| :: LineRefusal(balances, account, lines[i]).None?
    ensures FirstRefusal(balances, account, lines).Some? ==>
            exists i | 0 <= i < |lines| ::
              && FirstRefusal(balances, account, lines) == LineRefusal(balances, account, lines[i])
              && forall j | 0 <= j < i :: LineRefusal(balances, account, lines[j]).None?
  {
    hide LineRefusal;
    if lines != [] {
      var init := lines[..|lines| - 1];
      FirstRefusalIsFirst(balances, account, init);
      assert forall i | 0 <= i < |init| :: init[i] == lines[i];
    }
  }

  /** Once a line refuses, later lines do not change the answer. */
  lemma {:induction false} RefusalStays(balances: map<BalanceKey, Balance>, account: string, lines: seq<ReservationInput>, n: nat)
    requires n <= |lines| && FirstRefusal(balances, account, lines[..n]).Some?
    ensures FirstRefusal(balances, account, lines) == FirstRefusal(balances, account, lines[..n])
  {
    if n == |lines| {
      assert lines[..n] == lines;
    } else {
      var init := lines[..|lines| - 1];
      assert init[..n] == lines[..n];
      RefusalStays(balances, account, init, n);
    }
  }

  /** What the lines of a request add to one balance. */
  function LineTotal(account: string, lines: seq<ReservationInput>, k: BalanceKey): real {
    if lines == [] then 0.0
    else
      var last := lines[|lines| - 1];
      LineTotal(account, lines[..|lines| - 1], k) + (if KeyOf(account, last) == k then last.amount.value else 0.0)
  }

  lemma {:induction false} DebitAddsLineTotals(balances: map<BalanceKey, Balance>, account: string, lines: seq<ReservationInput>)
    ensures Debited(balances, account, lines).Keys == balances.Keys
    ensures forall k | k in balances ::
              Debited(balances, account, lines)[k] ==
              balances[k].(reserved := balances[k].reserved + LineTotal(account, lines, k))
  {
    if lines != [] {
      DebitAddsLineTotals(balances, account, lines[..|lines| - 1]);
    }
  }

  lemma {:induction false} RowsAddLineTotals(rows: seq<ReservationRow>, planId: string, account: string,
                                             lines: seq<ReservationInput>, k: BalanceKey)
    ensures ReservedFor(rows + LineRows(planId, account, lines), k) == ReservedFor(rows, k) + LineTotal(account, lines, k)
  {
    var added := LineRows(planId, account, lines);
    if lines == [] {
      assert rows + added == rows;
    } else {
      var init := lines[..|lines| - 1];
      RowsAddLineTotals(rows, planId, account, init, k);
      assert (rows + added)[..|rows + added| - 1] == rows + LineRows(planId, account, init);
    }
  }

  /** Distinct keys: a balance is touched by at most one line, so checking each line on its own
      is enough. */
  lemma {:induction false} OneLinePerBalance(account: string, lines: seq<ReservationInput>, k: BalanceKey)
    requires LinesApart(lines)
    ensures (forall i | 0 <= i < |lines| :: KeyOf(account, lines[i]) != k) ==> LineTotal(account, lines, k) == 0.0
    ensures forall i | 0 <= i < |lines| :: KeyOf(account, lines[i]) == k ==> LineTotal(account, lines, k) == lines[i].amount.value
  {
    if lines != [] {
      var n := |lines| - 1;
      var init := lines[..n];
      assert forall i | 0 <= i < |init| :: init[i] == lines[i];
      OneLinePerBalance(account, init, k);
      if KeyOf(account, lines[n]) == k {
        forall i | 0 <= i < n ensures KeyOf(account, lines[i]) != k {
          assert !SameLine(lines[i], lines[n]);
        }
      }
    }
  }

  lemma {:induction false} NoRowsNothingReserved(rows: seq<ReservationRow>, k: BalanceKey)
    requires !HasRows(rows, k)
    ensures ReservedFor(rows, k) == 0.0
  {
    if rows != [] {
      assert rows[|rows| - 1].key != k;
      assert forall i | 0 <= i < |rows| - 1 :: rows[..|rows| - 1][i] == rows[i];
      NoRowsNothingReserved(rows[..|rows| - 1], k);
    }
  }

  /** The sorted lines pass exactly when each line of the request does. */
  lemma SortedLinesPass(balances: map<BalanceKey, Balance>, r: ReservePlanRequest)
    requires FirstRefusal(balances, r.accountId, SortedLines(r)).None?
    ensures forall i | 0 <= i < |r.reservations| :: LineRefusal(balances, r.accountId, r.reservations[i]).None?
  {
    hide LineRefusal, FirstRefusal, SortBy;
    FirstRefusalIsFirst(balances, r.accountId, SortedLines(r));
    SortPermutes(r.reservations, LineKey);
    forall i | 0 <= i < |r.reservations| ensures LineRefusal(balances, r.accountId, r.reservations[i]).None? {
      assert r.reservations[i] in multiset(r.reservations);
      assert r.reservations[i] in SortedLines(r);
    }
  }

  // ---------------------------------------------------------------- the invariant is kept

  lemma DebitKeepsFunds(s: Store, r: ReservePlanRequest)
    requires FundsSound(s.balances, s.reservations)
    requires ValidRequest(r, r.accountId, r.instrumentId) && FirstRefusal(s.balances, r.accountId, SortedLines(r)).None?
    ensures FundsSound(Debited(s.balances, r.accountId, r.reservations),
                       s.reservations + LineRows(r.planId, r.accountId, r.reservations))
  {
    hide ValidId, FirstRefusal, Debited, ReservedFor, LineTotal, AllNamed, Funded, SortedLines;
    var account, lines := r.accountId, r.reservations;
    var b' := Debited(s.balances, account, lines);
    DebitAddsLineTotals(s.balances, account, lines);
    SortedLinesPass(s.balances, r);
    forall k | k in b'
      ensures GoodBalance(b'[k]) && b'[k].reserved == ReservedFor(s.reservations + LineRows(r.planId, account, lines), k)
    {
      RowsAddLineTotals(s.reservations, r.planId, account, lines, k);
      OneLinePerBalance(account, lines, k);
      if i :| 0 <= i < |lines| && KeyOf(account, lines[i]) == k {
        assert LineRefusal(s.balances, account, lines[i]).None?;
      }
    }
    forall i | 0 <= i < |lines| ensures KeyOf(account, lines[i]) in b' {
      assert LineRefusal(s.balances, account, lines[i]).None?;
    }
  }

  lemma LinesOfAppended(rows: seq<ReservationRow>, row: ReservationRow, p: string)
    ensures LinesOf(rows + [row], p) == LinesOf(rows, p) + (if row.planId == p then multiset{row.line} else multiset{})
  {
    assert (rows + [row])[..|rows|] == rows;
  }

  lemma IntentsOfAppended(rows: seq<IntentRow>, row: IntentRow, p: string)
    ensures IntentsOf(rows + [row], p) == IntentsOf(rows, p) + (if row.planId == p then multiset{row.intent} else multiset{})
  {
    assert (rows + [row])[..|rows|] == rows;
  }

  lemma {:induction false} NewRowsOfPlan(rows: seq<ReservationRow>, planId: string, account: string,
                                         lines: seq<ReservationInput>, p: string)
    ensures LinesOf(rows + LineRows(planId, account, lines), p) ==
            LinesOf(rows, p) + (if p == planId then multiset(lines) else multiset{})
  {
    hide LinesOf;
    var added := LineRows(planId, account, lines);
    if lines == [] {
      assert rows + added == rows;
    } else {
      var n := |lines| - 1;
      var init := lines[..n];
      NewRowsOfPlan(rows, planId, account, init, p);
      assert added == LineRows(planId, account, init) + [added[n]];
      assert rows + added == (rows + LineRows(planId, account, init)) + [added[n]];
      LinesOfAppended(rows + LineRows(planId, account, init), added[n], p);
      assert lines == init + [lines[n]];
    }
  }

  lemma {:induction false} NewIntentsOfPlan(rows: seq<IntentRow>, planId: string, intents: seq<OrderIntentInput>, p: string)
    ensures IntentsOf(rows + IntentRows(planId, intents), p) ==
            IntentsOf(rows, p) + (if p == planId then multiset(intents) else multiset{})
  {
    hide IntentsOf;
    var added := IntentRows(planId, intents);
    if intents == [] {
      assert rows + added == rows;
    } else {
      var n := |intents| - 1;
      var init := intents[..n];
      NewIntentsOfPlan(rows, planId, init, p);
      assert added == IntentRows(planId, init) + [added[n]];
      assert rows + added == (rows + IntentRows(planId, init)) + [added[n]];
      IntentsOfAppended(rows + IntentRows(planId, init), added[n], p);
      assert intents == init + [intents[n]];
    }
  }

  lemma {:induction false} NothingUnderFreshPlan(rows: seq<ReservationRow>, intents: seq<IntentRow>, p: string)
    requires forall i | 0 <= i < |rows| :: rows[i].planId != p
    requires forall i | 0 <= i < |intents| :: intents[i].planId != p
    ensures LinesOf(rows, p) == multiset{} && IntentsOf(intents, p) == multiset{}
    decreases |rows| + |intents|
  {
    if rows != [] {
      NothingUnderFreshPlan(rows[..|rows| - 1], intents, p);
    } else if intents != [] {
      NothingUnderFreshPlan(rows, intents[..|intents| - 1], p);
    }
  }

  lemma {:induction false} StoredUnderPlan(rows: seq<ReservationRow>, p: string, line: ReservationInput)
    requires line in LinesOf(rows, p)
    ensures exists k | 0 <= k < |rows| :: rows[k].planId == p && rows[k].line == line
  {
    var n := |rows| - 1;
    if !(rows[n].planId == p && rows[n].line == line) {
      StoredUnderPlan(rows[..n], p, line);
      var k :| 0 <= k < |rows[..n]| && rows[..n][k].planId == p && rows[..n][k].line == line;
      assert rows[k].planId == p && rows[k].line == line;
    }
  }

  lemma CanonicalKeepsContent(r: ReservePlanRequest)
    ensures multiset(Canonical(r).reservations) == multiset(r.reservations)
    ensures multiset(Canonical(r).intents) == multiset(r.intents)
  {
    SortPermutes(r.reservations, LineKey);
    SortPermutes(r.intents, LegKey);
  }

  lemma CanonicalKeepsLengths(r: ReservePlanRequest)
    ensures |Canonical(r).reservations| == |r.reservations| && |Canonical(r).intents| == |r.intents|
  {
    SortPermutes(r.reservations, LineKey);
  }

  lemma InsertKeepsRows(s: Store, r: ReservePlanRequest, nowMs: nat)
    requires RowsSound(s) && r.planId !in s.plans
    ensures RowsSound(Inserted(s, r, nowMs))
  {
    hide Debited, LinesOf, IntentsOf, Canonical;
    var s' := Inserted(s, r, nowMs);
    CanonicalKeepsContent(r);
    NothingUnderFreshPlan(s.reservations, s.intents, r.planId);
    forall p | p in s'.plans
      ensures LinesOf(s'.reservations, p) == multiset(s'.plans[p].digest.reservations)
      ensures IntentsOf(s'.intents, p) == multiset(s'.plans[p].digest.intents)
    {
      NewRowsOfPlan(s.reservations, r.planId, r.accountId, r.reservations, p);
      NewIntentsOfPlan(s.intents, r.planId, r.intents, p);
    }
  }

  lemma NewPlanKeepsPlans(plans: map<string, PlanRow>, requests: map<string, string>, p: string, row: PlanRow)
    requires PlansSound(plans, requests)
    requires p !in plans && row.requestId !in requests && !DomainBusy(plans, row.account, row.instrument)
    requires row.digest.planId == p && DigestFits(row)
    ensures PlansSound(plans[p := row], requests[row.requestId := p])
  {
  }

  lemma EventIdInjective(p: string, q: string)
    requires EventId(p) == EventId(q)
    ensures p == q
  {
    assert |p| == |q|;
    assert EventId(p)[..|p|] == p && EventId(q)[..|q|] == q;
  }

  lemma NewPlanKeepsRecords(plans: map<string, PlanRow>, decisions: map<string, RiskDecision>, audits: map<string, AuditEvent>,
                            p: string, row: PlanRow, e: AuditEvent)
    requires RecordsSound(plans, decisions, audits) && p !in plans && EventFits(e, p, row)
    ensures RecordsSound(plans[p := row], decisions[p := RiskDecision(row.digest, row.createdAtMs)], audits[EventId(p) := e])
  {
    hide EventId, EventFits;
    forall q | q in plans ensures EventId(q) != EventId(p) {
      if EventId(q) == EventId(p) {
        EventIdInjective(q, p);
      }
    }
    assert e.aggregateId == p by { EventIsOf(e, p, row); }
  }

  lemma EventIsOf(e: AuditEvent, p: string, row: PlanRow)
    requires EventFits(e, p, row)
    ensures e.aggregateId == p
  {
  }

  /** In sound tables a fresh plan id is fresh for its approval and its event as well. */
  lemma RecordsFollowPlans(s: Store, planId: string)
    requires RecordsSound(s.plans, s.decisions, s.audits) && planId !in s.plans
    ensures planId !in s.decisions && !EventStored(s.audits, planId)
  {
    hide EventId, EventFits;
    if EventId(planId) in s.audits {
      EventIdInjective(planId, s.audits[EventId(planId)].aggregateId);
    }
  }

  lemma ObservationKeepsFunds(s: Store, k: BalanceKey, total: real, free: real, at: nat)
    requires FundsSound(s.balances, s.reservations) && !HasRows(s.reservations, k) && 0.0 <= free <= total
    ensures FundsSound(s.balances[k := Balance(total, free, 0.0, at)], s.reservations)
  {
    hide ReservedFor;
    NoRowsNothingReserved(s.reservations, k);
  }

  /** Every call keeps the tables sound; in particular the column check that reserved funds do
      not exceed free ones can never fire. */
  lemma ServeKeepsSound(s: Store, c: Call)
    requires Sound(s)
    ensures Sound(Serve(s, c).0)
  {
    hide ValidRequest, FirstRefusal, Inserted, Conflicts, FundsSound, PlansSound, RowsSound, RecordsSound, Debited, Canonical;
    match c
    case ReserveCall(account, instrument, r, nowMs) =>
      if Serve(s, c).1.Reserved? {
        InsertKeepsSound(s, r, nowMs, account, instrument);
      }
    case BalanceCall(k, total, free, at) =>
      if Serve(s, c).1.BalanceStored? {
        ObservationKeepsFunds(s, k, total, free, at);
        BalancesLeaveRows(s, Serve(s, c).0);
      }
  }

  lemma BalancesLeaveRows(s: Store, t: Store)
    requires RowsSound(s) && s.plans == t.plans && s.reservations == t.reservations && s.intents == t.intents
    ensures RowsSound(t)
  {
  }

  lemma InsertKeepsSound(s: Store, r: ReservePlanRequest, nowMs: nat, account: string, instrument: string)
    requires Sound(s) && ValidRequest(r, account, instrument) && !Conflicts(s, r)
    requires FirstRefusal(s.balances, account, SortedLines(r)).None?
    ensures Sound(Inserted(s, r, nowMs))
  {
    hide FirstRefusal, FundsSound, PlansSound, RowsSound, RecordsSound, Debited, SortedLines, AllNamed, SortBy, LineStored,
         IntentStored, DomainBusy, EventStored;
    DebitKeepsFunds(s, r);
    NewPlanKeepsPlans(s.plans, s.requests, r.planId, PlanRowOf(r, nowMs));
    CanonicalKeepsContent(r);
    CanonicalKeepsLengths(r);
    NewPlanKeepsRecords(s.plans, s.decisions, s.audits, r.planId, PlanRowOf(r, nowMs), AuditOf(r, nowMs));
    InsertKeepsRows(s, r, nowMs);
  }
}
