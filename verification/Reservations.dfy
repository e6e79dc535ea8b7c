/** Reservations and balance updates as concurrent transactions (crates/core/src/paper.rs): each
    takes its advisory locks one by one, checks under each, writes, and releases at its end. */
module Reservations {
  import opened Common
  import opened Text
  import opened Sorting
  import opened PaperRequest
  import opened PaperStore
  import opened PaperHistory

  datatype Answer = Answered(outcome: Outcome) | Aborted

  /** A transaction waits for its next lock, makes the check that follows a lock, or commits. */
  datatype Phase = Waiting(held: nat) | Checking(held: nat) | Committing | Finished(answer: Answer)

  datatype Tx = Tx(call: Call, phase: Phase)

  /** The committed tables, the lock table, all transactions ever begun, and the calls in the
      order in which they were answered. */
  datatype State = State(
    store: Store,
    locks: map<LockTarget, nat>,
    txs: seq<Tx>,
    order: seq<nat>,
    served: seq<Call>,
    answers: seq<Outcome>)

  datatype Action = Begin(call: Call) | Step(tx: nat) | Abort(tx: nat)

  const START := State(EMPTY_STORE, map[], [], [], [], [])

  // ---------------------------------------------------------------- the protocol

  function LineLock(account: string, line: ReservationInput): LockTarget {
    BalanceLock(account, line.venue, line.asset)
  }

  /** The locks of a call in the order in which it takes them. */
  function LockPlan(c: Call): seq<LockTarget> {
    match c
    case ReserveCall(_, _, r, _) =>
      var lines := SortedLines(r);
      [RequestLock(r.requestId)] + seq(|lines|, i requires 0 <= i < |lines| => LineLock(r.accountId, lines[i]))
    case BalanceCall(k, _, _, _) => [BalanceLock(k.account, k.venue, k.asset)]
  }

  /** Only a well-formed call opens a transaction. */
  predicate Opens(c: Call) {
    match c
    case ReserveCall(account, instrument, r, nowMs) => ValidRequest(r, account, instrument) && nowMs <= I64_MAX
    case BalanceCall(_, _, _, _) => GoodObservation(c)
  }

  function HeldCount(tx: Tx): nat {
    match tx.phase
    case Waiting(n) => n
    case Checking(n) => n
    case Committing => |LockPlan(tx.call)|
    case Finished(_) => 0
  }

  function HeldBy(tx: Tx): seq<LockTarget> {
    var n := HeldCount(tx);
    if n <= |LockPlan(tx.call)| then LockPlan(tx.call)[..n] else []
  }

  predicate PhaseOk(tx: Tx) {
    match tx.phase
    case Waiting(n) => Opens(tx.call) && n < |LockPlan(tx.call)|
    case Checking(n) => Opens(tx.call) && 1 <= n <= |LockPlan(tx.call)|
    case Committing => Opens(tx.call)
    case Finished(_) => true
  }

  /** The answer of a failing check made after the `n`-th lock, if it fails. */
  function CheckFails(s: Store, c: Call, n: nat): Option<Outcome> {
    match c
    case BalanceCall(k, _, _, _) => if HasRows(s.reservations, k) then Some(Refused(ActiveReservations)) else None
    case ReserveCall(_, _, r, _) =>
      if n == 1 then if r.requestId in s.requests then Some(Replay(s, r)) else None
      else if 2 <= n <= |SortedLines(r)| + 1 then
        var refusal := LineRefusal(s.balances, r.accountId, SortedLines(r)[n - 2]);
        if refusal.Some? then Some(Refused(refusal.value)) else None
      else None
  }

  /** What a transaction that passed all its checks writes when it commits. */
  function Commit(s: Store, c: Call): (Store, Outcome) {
    match c
    case ReserveCall(_, _, r, nowMs) =>
      if Conflicts(s, r) then (s, Refused(StoreRejected)) else (Inserted(s, r, nowMs), Reserved(r.planId))
    case BalanceCall(k, total, free, at) =>
      (s.(balances := s.balances[k := Balance(total, free, 0.0, at)]), BalanceStored)
  }

  predicate Enabled(s: State, a: Action) {
    match a
    case Begin(_) => true
    case Abort(i) => i < |s.txs| && !s.txs[i].phase.Finished?
    case Step(i) =>
      && i < |s.txs| && !s.txs[i].phase.Finished? && PhaseOk(s.txs[i])
      && (s.txs[i].phase.Waiting? ==> Wanted(s.txs[i]) !in s.locks)
  }

  function Wanted(tx: Tx): LockTarget
    requires tx.phase.Waiting? && PhaseOk(tx)
  {
    LockPlan(tx.call)[tx.phase.held]
  }

  /** Transaction-scoped locks go when their transaction ends. */
  function Released(locks: map<LockTarget, nat>, i: nat): map<LockTarget, nat> {
    map l | l in locks && locks[l] != i :: locks[l]
  }

  function Answering(s: State, i: nat, store: Store, outcome: Outcome): State
    requires i < |s.txs|
  {
    State(store, Released(s.locks, i), s.txs[i := s.txs[i].(phase := Finished(Answered(outcome)))],
          s.order + [i], s.served + [s.txs[i].call], s.answers + [outcome])
  }

  function Moved(s: State, i: nat, phase: Phase): State
    requires i < |s.txs|
  {
    s.(txs := s.txs[i := s.txs[i].(phase := phase)])
  }

  function Stepped(s: State, i: nat): State
    requires Enabled(s, Step(i))
  {
    var tx := s.txs[i];
    match tx.phase
    case Waiting(n) => Moved(s, i, Checking(n + 1)).(locks := s.locks[Wanted(tx) := i])
    case Checking(n) =>
      var failure := CheckFails(s.store, tx.call, n);
      if failure.Some? then Answering(s, i, s.store, failure.value)
      else Moved(s, i, if n < |LockPlan(tx.call)| then Waiting(n) else Committing)
    case Committing =>
      var written := Commit(s.store, tx.call);
      Answering(s, i, written.0, written.1)
  }

  function Next(s: State, a: Action): State
    requires Enabled(s, a)
  {
    match a
    case Begin(c) =>
      var begun := s.(txs := s.txs + [Tx(c, Waiting(0))]);
      if Opens(c) then begun else Answering(begun, |s.txs|, s.store, Serve(s.store, c).1)
    case Step(i) => Stepped(s, i)
    case Abort(i) => Moved(s, i, Finished(Aborted)).(locks := Released(s.locks, i))
  }

  function Run(s: State, actions: seq<Action>): Option<State>
    decreases |actions|
  {
    if actions == [] then Some(s)
    else if !Enabled(s, actions[0]) then None
    else Run(Next(s, actions[0]), actions[1..])
  }

  // ---------------------------------------------------------------- invariant

  /** The lock table holds exactly what the transactions hold. */
  ghost predicate LocksSound(locks: map<LockTarget, nat>, txs: seq<Tx>) {
    && (forall l | l in locks :: locks[l] < |txs| && l in HeldBy(txs[locks[l]]))
    && (forall i, l | 0 <= i < |txs| && l in HeldBy(txs[i]) :: l in locks && locks[l] == i)
  }

  /** The locks under which a transaction has already made its check. */
  function Passed(tx: Tx): nat {
    match tx.phase
    case Waiting(n) => n
    case Checking(n) => if n == 0 then 0 else n - 1
    case Committing => |LockPlan(tx.call)|
    case Finished(_) => 0
  }

  /** Every check a transaction has made would still pass. */
  ghost predicate ChecksHold(store: Store, tx: Tx) {
    forall n | 1 <= n <= Passed(tx) :: CheckFails(store, tx.call, n).None?
  }

  /** The answers are those of the calls executed one at a time in the order of answering. */
  ghost predicate Serial(s: State) {
    && ServeAll(EMPTY_STORE, s.served) == (s.store, s.answers)
    && |s.order| == |s.served|
    && (forall k | 0 <= k < |s.order| ::
          s.order[k] < |s.txs| && s.txs[s.order[k]] == Tx(s.served[k], Finished(Answered(s.answers[k]))))
    && (forall j, k | 0 <= j < k < |s.order| :: s.order[j] != s.order[k])
    && (forall i | 0 <= i < |s.txs| && s.txs[i].phase.Finished? && s.txs[i].phase.answer.Answered? :: i in s.order)
  }

  ghost predicate TxsSound(store: Store, txs: seq<Tx>) {
    forall i | 0 <= i < |txs| :: PhaseOk(txs[i]) && ChecksHold(store, txs[i])
  }

  ghost predicate Inv(s: State) {
    LocksSound(s.locks, s.txs) && TxsSound(s.store, s.txs) && Serial(s)
  }

  // ---------------------------------------------------------------- locks

  lemma UpdateKeepsLocks(locks: map<LockTarget, nat>, txs: seq<Tx>, i: nat, tx: Tx, locks': map<LockTarget, nat>)
    requires LocksSound(locks, txs) && i < |txs|
    requires forall l :: (l in locks' && locks'[l] == i) <==> l in HeldBy(tx)
    requires forall l | l in locks && locks[l] != i :: l in locks' && locks'[l] == locks[l]
    requires forall l | l in locks' && locks'[l] != i :: l in locks && locks'[l] == locks[l]
    ensures LocksSound(locks', txs[i := tx])
  {
    hide HeldBy;
  }

  lemma ReleaseKeepsLocks(locks: map<LockTarget, nat>, txs: seq<Tx>, i: nat, answer: Answer)
    requires LocksSound(locks, txs) && i < |txs|
    ensures LocksSound(Released(locks, i), txs[i := txs[i].(phase := Finished(answer))])
  {
    hide LocksSound, LockPlan;
    UpdateKeepsLocks(locks, txs, i, txs[i].(phase := Finished(answer)), Released(locks, i));
  }

  lemma AcquireKeepsLocks(locks: map<LockTarget, nat>, txs: seq<Tx>, i: nat)
    requires LocksSound(locks, txs) && i < |txs| && PhaseOk(txs[i]) && txs[i].phase.Waiting?
    requires Wanted(txs[i]) !in locks
    ensures LocksSound(locks[Wanted(txs[i]) := i], txs[i := txs[i].(phase := Checking(txs[i].phase.held + 1))])
  {
    hide LockPlan, Opens;
    var tx := txs[i];
    var tx' := tx.(phase := Checking(tx.phase.held + 1));
    var n := tx.phase.held;
    assert HeldBy(tx') == HeldBy(tx) + [Wanted(tx)];
    UpdateKeepsLocks(locks, txs, i, tx', locks[Wanted(tx) := i]);
  }

  lemma RephaseKeepsLocks(locks: map<LockTarget, nat>, txs: seq<Tx>, i: nat, phase: Phase)
    requires LocksSound(locks, txs) && i < |txs| && HeldBy(txs[i].(phase := phase)) == HeldBy(txs[i])
    ensures LocksSound(locks, txs[i := txs[i].(phase := phase)])
  {
    hide HeldBy;
    UpdateKeepsLocks(locks, txs, i, txs[i].(phase := phase), locks);
  }

  lemma BeginKeepsLocks(locks: map<LockTarget, nat>, txs: seq<Tx>, tx: Tx)
    requires LocksSound(locks, txs) && HeldBy(tx) == []
    ensures LocksSound(locks, txs + [tx])
  {
    hide HeldBy;
  }

  // ---------------------------------------------------------------- what a commit can change

  /** A commit changes a balance, or its reservations, only under that balance's lock. */
  lemma CommitNeedsBalanceLock(s: Store, c: Call, k: BalanceKey)
    requires Opens(c) && BalanceLock(k.account, k.venue, k.asset) !in LockPlan(c)
    ensures var t := Commit(s, c).0;
            && (k in t.balances <==> k in s.balances)
            && (k in s.balances ==> t.balances[k] == s.balances[k])
            && (HasRows(t.reservations, k) <==> HasRows(s.reservations, k))
  {
    hide ValidId, Conflicts, Debited, SortBy, AllNamed, Funded, Canonical;
    match c
    case BalanceCall(k', _, _, _) =>
    case ReserveCall(_, _, r, nowMs) =>
      LinesAreLocked(c, k);
      DebitAddsLineTotals(s.balances, r.accountId, r.reservations);
      OneLinePerBalance(r.accountId, r.reservations, k);
      AppendedRows(s.reservations, LineRows(r.planId, r.accountId, r.reservations), k);
  }

  lemma AppendedRows(rows: seq<ReservationRow>, added: seq<ReservationRow>, k: BalanceKey)
    requires forall i | 0 <= i < |added| :: added[i].key != k
    ensures HasRows(rows + added, k) <==> HasRows(rows, k)
  {
    assert forall i | 0 <= i < |rows| :: (rows + added)[i] == rows[i];
  }

  lemma LinesAreLocked(c: Call, k: BalanceKey)
    requires c.ReserveCall? && BalanceLock(k.account, k.venue, k.asset) !in LockPlan(c)
    ensures forall i | 0 <= i < |c.request.reservations| :: KeyOf(c.request.accountId, c.request.reservations[i]) != k
  {
    hide SortBy;
    var r := c.request;
    SortPermutes(r.reservations, LineKey);
    forall i | 0 <= i < |r.reservations| ensures KeyOf(r.accountId, r.reservations[i]) != k {
      assert r.reservations[i] in multiset(r.reservations);
      var j :| 0 <= j < |SortedLines(r)| && SortedLines(r)[j] == r.reservations[i];
      assert LockPlan(c)[j + 1] == LineLock(r.accountId, r.reservations[i]);
    }
  }

  /** A commit binds a request id only under that request's lock. */
  lemma CommitNeedsRequestLock(s: Store, c: Call, requestId: string)
    requires Opens(c) && RequestLock(requestId) !in LockPlan(c)
    ensures requestId in Commit(s, c).0.requests <==> requestId in s.requests
  {
    hide Conflicts, Debited, SortedLines, Canonical, ValidRequest;
    if c.ReserveCall? {
      assert LockPlan(c)[0] == RequestLock(c.request.requestId);
    }
  }

  lemma CheckSurvives(s: Store, c: Call, tx: Tx, n: nat)
    requires Opens(c) && 1 <= n <= |LockPlan(tx.call)| && LockPlan(tx.call)[n - 1] !in LockPlan(c)
    requires CheckFails(s, tx.call, n).None?
    ensures CheckFails(Commit(s, c).0, tx.call, n).None?
  {
    hide Commit, Opens, SortedLines, HasRows, Replay;
    var l := LockPlan(tx.call)[n - 1];
    match tx.call
    case BalanceCall(k, _, _, _) => CommitNeedsBalanceLock(s, c, k);
    case ReserveCall(_, _, r, _) =>
      if n == 1 {
        CommitNeedsRequestLock(s, c, r.requestId);
      } else {
        var k := KeyOf(r.accountId, SortedLines(r)[n - 2]);
        assert l == BalanceLock(k.account, k.venue, k.asset);
        CommitNeedsBalanceLock(s, c, k);
      }
  }

  /** A check made under a lock still holds after any commit that does not own that lock. */
  lemma ChecksSurvive(s: Store, c: Call, tx: Tx)
    requires Opens(c) && PhaseOk(tx) && ChecksHold(s, tx)
    requires forall l | l in HeldBy(tx) :: l !in LockPlan(c)
    ensures ChecksHold(Commit(s, c).0, tx)
  {
    hide Commit, Opens, LockPlan, CheckFails;
    forall n | 1 <= n <= Passed(tx) ensures CheckFails(Commit(s, c).0, tx.call, n).None? {
      assert HeldBy(tx)[n - 1] == LockPlan(tx.call)[n - 1];
      assert HeldBy(tx)[n - 1] in HeldBy(tx);
      CheckSurvives(s, c, tx, n);
    }
  }

  // ---------------------------------------------------------------- finishing is atomic

  lemma EarlierLinesPass(s: Store, c: Call, n: nat)
    requires c.ReserveCall? && n <= |SortedLines(c.request)|
    requires forall m | 1 <= m <= n + 1 :: CheckFails(s, c, m).None?
    ensures c.request.requestId !in s.requests
    ensures FirstRefusal(s.balances, c.request.accountId, SortedLines(c.request)[..n]).None?
  {
    hide LineRefusal, SortedLines, FirstRefusal, Replay;
    var r := c.request;
    assert CheckFails(s, c, 1).None?;
    forall i | 0 <= i < n ensures LineRefusal(s.balances, r.accountId, SortedLines(r)[..n][i]).None? {
      assert CheckFails(s, c, i + 2).None?;
    }
    FirstRefusalIsFirst(s.balances, r.accountId, SortedLines(r)[..n]);
  }

  /** A failing check answers as the whole call would, executed alone at that moment. */
  lemma FailureIsAtomic(s: Store, tx: Tx)
    requires PhaseOk(tx) && tx.phase.Checking? && ChecksHold(s, tx)
    requires CheckFails(s, tx.call, tx.phase.held).Some?
    ensures Serve(s, tx.call) == (s, CheckFails(s, tx.call, tx.phase.held).value)
  {
    hide ValidRequest, SortedLines, LineRefusal, FirstRefusal, Conflicts, Inserted, Replay;
    var n := tx.phase.held;
    if tx.call.ReserveCall? && n > 1 {
      var r := tx.call.request;
      OwnAccount(tx.call);
      EarlierLinesPass(s, tx.call, n - 2);
      LastLineRefuses(s.balances, r.accountId, SortedLines(r), n - 2);
    }
  }

  lemma OwnAccount(c: Call)
    requires Opens(c) && c.ReserveCall?
    ensures c.request.accountId == c.account && c.request.instrumentId == c.instrument
  {
  }

  lemma LastLineRefuses(balances: map<BalanceKey, Balance>, account: string, lines: seq<ReservationInput>, n: nat)
    requires n < |lines| && FirstRefusal(balances, account, lines[..n]).None? && LineRefusal(balances, account, lines[n]).Some?
    ensures FirstRefusal(balances, account, lines) == LineRefusal(balances, account, lines[n])
  {
    hide LineRefusal;
    assert lines[..n + 1][..n] == lines[..n];
    RefusalStays(balances, account, lines, n + 1);
  }

  /** A commit does what the whole call would, executed alone at that moment. */
  lemma CommitIsAtomic(s: Store, tx: Tx)
    requires PhaseOk(tx) && tx.phase.Committing? && ChecksHold(s, tx)
    ensures Serve(s, tx.call) == Commit(s, tx.call)
  {
    hide ValidRequest, SortedLines, LineRefusal, FirstRefusal, Conflicts, Inserted, Replay, GoodObservation;
    if tx.call.ReserveCall? {
      var lines := SortedLines(tx.call.request);
      OwnAccount(tx.call);
      EarlierLinesPass(s, tx.call, |lines|);
      assert lines[..|lines|] == lines;
    } else {
      assert CheckFails(s, tx.call, 1).None?;
    }
  }

  // ---------------------------------------------------------------- every step keeps the invariant

  lemma AnsweringKeepsSerial(s: State, i: nat, store: Store, outcome: Outcome)
    requires Serial(s) && i < |s.txs| && !s.txs[i].phase.Finished?
    requires Serve(s.store, s.txs[i].call) == (store, outcome)
    ensures Serial(Answering(s, i, store, outcome))
  {
    hide Serve, LocksSound;
    var s' := Answering(s, i, store, outcome);
    assert s'.served[..|s.served|] == s.served;
    assert ServeAll(EMPTY_STORE, s'.served) == (s'.store, s'.answers);
    OrderExtends(s, i, outcome);
  }

  lemma OrderExtends(s: State, i: nat, outcome: Outcome)
    requires Serial(s) && i < |s.txs| && !s.txs[i].phase.Finished?
    ensures i !in s.order
    ensures var s' := Answering(s, i, s.store, outcome);
            && (forall k | 0 <= k < |s'.order| ::
                  s'.order[k] < |s'.txs| && s'.txs[s'.order[k]] == Tx(s'.served[k], Finished(Answered(s'.answers[k]))))
            && (forall j, k | 0 <= j < k < |s'.order| :: s'.order[j] != s'.order[k])
            && (forall j | 0 <= j < |s'.txs| && s'.txs[j].phase.Finished? && s'.txs[j].phase.answer.Answered? :: j in s'.order)
  {
    hide ServeAll;
    assert i !in s.order;
    var s' := Answering(s, i, s.store, outcome);
    forall j | 0 <= j < |s'.txs| && s'.txs[j].phase.Finished? && s'.txs[j].phase.answer.Answered? ensures j in s'.order {
      if j == i {
        assert s'.order[|s.order|] == i;
      }
    }
  }

  lemma MovingKeepsSerial(s: State, i: nat, phase: Phase, locks: map<LockTarget, nat>)
    requires Serial(s) && i < |s.txs| && !s.txs[i].phase.Finished?
    requires phase.Finished? ==> phase.answer.Aborted?
    ensures Serial(Moved(s, i, phase).(locks := locks))
  {
    hide ServeAll;
    OrderExtends(s, i, BalanceStored);
  }

  lemma BeginningKeepsSerial(s: State, tx: Tx)
    requires Serial(s) && !tx.phase.Finished?
    ensures Serial(s.(txs := s.txs + [tx]))
  {
    hide ServeAll;
  }

  lemma BeginKeepsInv(s: State, c: Call)
    requires Inv(s)
    ensures Inv(Next(s, Begin(c)))
  {
    hide Serve, LocksSound, Serial, LockPlan, CheckFails, Opens, ServeAll;
    var tx := Tx(c, Waiting(0));
    var begun := s.(txs := s.txs + [tx]);
    BeginKeepsLocks(s.locks, s.txs, tx);
    BeginningKeepsSerial(s, tx);
    if Opens(c) {
      assert |LockPlan(c)| >= 1 by { LockPlanStarts(c); }
    } else {
      RefusedAtOnce(s.store, c);
      AnsweringKeepsSerial(begun, |s.txs|, s.store, Serve(s.store, c).1);
      ReleaseKeepsLocks(begun.locks, begun.txs, |s.txs|, Answered(Serve(s.store, c).1));
    }
  }

  lemma LockPlanStarts(c: Call)
    ensures |LockPlan(c)| >= 1
  {
  }

  lemma RefusedAtOnce(s: Store, c: Call)
    requires !Opens(c)
    ensures Serve(s, c).0 == s
  {
    hide ValidRequest, GoodObservation;
  }

  /** The invariant after a transaction leaves without writing. */
  lemma LeavingKeepsInv(s: State, i: nat, answer: Answer)
    requires Inv(s) && i < |s.txs| && !s.txs[i].phase.Finished?
    ensures LocksSound(Released(s.locks, i), s.txs[i := s.txs[i].(phase := Finished(answer))])
    ensures TxsSound(s.store, s.txs[i := s.txs[i].(phase := Finished(answer))])
  {
    hide LocksSound, Serial, LockPlan, CheckFails, Opens;
    ReleaseKeepsLocks(s.locks, s.txs, i, answer);
  }

  lemma AbortKeepsInv(s: State, i: nat)
    requires Inv(s) && Enabled(s, Abort(i))
    ensures Inv(Next(s, Abort(i)))
  {
    hide LocksSound, Serial, TxsSound, Released;
    LeavingKeepsInv(s, i, Aborted);
    MovingKeepsSerial(s, i, Finished(Aborted), Released(s.locks, i));
  }

  lemma AcquireKeepsInv(s: State, i: nat)
    requires Inv(s) && Enabled(s, Step(i)) && s.txs[i].phase.Waiting?
    ensures Inv(Next(s, Step(i)))
  {
    hide LocksSound, Serial, LockPlan, CheckFails, Opens;
    var n := s.txs[i].phase.held;
    AcquireKeepsLocks(s.locks, s.txs, i);
    MovingKeepsSerial(s, i, Checking(n + 1), s.locks[Wanted(s.txs[i]) := i]);
  }

  lemma CheckKeepsInv(s: State, i: nat)
    requires Inv(s) && Enabled(s, Step(i)) && s.txs[i].phase.Checking?
    ensures Inv(Next(s, Step(i)))
  {
    hide LocksSound, Serial, LockPlan, CheckFails, Opens, Serve, Released;
    var tx := s.txs[i];
    var n := tx.phase.held;
    var failure := CheckFails(s.store, tx.call, n);
    if failure.Some? {
      FailureIsAtomic(s.store, tx);
      AnsweringKeepsSerial(s, i, s.store, failure.value);
      LeavingKeepsInv(s, i, Answered(failure.value));
    } else {
      var next := if n < |LockPlan(tx.call)| then Waiting(n) else Committing;
      PassingKeepsTx(s.store, tx, next);
      RephaseKeepsLocks(s.locks, s.txs, i, next);
      MovingKeepsSerial(s, i, next, s.locks);
    }
  }

  lemma PassingKeepsTx(store: Store, tx: Tx, next: Phase)
    requires PhaseOk(tx) && tx.phase.Checking? && ChecksHold(store, tx)
    requires CheckFails(store, tx.call, tx.phase.held).None?
    requires next == if tx.phase.held < |LockPlan(tx.call)| then Waiting(tx.phase.held) else Committing
    ensures var tx' := tx.(phase := next); PhaseOk(tx') && ChecksHold(store, tx') && HeldBy(tx') == HeldBy(tx)
  {
    hide LockPlan, CheckFails, Opens;
  }

  lemma CommitKeepsInv(s: State, i: nat)
    requires Inv(s) && Enabled(s, Step(i)) && s.txs[i].phase.Committing?
    ensures Inv(Next(s, Step(i)))
  {
    hide LocksSound, Serial, LockPlan, CheckFails, Opens, Serve, Released, Commit, HeldBy;
    var tx := s.txs[i];
    var written := Commit(s.store, tx.call);
    CommitIsAtomic(s.store, tx);
    AnsweringKeepsSerial(s, i, written.0, written.1);
    LeavingKeepsInv(s, i, Answered(written.1));
    var txs' := Next(s, Step(i)).txs;
    forall k | 0 <= k < |txs'| ensures PhaseOk(txs'[k]) && ChecksHold(written.0, txs'[k]) {
      if k != i {
        OthersDoNotHold(s.locks, s.txs, i, k);
        ChecksSurvive(s.store, tx.call, s.txs[k]);
      }
    }
  }

  lemma OthersDoNotHold(locks: map<LockTarget, nat>, txs: seq<Tx>, i: nat, k: nat)
    requires LocksSound(locks, txs) && i < |txs| && k < |txs| && i != k && txs[i].phase.Committing?
    ensures forall l | l in HeldBy(txs[k]) :: l !in LockPlan(txs[i].call)
  {
    hide LockPlan;
    var plan := LockPlan(txs[i].call);
    assert plan[..|plan|] == plan;
    var mine := HeldBy(txs[i]);
    assert mine == plan && forall l | l in mine :: l in locks && locks[l] == i;
    forall l | l in HeldBy(txs[k]) ensures l !in plan {
      assert locks[l] == k;
    }
  }

  lemma NextKeepsInv(s: State, a: Action)
    requires Inv(s) && Enabled(s, a)
    ensures Inv(Next(s, a))
  {
    hide Inv, Next;
    match a
    case Begin(c) => BeginKeepsInv(s, c);
    case Abort(i) => AbortKeepsInv(s, i);
    case Step(i) =>
      match s.txs[i].phase
      case Waiting(_) => AcquireKeepsInv(s, i);
      case Checking(_) => CheckKeepsInv(s, i);
      case Committing => CommitKeepsInv(s, i);
  }

  lemma {:induction false} RunKeepsInv(s: State, actions: seq<Action>)
    requires Inv(s) && Run(s, actions).Some?
    ensures Inv(Run(s, actions).value)
    decreases |actions|
  {
    hide Inv, Next, Enabled;
    if actions != [] {
      NextKeepsInv(s, actions[0]);
      RunKeepsInv(Next(s, actions[0]), actions[1..]);
    }
  }

  lemma StartIsGood()
    ensures Inv(START)
  {
  }

  /** Every interleaving is serialisable: the tables and all answers are exactly those of the
      answered calls executed one at a time in the order in which they were answered, each
      answered transaction occurring once. So in every interleaving each balance keeps its
      reserved part equal to the sum of its reservations and within its bounds. */
  lemma EveryInterleavingIsSerial(actions: seq<Action>)
    requires Run(START, actions).Some?
    ensures var s := Run(START, actions).value;
            && ServeAll(EMPTY_STORE, s.served) == (s.store, s.answers)
            && |s.order| == |s.served|
            && (forall k | 0 <= k < |s.order| ::
                  s.order[k] < |s.txs| && s.txs[s.order[k]] == Tx(s.served[k], Finished(Answered(s.answers[k]))))
            && (forall j, k | 0 <= j < k < |s.order| :: s.order[j] != s.order[k])
            && (forall i | 0 <= i < |s.txs| && s.txs[i].phase.Finished? && s.txs[i].phase.answer.Answered? :: i in s.order)
            && (forall k | k in s.store.balances ::
                  var b := s.store.balances[k];
                  0.0 <= b.reserved <= b.free <= b.total && b.reserved == ReservedFor(s.store.reservations, k))
  {
    hide LocksSound, TxsSound, Serve, ServeAll;
    StartIsGood();
    RunKeepsInv(START, actions);
    EveryHistoryIsSound(Run(START, actions).value.served);
  }

  /** Whatever the interleaving, checks made under a lock still hold when they are relied upon. */
  lemma ChecksHoldUntilCommit(actions: seq<Action>, i: nat)
    requires Run(START, actions).Some? && i < |Run(START, actions).value.txs|
    requires var tx := Run(START, actions).value.txs[i]; tx.phase.Committing? && tx.call.ReserveCall?
    ensures var s := Run(START, actions).value;
            var r := s.txs[i].call.request;
            && r.requestId !in s.store.requests
            && forall j | 0 <= j < |r.reservations| ::
                 var k := KeyOf(r.accountId, r.reservations[j]);
                 k in s.store.balances
                 && s.store.balances[k].free - s.store.balances[k].reserved >= r.reservations[j].amount.value
  {
    hide LocksSound, Serial, Serve, ServeAll, FirstRefusal, SortBy, ValidRequest;
    StartIsGood();
    RunKeepsInv(START, actions);
    var s := Run(START, actions).value;
    var tx := s.txs[i];
    var r := tx.call.request;
    var lines := SortedLines(r);
    EarlierLinesPass(s.store, tx.call, |lines|);
    assert lines[..|lines|] == lines;
    SortedLinesPass(s.store.balances, r);
    forall j | 0 <= j < |r.reservations|
      ensures var k := KeyOf(r.accountId, r.reservations[j]);
              k in s.store.balances
              && s.store.balances[k].free - s.store.balances[k].reserved >= r.reservations[j].amount.value
    {
      assert LineRefusal(s.store.balances, r.accountId, r.reservations[j]).None?;
    }
  }

  /** In every interleaving, two transactions that both reserved carry different request ids. */
  lemma RequestReservesAtMostOnceConcurrently(actions: seq<Action>, i: nat, j: nat)
    requires Run(START, actions).Some?
    requires var s := Run(START, actions).value; i < |s.txs| && j < |s.txs| && i != j && HasReserved(s.txs[i]) && HasReserved(s.txs[j])
    ensures var s := Run(START, actions).value; s.txs[i].call.request.requestId != s.txs[j].call.request.requestId
  {
    hide LocksSound, TxsSound, Serve, ServeAll;
    StartIsGood();
    RunKeepsInv(START, actions);
    var s := Run(START, actions).value;
    var a :| 0 <= a < |s.order| && s.order[a] == i;
    var b :| 0 <= b < |s.order| && s.order[b] == j;
    if a < b {
      RequestReservesAtMostOnce(EMPTY_STORE, s.served, a, b);
    } else {
      RequestReservesAtMostOnce(EMPTY_STORE, s.served, b, a);
    }
  }

  /** In every interleaving: a reservation that was answered after a balance update of its own is a
      replay if and only if another transaction reserved the same request, up to order, in
      between; and it is then answered with that transaction's plan. */
  lemma ReplayExactlyAfterConcurrentTwin(actions: seq<Action>, a: nat, c: nat, i: nat)
    requires Run(START, actions).Some?
    requires var s := Run(START, actions).value;
             && a < c < |s.order| && |s.served| == |s.order| && |s.answers| == |s.order|
             && s.served[a].BalanceCall? && s.answers[a] == BalanceStored
             && s.served[c].ReserveCall? && Opens(s.served[c]) && i < |s.served[c].request.reservations|
             && KeyOf(s.served[c].request.accountId, s.served[c].request.reservations[i]) == s.served[a].key
    ensures var s := Run(START, actions).value;
            && (s.answers[c].Replayed? <==> exists e | a < e < c :: ReservedTwin(s.served, s.answers, e, c))
            && (forall e | a < e < c && ReservedTwin(s.served, s.answers, e, c) ::
                  s.order[e] != s.order[c] && s.answers[c] == Replayed(s.answers[e].planId))
  {
    hide LocksSound, TxsSound, Serve, ServeAll, ReservedTwin;
    StartIsGood();
    RunKeepsInv(START, actions);
    ReplayExactlyAfterTwin(Run(START, actions).value.served, a, c, i);
  }

  predicate HasReserved(tx: Tx) {
    tx.call.ReserveCall? && tx.phase.Finished? && tx.phase.answer.Answered? && tx.phase.answer.outcome.Reserved?
  }
}
