/** Progress of the reservation protocol (crates/core/src/paper.rs): locks are always taken in one
    global order, so waiting never closes a circle and every transaction can finish. */
module Progress {
  import opened Common
  import opened Text
  import opened Sorting
  import opened PaperRequest
  import opened PaperStore
  import opened Reservations

  // ---------------------------------------------------------------- the lock order

  function BalancePair(l: LockTarget): (string, string)
    requires l.BalanceLock?
  {
    (l.venue, l.asset)
  }

  /** Request locks come before balance locks; balance locks go by account, venue and asset. */
  predicate LockBefore(a: LockTarget, b: LockTarget) {
    match (a, b)
    case (RequestLock(x), RequestLock(y)) => Less(x, y)
    case (RequestLock(_), BalanceLock(_, _, _)) => true
    case (BalanceLock(x, _, _), BalanceLock(y, _, _)) =>
      Less(x, y) || (x == y && PairLess(BalancePair(a), BalancePair(b)))
    case _ => false
  }

  lemma LockBeforeIrreflexive(a: LockTarget)
    ensures !LockBefore(a, a)
  {
    match a
    case RequestLock(x) => LessIrreflexive(x);
    case BalanceLock(x, _, _) =>
      LessIrreflexive(x);
      PairLessIrreflexive(BalancePair(a));
    case DomainLock(_, _) =>
  }

  lemma LockBeforeTransitive(a: LockTarget, b: LockTarget, c: LockTarget)
    requires LockBefore(a, b) && LockBefore(b, c)
    ensures LockBefore(a, c)
  {
    hide Less, PairLess;
    if a.RequestLock? && b.RequestLock? && c.RequestLock? {
      LessTransitive(a.request, b.request, c.request);
    } else if a.BalanceLock? && b.BalanceLock? && c.BalanceLock? {
      if Less(a.account, b.account) && Less(b.account, c.account) {
        LessTransitive(a.account, b.account, c.account);
      }
      if a.account == b.account == c.account && PairLess(BalancePair(a), BalancePair(b)) && PairLess(BalancePair(b), BalancePair(c)) {
        PairLessTransitive(BalancePair(a), BalancePair(b), BalancePair(c));
      }
    }
  }

  lemma LineLockAt(c: Call, k: nat)
    requires c.ReserveCall? && 1 <= k < |LockPlan(c)|
    ensures k <= |SortedLines(c.request)|
    ensures LockPlan(c)[k] == LineLock(c.request.accountId, SortedLines(c.request)[k - 1])
  {
    hide SortedLines;
  }

  /** Every call takes its locks in strictly ascending order. */
  lemma PlanAscends(c: Call, i: nat, j: nat)
    requires Opens(c) && i < j < |LockPlan(c)|
    ensures LockBefore(LockPlan(c)[i], LockPlan(c)[j])
  {
    hide SortedLines, Less, PairLess, ValidRequest, GoodObservation;
    if c.ReserveCall? {
      LineLockAt(c, j);
      if i > 0 {
        LineLockAt(c, i);
        hide LockPlan;
        OwnAccount(c);
        LinesAscend(c.request, c.account, c.instrument, i - 1, j - 1);
      }
    }
  }

  lemma LinesAscend(r: ReservePlanRequest, account: string, instrument: string, i: nat, j: nat)
    requires ValidRequest(r, account, instrument) && i < j < |SortedLines(r)|
    ensures PairLess(LineKey(SortedLines(r)[i]), LineKey(SortedLines(r)[j]))
  {
    hide SortBy, PairLess, AllNamed, Funded;
    ValidKeysDistinct(r);
    SortAscends(r.reservations, LineKey);
  }

  // ---------------------------------------------------------------- waiting

  /** Transaction `w` waits for a lock that `h` holds. */
  ghost predicate WaitsFor(s: State, w: nat, h: nat) {
    && w < |s.txs| && h < |s.txs| && s.txs[w].phase.Waiting? && PhaseOk(s.txs[w])
    && Wanted(s.txs[w]) in s.locks && s.locks[Wanted(s.txs[w])] == h
  }

  /** Transaction `w` waits, and if `h` waits too, it is for a later lock. */
  ghost predicate WantsLater(s: State, w: nat, h: nat) {
    && w < |s.txs| && h < |s.txs| && s.txs[w].phase.Waiting? && PhaseOk(s.txs[w]) && PhaseOk(s.txs[h])
    && (s.txs[h].phase.Waiting? ==> LockBefore(Wanted(s.txs[w]), Wanted(s.txs[h])))
  }

  /** Whoever blocks a transaction holds its lock, is unfinished, and wants only later locks. */
  lemma BlockerWantsLater(s: State, w: nat, h: nat)
    requires Inv(s) && WaitsFor(s, w, h)
    ensures !s.txs[h].phase.Finished? && WantsLater(s, w, h)
  {
    hide Serial, ChecksHold, LockPlan, Opens, LockBefore;
    var l := Wanted(s.txs[w]);
    var tx := s.txs[h];
    assert l in HeldBy(tx);
    var j :| 0 <= j < |HeldBy(tx)| && HeldBy(tx)[j] == l;
    if tx.phase.Waiting? {
      PlanAscends(tx.call, j, tx.phase.held);
    }
  }

  lemma WantsLaterTransitive(s: State, a: nat, b: nat, c: nat)
    requires WantsLater(s, a, b) && WantsLater(s, b, c)
    ensures WantsLater(s, a, c)
  {
    hide PhaseOk, LockPlan, LockBefore;
    if s.txs[c].phase.Waiting? {
      LockBeforeTransitive(Wanted(s.txs[a]), Wanted(s.txs[b]), Wanted(s.txs[c]));
    }
  }

  lemma {:induction false} PathAscends(s: State, path: seq<nat>)
    requires Inv(s) && |path| >= 2
    requires forall k | 0 <= k < |path| - 1 :: WaitsFor(s, path[k], path[k + 1])
    ensures WantsLater(s, path[0], path[|path| - 1])
  {
    hide Inv, WantsLater, WaitsFor;
    var n := |path|;
    assert WaitsFor(s, path[n - 2], path[n - 2 + 1]);
    BlockerWantsLater(s, path[n - 2], path[n - 1]);
    if n > 2 {
      PathAscends(s, path[..n - 1]);
      WantsLaterTransitive(s, path[0], path[n - 2], path[n - 1]);
    }
  }

  /** In every interleaving the wait-for relation has no cycle of any length. */
  lemma WaitingIsAcyclic(actions: seq<Action>, path: seq<nat>)
    requires Run(START, actions).Some? && |path| >= 2
    requires forall k | 0 <= k < |path| - 1 :: WaitsFor(Run(START, actions).value, path[k], path[k + 1])
    ensures path[0] != path[|path| - 1]
  {
    hide Inv, LockPlan, LockBefore, Run, PhaseOk;
    StartIsGood();
    RunKeepsInv(START, actions);
    var s := Run(START, actions).value;
    PathAscends(s, path);
    LockBeforeIrreflexive(Wanted(s.txs[path[0]]));
  }

  predicate Unfinished(s: State, i: nat) {
    i < |s.txs| && !s.txs[i].phase.Finished?
  }

  function Indexes(n: nat): (r: set<nat>)
    ensures |r| == n && forall i | i in r :: i < n
    ensures forall i: nat | i < n :: i in r
  {
    if n == 0 then {} else Indexes(n - 1) + {n - 1}
  }

  /** Following blockers, each wanting a later lock than all before it, ends at one that can step. */
  lemma {:induction false} ChaseBlockers(s: State, w: nat, visited: set<nat>) returns (i: nat)
    requires Inv(s) && Unfinished(s, w) && visited <= Indexes(|s.txs|)
    requires forall v | v in visited :: WantsLater(s, v, w)
    ensures Unfinished(s, i) && Enabled(s, Step(i))
    decreases |s.txs| - |visited|
  {
    hide LocksSound, Serial, ChecksHold, LockPlan, LockBefore, Indexes;
    assert PhaseOk(s.txs[w]);
    if Enabled(s, Step(w)) {
      return w;
    }
    var tx := s.txs[w];
    hide PhaseOk;
    LockBeforeIrreflexive(Wanted(tx));
    assert w !in visited;
    SubsetSize(visited + {w}, Indexes(|s.txs|));
    OwnerExists(s, w);
    var h := s.locks[Wanted(tx)];
    BlockerWantsLater(s, w, h);
    hide WantsLater;
    forall v | v in visited + {w} ensures WantsLater(s, v, h) {
      if v != w {
        WantsLaterTransitive(s, v, w, h);
      }
    }
    i := ChaseBlockers(s, h, visited + {w});
  }

  lemma OwnerExists(s: State, w: nat)
    requires Inv(s) && w < |s.txs| && s.txs[w].phase.Waiting? && PhaseOk(s.txs[w]) && Wanted(s.txs[w]) in s.locks
    ensures WaitsFor(s, w, s.locks[Wanted(s.txs[w])])
  {
    hide Serial, ChecksHold, LockPlan, HeldBy;
  }

  lemma {:induction false} SubsetSize(a: set<nat>, b: set<nat>)
    requires a <= b
    ensures |a| <= |b|
  {
    if a != {} {
      var x :| x in a;
      SubsetSize(a - {x}, b - {x});
    }
  }

  /** No deadlock: while any transaction is unfinished, some transaction can take a step. */
  lemma SomeTransactionCanStep(actions: seq<Action>, w: nat) returns (i: nat)
    requires Run(START, actions).Some? && Unfinished(Run(START, actions).value, w)
    ensures Unfinished(Run(START, actions).value, i) && Enabled(Run(START, actions).value, Step(i))
  {
    hide Inv, Run, Enabled;
    StartIsGood();
    RunKeepsInv(START, actions);
    i := ChaseBlockers(Run(START, actions).value, w, {});
  }

  // ---------------------------------------------------------------- everyone finishes

  /** How many of its own steps a transaction is at most away from its end. */
  function Remaining(tx: Tx): nat {
    var n := |LockPlan(tx.call)|;
    match tx.phase
    case Waiting(held) => if held <= n then 2 * (n - held) + 1 else 0
    case Checking(held) => if held <= n then 2 * (n - held) + 2 else 0
    case Committing => 1
    case Finished(_) => 0
  }

  function TotalRemaining(txs: seq<Tx>): nat {
    if txs == [] then 0 else TotalRemaining(txs[..|txs| - 1]) + Remaining(txs[|txs| - 1])
  }

  lemma {:induction false} TotalAfterUpdate(txs: seq<Tx>, i: nat, tx: Tx)
    requires i < |txs|
    ensures TotalRemaining(txs[i := tx]) == TotalRemaining(txs) - Remaining(txs[i]) + Remaining(tx)
  {
    hide Remaining;
    var n := |txs| - 1;
    if i == n {
      assert txs[i := tx][..n] == txs[..n];
    } else {
      assert txs[i := tx][..n] == txs[..n][i := tx];
      TotalAfterUpdate(txs[..n], i, tx);
    }
  }

  lemma StepDecreases(s: State, i: nat)
    requires Enabled(s, Step(i))
    ensures |Next(s, Step(i)).txs| == |s.txs|
    ensures TotalRemaining(Next(s, Step(i)).txs) < TotalRemaining(s.txs)
  {
    hide LockPlan, Opens, CheckFails, Commit, TotalRemaining, Released;
    var tx' := Next(s, Step(i)).txs[i];
    assert Next(s, Step(i)).txs == s.txs[i := tx'];
    TotalAfterUpdate(s.txs, i, tx');
  }

  predicate OnlySteps(actions: seq<Action>) {
    forall k | 0 <= k < |actions| :: actions[k].Step?
  }

  /** However transactions are scheduled, they take at most the remaining steps: no livelock. */
  lemma {:induction false} SchedulesAreShort(s: State, actions: seq<Action>)
    requires OnlySteps(actions) && Run(s, actions).Some?
    ensures |actions| + TotalRemaining(Run(s, actions).value.txs) <= TotalRemaining(s.txs)
    decreases |actions|
  {
    hide TotalRemaining, Next, Enabled;
    if actions != [] {
      StepDecreases(s, actions[0].tx);
      SchedulesAreShort(Next(s, actions[0]), actions[1..]);
    }
  }

  ghost predicate AllFinished(s: State) {
    forall i | 0 <= i < |s.txs| :: s.txs[i].phase.Finished?
  }

  /** From any reachable state some schedule finishes every transaction, without an abort. */
  lemma {:induction false} FinishAll(s: State) returns (schedule: seq<Action>)
    requires Inv(s)
    ensures OnlySteps(schedule) && Run(s, schedule).Some? && AllFinished(Run(s, schedule).value)
    decreases TotalRemaining(s.txs)
  {
    hide Inv, TotalRemaining, Next, Enabled, PhaseOk, LockPlan;
    if AllFinished(s) {
      schedule := [];
    } else {
      var w :| 0 <= w < |s.txs| && !s.txs[w].phase.Finished?;
      var i := ChaseBlockers(s, w, {});
      NextKeepsInv(s, Step(i));
      StepDecreases(s, i);
      var rest := FinishAll(Next(s, Step(i)));
      schedule := [Step(i)] + rest;
      assert schedule[1..] == rest;
    }
  }

  /** Whatever has happened so far, all open transactions can finish, and every schedule of
      their steps that cannot be extended has finished them all. */
  lemma EveryoneFinishes(actions: seq<Action>, schedule: seq<Action>)
    requires Run(START, actions).Some? && OnlySteps(schedule) && Run(Run(START, actions).value, schedule).Some?
    requires forall i :: !Enabled(Run(Run(START, actions).value, schedule).value, Step(i))
    ensures AllFinished(Run(Run(START, actions).value, schedule).value)
    ensures |schedule| <= TotalRemaining(Run(START, actions).value.txs)
  {
    hide Inv, Run, Enabled, TotalRemaining, PhaseOk, LockPlan;
    StartIsGood();
    RunKeepsInv(START, actions);
    var s := Run(START, actions).value;
    RunKeepsInv(s, schedule);
    SchedulesAreShort(s, schedule);
    var t := Run(s, schedule).value;
    if !AllFinished(t) {
      var w :| 0 <= w < |t.txs| && !t.txs[w].phase.Finished?;
      var i := ChaseBlockers(t, w, {});
    }
  }
}
