/** Single-writer execution domains (crates/core/src/db.rs). A writer borrows a pooled session only
    to hold its advisory lock; it queries through the pool, so it outlives a lost lock session. */
module Domains {
  import opened Common
  import opened Text

  /** The three cores that open a domain; the core does not take part in the lock name. */
  datatype Core = PaperWriter | OrderWriter | ExecutionWriter

  /** A server session: idle in its pool, lent to a writer, on its way back to the pool from a
      writer that had locked and not unlocked it or from any other, or ended. */
  datatype Session = Idle | Lent(writer: nat) | Returning(writer: nat, locked: bool) | Ended

  datatype Stage = Acquiring | Live | Unlocked | Gone

  datatype Writer = Writer(core: Core, account: string, instrument: string, session: nat, stage: Stage)

  /** All sessions of all processes, all writers ever, and the database-wide lock table. */
  datatype World = World(sessions: seq<Session>, writers: seq<Writer>, locks: map<string, nat>)

  datatype Action =
    | Connect(core: Core, account: string, instrument: string)
    | Checkout(session: nat, core: Core, account: string, instrument: string)
    | TryLock(writer: nat)
    | UnlockAll(writer: nat)
    | Drop(writer: nat)
    | AfterRelease(session: nat)
    | BackendLost(session: nat)

  const EMPTY_WORLD := World([], [], map[])

  predicate Enabled(s: World, a: Action) {
    match a
    case Connect(_, account, instrument) => ValidId(account) && ValidId(instrument)
    case Checkout(i, _, account, instrument) =>
      ValidId(account) && ValidId(instrument) && i < |s.sessions| && s.sessions[i].Idle?
    case TryLock(w) => w < |s.writers| && s.writers[w].stage.Acquiring? && s.writers[w].session < |s.sessions|
    case UnlockAll(w) => w < |s.writers| && s.writers[w].stage.Live? && s.writers[w].session < |s.sessions|
    case Drop(w) => w < |s.writers| && !s.writers[w].stage.Gone? && s.writers[w].session < |s.sessions|
    case AfterRelease(i) => i < |s.sessions| && s.sessions[i].Returning?
    case BackendLost(i) => i < |s.sessions| && !s.sessions[i].Ended?
  }

  function Name(account: string, instrument: string): string {
    LockName(DomainLock(account, instrument))
  }

  /** The server forgets every lock of one session. */
  function Forget(locks: map<string, nat>, i: nat): map<string, nat> {
    map n | n in locks && locks[n] != i :: locks[n]
  }

  /** The writer's lock session has ended. */
  predicate Lost(s: World, w: nat)
    requires w < |s.writers|
  {
    s.writers[w].session < |s.sessions| && s.sessions[s.writers[w].session].Ended?
  }

  function Staged(s: World, w: nat, stage: Stage): seq<Writer>
    requires w < |s.writers|
  {
    s.writers[w := s.writers[w].(stage := stage)]
  }

  function Step(s: World, a: Action): World
    requires Enabled(s, a)
  {
    match a
    case Connect(core, account, instrument) =>
      World(s.sessions + [Lent(|s.writers|)], s.writers + [Writer(core, account, instrument, |s.sessions|, Acquiring)], s.locks)
    case Checkout(i, core, account, instrument) =>
      World(s.sessions[i := Lent(|s.writers|)], s.writers + [Writer(core, account, instrument, i, Acquiring)], s.locks)
    case TryLock(w) =>
      var i := s.writers[w].session;
      var n := Name(s.writers[w].account, s.writers[w].instrument);
      // A broken session fails the attempt; session locks are re-entrant, so only another
      // session's hold refuses it.
      if s.sessions[i].Ended? then s.(writers := Staged(s, w, Gone))
      else if n in s.locks && s.locks[n] != i then
        World(s.sessions[i := Returning(w, false)], Staged(s, w, Gone), s.locks)
      else World(s.sessions, Staged(s, w, Live), s.locks[n := i])
    case UnlockAll(w) =>
      // The unlock's own failure is ignored.
      World(s.sessions, Staged(s, w, Unlocked), Forget(s.locks, s.writers[w].session))
    case Drop(w) =>
      // A writer dropped on an error path skips the explicit unlock.
      var i := s.writers[w].session;
      World(if s.sessions[i].Ended? then s.sessions else s.sessions[i := Returning(w, s.writers[w].stage.Live?)],
            Staged(s, w, Gone), s.locks)
    case AfterRelease(i) => World(s.sessions[i := Idle], s.writers, Forget(s.locks, i))
    // A killed backend or a failing release hook ends the session; a writer using it lives on.
    case BackendLost(i) => World(s.sessions[i := Ended], s.writers, Forget(s.locks, i))
  }

  function Run(s: World, actions: seq<Action>): Option<World>
    decreases |actions|
  {
    if actions == [] then Some(s)
    else if !Enabled(s, actions[0]) then None
    else Run(Step(s, actions[0]), actions[1..])
  }

  // ---------------------------------------------------------------- invariant

  /** A writer that is not gone has its session, lent to it or ended, and conversely. */
  ghost predicate SessionsMatch(sessions: seq<Session>, writers: seq<Writer>) {
    && (forall w | 0 <= w < |writers| :: ValidId(writers[w].account) && ValidId(writers[w].instrument))
    && (forall w | 0 <= w < |writers| && !writers[w].stage.Gone? ::
          writers[w].session < |sessions| && (sessions[writers[w].session] == Lent(w) || sessions[writers[w].session].Ended?))
    && (forall i | 0 <= i < |sessions| && sessions[i].Lent? ::
          sessions[i].writer < |writers| && writers[sessions[i].writer].session == i && !writers[sessions[i].writer].stage.Gone?)
    && (forall i | 0 <= i < |sessions| && sessions[i].Returning? :: sessions[i].writer < |writers|)
  }

  /** Session `i` holds the lock of its writer's domain: the writer is live, or was when dropped. */
  predicate Holder(sessions: seq<Session>, writers: seq<Writer>, i: nat, w: nat)
    requires i < |sessions| && w < |writers|
  {
    (sessions[i] == Lent(w) && writers[w].stage.Live?) || sessions[i] == Returning(w, true)
  }

  /** The lock table holds exactly the names of the holders' domains. */
  ghost predicate LocksMatch(s: World) {
    && (forall n | n in s.locks ::
          && s.locks[n] < |s.sessions|
          && exists w | 0 <= w < |s.writers| ::
               Holder(s.sessions, s.writers, s.locks[n], w) && n == Name(s.writers[w].account, s.writers[w].instrument))
    && (forall i, w | 0 <= i < |s.sessions| && 0 <= w < |s.writers| && Holder(s.sessions, s.writers, i, w) ::
          && Name(s.writers[w].account, s.writers[w].instrument) in s.locks
          && s.locks[Name(s.writers[w].account, s.writers[w].instrument)] == i)
  }

  ghost predicate Inv(s: World) {
    SessionsMatch(s.sessions, s.writers) && LocksMatch(s)
  }

  predicate Borrows(a: Action) { a.Connect? || a.Checkout? }

  lemma BorrowKeepsSessions(s: World, a: Action)
    requires SessionsMatch(s.sessions, s.writers) && Enabled(s, a) && Borrows(a)
    ensures SessionsMatch(Step(s, a).sessions, Step(s, a).writers)
  {
    hide ValidId, Name, Forget;
  }

  lemma WriterKeepsSessions(s: World, a: Action)
    requires SessionsMatch(s.sessions, s.writers) && Enabled(s, a) && (a.TryLock? || a.UnlockAll? || a.Drop?)
    ensures SessionsMatch(Step(s, a).sessions, Step(s, a).writers)
  {
    hide ValidId, Name, Forget;
  }

  lemma ServerKeepsSessions(s: World, a: Action)
    requires SessionsMatch(s.sessions, s.writers) && Enabled(s, a) && (a.AfterRelease? || a.BackendLost?)
    ensures SessionsMatch(Step(s, a).sessions, Step(s, a).writers)
  {
    hide ValidId, Name, Forget;
  }

  lemma StepKeepsSessions(s: World, a: Action)
    requires SessionsMatch(s.sessions, s.writers) && Enabled(s, a)
    ensures SessionsMatch(Step(s, a).sessions, Step(s, a).writers)
  {
    hide Enabled, Step, SessionsMatch;
    if Borrows(a) {
      BorrowKeepsSessions(s, a);
    } else if a.AfterRelease? || a.BackendLost? {
      ServerKeepsSessions(s, a);
    } else {
      WriterKeepsSessions(s, a);
    }
  }

  lemma OldLockKeepsHolder(s: World, a: Action, n: string)
    requires Inv(s) && Enabled(s, a) && n in s.locks && n in Step(s, a).locks && Step(s, a).locks[n] == s.locks[n]
    ensures var t := Step(s, a);
            && t.locks[n] < |t.sessions|
            && exists w | 0 <= w < |t.writers| ::
                 Holder(t.sessions, t.writers, t.locks[n], w) && n == Name(t.writers[w].account, t.writers[w].instrument)
  {
    hide ValidId, Name;
    var t := Step(s, a);
    var w :| 0 <= w < |s.writers| && Holder(s.sessions, s.writers, s.locks[n], w)
             && n == Name(s.writers[w].account, s.writers[w].instrument);
    assert Holder(t.sessions, t.writers, t.locks[n], w);
  }

  /** Every lock left by a step has a holder. */
  lemma LocksHaveHolders(s: World, a: Action, n: string)
    requires Inv(s) && Enabled(s, a) && n in Step(s, a).locks
    ensures var t := Step(s, a);
            && t.locks[n] < |t.sessions|
            && exists w | 0 <= w < |t.writers| ::
                 Holder(t.sessions, t.writers, t.locks[n], w) && n == Name(t.writers[w].account, t.writers[w].instrument)
  {
    hide ValidId, Name;
    var t := Step(s, a);
    if n in s.locks && t.locks[n] == s.locks[n] {
      OldLockKeepsHolder(s, a, n);
    } else {
      assert Holder(t.sessions, t.writers, t.locks[n], a.writer);
    }
  }

  /** Every holder left by a step has its domain's lock. */
  lemma HoldersHaveLocks(s: World, a: Action, i: nat, w: nat)
    requires Inv(s) && Enabled(s, a)
    requires var t := Step(s, a); i < |t.sessions| && w < |t.writers| && Holder(t.sessions, t.writers, i, w)
    ensures var t := Step(s, a);
            var n := Name(t.writers[w].account, t.writers[w].instrument);
            n in t.locks && t.locks[n] == i
  {
    hide ValidId, Name;
    assert i < |s.sessions| && w < |s.writers|;
    if !Holder(s.sessions, s.writers, i, w) {
      assert a == TryLock(w);
    }
  }

  lemma StepKeepsLocks(s: World, a: Action)
    requires Inv(s) && Enabled(s, a)
    ensures LocksMatch(Step(s, a))
  {
    hide Name, Step, Enabled, Inv, Holder;
    var t := Step(s, a);
    forall n | n in t.locks
      ensures t.locks[n] < |t.sessions|
      ensures exists w | 0 <= w < |t.writers| ::
                Holder(t.sessions, t.writers, t.locks[n], w) && n == Name(t.writers[w].account, t.writers[w].instrument)
    {
      LocksHaveHolders(s, a, n);
    }
    forall i, w | 0 <= i < |t.sessions| && 0 <= w < |t.writers| && Holder(t.sessions, t.writers, i, w)
      ensures Name(t.writers[w].account, t.writers[w].instrument) in t.locks
      ensures t.locks[Name(t.writers[w].account, t.writers[w].instrument)] == i
    {
      HoldersHaveLocks(s, a, i, w);
    }
  }

  lemma StepKeepsInv(s: World, a: Action)
    requires Inv(s) && Enabled(s, a)
    ensures Inv(Step(s, a))
  {
    hide SessionsMatch, LocksMatch, Enabled, Step;
    StepKeepsSessions(s, a);
    StepKeepsLocks(s, a);
  }

  lemma {:induction false} RunKeepsInv(s: World, actions: seq<Action>)
    requires Inv(s) && Run(s, actions).Some?
    ensures Inv(Run(s, actions).value)
    decreases |actions|
  {
    hide Inv, Enabled, Step;
    if actions != [] {
      StepKeepsInv(s, actions[0]);
      RunKeepsInv(Step(s, actions[0]), actions[1..]);
    }
  }

  lemma EmptyIsGood()
    ensures Inv(EMPTY_WORLD)
  {
  }

  // ---------------------------------------------------------------- single writers

  predicate LiveOn(s: World, w: nat, account: string, instrument: string) {
    w < |s.writers| && s.writers[w].stage.Live? && s.writers[w].account == account && s.writers[w].instrument == instrument
  }

  /** Two live writers of one domain. */
  ghost predicate Shared(s: World, account: string, instrument: string) {
    exists v, w :: v != w && LiveOn(s, v, account, instrument) && LiveOn(s, w, account, instrument)
  }

  /** A live writer of the domain has lost its lock session. */
  ghost predicate Exposed(s: World, account: string, instrument: string) {
    exists w :: LiveOn(s, w, account, instrument) && Lost(s, w)
  }

  lemma NameInjective(a: string, i: string, b: string, j: string)
    requires ValidId(a) && ValidId(i) && ValidId(b) && ValidId(j) && Name(a, i) == Name(b, j)
    ensures a == b && i == j
  {
    LockNamesInjective(DomainLock(a, i), DomainLock(b, j));
  }

  lemma OneHolderPerDomain(s: World, v: nat, w: nat)
    requires Inv(s) && v < |s.writers| && w < |s.writers| && v != w && s.writers[v].stage.Live? && s.writers[w].stage.Live?
    requires s.writers[v].account == s.writers[w].account && s.writers[v].instrument == s.writers[w].instrument
    ensures Lost(s, v) || Lost(s, w)
  {
    hide ValidId, Name;
    var i, j := s.writers[v].session, s.writers[w].session;
    assert !Lost(s, v) ==> Holder(s.sessions, s.writers, i, v);
    assert !Lost(s, w) ==> Holder(s.sessions, s.writers, j, w);
  }

  /** In every run, of two live writers on one account and instrument, whatever cores they belong
      to, at least one has lost its lock session; and only the session of a live writer, or of one
      dropped unlocked and not yet released, holds a lock, and only that of its own domain. */
  lemma SingleWriterPerDomain(actions: seq<Action>, v: nat, w: nat, i: nat, n: string)
    requires Run(EMPTY_WORLD, actions).Some?
    requires var s := Run(EMPTY_WORLD, actions).value; v < |s.writers| && w < |s.writers| && i < |s.sessions|
    ensures var s := Run(EMPTY_WORLD, actions).value;
            && v != w && s.writers[v].stage.Live? && s.writers[w].stage.Live?
            && s.writers[v].account == s.writers[w].account && s.writers[v].instrument == s.writers[w].instrument ==>
              Lost(s, v) || Lost(s, w)
    ensures var s := Run(EMPTY_WORLD, actions).value;
            n in s.locks && s.locks[n] == i ==>
              && !s.sessions[i].Idle? && !s.sessions[i].Ended?
              && exists h | 0 <= h < |s.writers| ::
                   Holder(s.sessions, s.writers, i, h) && n == Name(s.writers[h].account, s.writers[h].instrument)
  {
    hide Run, Name, SessionsMatch;
    EmptyIsGood();
    RunKeepsInv(EMPTY_WORLD, actions);
    var s := Run(EMPTY_WORLD, actions).value;
    if v != w && s.writers[v].stage.Live? && s.writers[w].stage.Live?
       && s.writers[v].account == s.writers[w].account && s.writers[v].instrument == s.writers[w].instrument {
      OneHolderPerDomain(s, v, w);
    }
  }

  predicate LosesNothing(actions: seq<Action>) {
    forall k | 0 <= k < |actions| :: !actions[k].BackendLost?
  }

  /** Without further losses, whoever is exposed at the end was exposed before. */
  lemma {:induction false} ExposureIsOld(s: World, actions: seq<Action>, w: nat, account: string, instrument: string)
    requires Inv(s) && Run(s, actions).Some? && LosesNothing(actions)
    requires LiveOn(Run(s, actions).value, w, account, instrument) && Lost(Run(s, actions).value, w)
    ensures LiveOn(s, w, account, instrument) && Lost(s, w)
    decreases |actions|
  {
    hide Inv, ValidId, Name;
    if actions != [] {
      StepKeepsInv(s, actions[0]);
      ExposureIsOld(Step(s, actions[0]), actions[1..], w, account, instrument);
      ExposureIsOlder(s, actions[0], w, account, instrument);
    }
  }

  lemma ExposureIsOlder(s: World, a: Action, w: nat, account: string, instrument: string)
    requires Inv(s) && Enabled(s, a) && !a.BackendLost?
    requires LiveOn(Step(s, a), w, account, instrument) && Lost(Step(s, a), w)
    ensures LiveOn(s, w, account, instrument) && Lost(s, w)
  {
    hide ValidId, Name, LocksMatch;
  }

  /** An acquisition succeeds exactly when its own session is alive and the domain's lock is held
      neither by a live writer that has its session nor by one dropped while it had it: distinct
      domains never block each other. */
  lemma RefusalMeansSameDomain(actions: seq<Action>, w: nat)
    requires Run(EMPTY_WORLD, actions).Some? && Enabled(Run(EMPTY_WORLD, actions).value, TryLock(w))
    ensures var s := Run(EMPTY_WORLD, actions).value;
            var me := s.writers[w];
            Step(s, TryLock(w)).writers[w].stage.Live? <==>
              && !Lost(s, w)
              && forall i, v | 0 <= i < |s.sessions| && 0 <= v < |s.writers| && Holder(s.sessions, s.writers, i, v) ::
                   s.writers[v].account != me.account || s.writers[v].instrument != me.instrument
  {
    hide Run;
    EmptyIsGood();
    RunKeepsInv(EMPTY_WORLD, actions);
    AcquiresExactlyWhenFree(Run(EMPTY_WORLD, actions).value, w);
  }

  lemma AcquiresExactlyWhenFree(s: World, w: nat)
    requires Inv(s) && Enabled(s, TryLock(w))
    ensures var me := s.writers[w];
            Step(s, TryLock(w)).writers[w].stage.Live? <==>
              && !Lost(s, w)
              && forall i, v | 0 <= i < |s.sessions| && 0 <= v < |s.writers| && Holder(s.sessions, s.writers, i, v) ::
                   s.writers[v].account != me.account || s.writers[v].instrument != me.instrument
  {
    hide ValidId, Name;
    var me := s.writers[w];
    var n := Name(me.account, me.instrument);
    if n in s.locks {
      var v :| 0 <= v < |s.writers| && Holder(s.sessions, s.writers, s.locks[n], v)
               && n == Name(s.writers[v].account, s.writers[v].instrument);
      NameInjective(me.account, me.instrument, s.writers[v].account, s.writers[v].instrument);
    }
  }

  /** The actions by which a further writer takes an exposed domain. */
  lemma ExposedCanBeShared(s: World, account: string, instrument: string) returns (more: seq<Action>)
    requires Inv(s) && ValidId(account) && ValidId(instrument) && Exposed(s, account, instrument)
    ensures LosesNothing(more) && Run(s, more).Some? && Shared(Run(s, more).value, account, instrument)
  {
    hide ValidId, Name, Run, Enabled, Step, Inv;
    var w :| LiveOn(s, w, account, instrument) && Lost(s, w);
    if j :| j != w && LiveOn(s, j, account, instrument) {
      more := [];
      assert Run(s, more) == Some(s) by { RunEnds(s); }
    } else if i, v :| 0 <= i < |s.sessions| && 0 <= v < |s.writers| && Holder(s.sessions, s.writers, i, v)
                      && s.writers[v].account == account && s.writers[v].instrument == instrument {
      DroppedHolderReturns(s, i, v, w, account, instrument);
      var t := Step(s, AfterRelease(i));
      StepKeepsInv(s, AfterRelease(i));
      FreeDomainIsTaken(t, w, account, instrument);
      more := [AfterRelease(i)] + [Connect(OrderWriter, account, instrument), TryLock(|t.writers|)];
      RunCons(s, AfterRelease(i), [Connect(OrderWriter, account, instrument), TryLock(|t.writers|)]);
    } else {
      FreeDomainIsTaken(s, w, account, instrument);
      more := [Connect(OrderWriter, account, instrument), TryLock(|s.writers|)];
    }
  }

  lemma RunEnds(s: World)
    ensures Run(s, []) == Some(s)
  {
  }

  lemma RunCons(s: World, a: Action, rest: seq<Action>)
    requires Enabled(s, a)
    ensures Run(s, [a] + rest) == Run(Step(s, a), rest)
  {
    hide Enabled, Step;
    assert ([a] + rest)[1..] == rest;
  }

  /** A holder that is not a live writer of the domain is a session on its way back, and releasing
      it frees the domain. */
  lemma DroppedHolderReturns(s: World, i: nat, v: nat, w: nat, account: string, instrument: string)
    requires Inv(s) && LiveOn(s, w, account, instrument) && Lost(s, w)
    requires forall j | j != w :: !LiveOn(s, j, account, instrument)
    requires i < |s.sessions| && v < |s.writers| && Holder(s.sessions, s.writers, i, v)
    requires s.writers[v].account == account && s.writers[v].instrument == instrument
    ensures Enabled(s, AfterRelease(i))
    ensures var t := Step(s, AfterRelease(i));
            && LiveOn(t, w, account, instrument)
            && forall k, u | 0 <= k < |t.sessions| && 0 <= u < |t.writers| && Holder(t.sessions, t.writers, k, u) ::
                 t.writers[u].account != account || t.writers[u].instrument != instrument
  {
    hide ValidId, Name;
    assert v != w ==> !LiveOn(s, v, account, instrument);
    assert s.sessions[i] == Returning(v, true);
    var t := Step(s, AfterRelease(i));
    forall k, u | 0 <= k < |t.sessions| && 0 <= u < |t.writers| && Holder(t.sessions, t.writers, k, u)
      ensures t.writers[u].account != account || t.writers[u].instrument != instrument
    {
      assert Holder(s.sessions, s.writers, k, u);
    }
  }

  lemma ConnectingAddsNoHolder(s: World, core: Core, account: string, instrument: string, i: nat, w: nat)
    requires Inv(s) && Enabled(s, Connect(core, account, instrument))
    requires var t := Step(s, Connect(core, account, instrument));
             i < |t.sessions| && w < |t.writers| && Holder(t.sessions, t.writers, i, w)
    ensures i < |s.sessions| && w < |s.writers| && Holder(s.sessions, s.writers, i, w)
    ensures Step(s, Connect(core, account, instrument)).writers[w] == s.writers[w]
  {
    hide ValidId, LocksMatch;
  }

  lemma FreeDomainIsTaken(s: World, w: nat, account: string, instrument: string)
    requires Inv(s) && ValidId(account) && ValidId(instrument) && LiveOn(s, w, account, instrument)
    requires forall k, u | 0 <= k < |s.sessions| && 0 <= u < |s.writers| && Holder(s.sessions, s.writers, k, u) ::
               s.writers[u].account != account || s.writers[u].instrument != instrument
    ensures var more := [Connect(OrderWriter, account, instrument), TryLock(|s.writers|)];
            Run(s, more).Some? && Shared(Run(s, more).value, account, instrument)
  {
    hide ValidId, Name, Inv;
    var first, second := Connect(OrderWriter, account, instrument), TryLock(|s.writers|);
    var t := Step(s, first);
    StepKeepsInv(s, first);
    forall k, u | 0 <= k < |t.sessions| && 0 <= u < |t.writers| && Holder(t.sessions, t.writers, k, u)
      ensures t.writers[u].account != account || t.writers[u].instrument != instrument
    {
      ConnectingAddsNoHolder(s, OrderWriter, account, instrument, k, u);
    }
    AcquiresExactlyWhenFree(t, |s.writers|);
    var u := Step(t, second);
    RunCons(s, first, [second]);
    RunCons(t, second, []);
    assert [first] + [second] == [first, second] && [second] + [] == [second];
    assert LiveOn(u, w, account, instrument) && LiveOn(u, |s.writers|, account, instrument);
  }

  /** For every run and every domain: without any further loss of a session, the domain can come
      to have two live writers if and only if one of its live writers has already lost its lock
      session. */
  lemma SharedExactlyAfterLoss(actions: seq<Action>, account: string, instrument: string)
    requires Run(EMPTY_WORLD, actions).Some? && ValidId(account) && ValidId(instrument)
    ensures var s := Run(EMPTY_WORLD, actions).value;
            (exists more :: LosesNothing(more) && Run(s, more).Some? && Shared(Run(s, more).value, account, instrument))
            <==> Exposed(s, account, instrument)
  {
    hide Run, Inv, Shared, LosesNothing;
    EmptyIsGood();
    RunKeepsInv(EMPTY_WORLD, actions);
    var s := Run(EMPTY_WORLD, actions).value;
    if Exposed(s, account, instrument) {
      var more := ExposedCanBeShared(s, account, instrument);
    }
    if more :| LosesNothing(more) && Run(s, more).Some? && Shared(Run(s, more).value, account, instrument) {
      SharingNeedsLoss(s, more, account, instrument);
    }
  }

  lemma SharingNeedsLoss(s: World, more: seq<Action>, account: string, instrument: string)
    requires Inv(s) && LosesNothing(more) && Run(s, more).Some? && Shared(Run(s, more).value, account, instrument)
    ensures Exposed(s, account, instrument)
  {
    hide Run, Inv, LosesNothing;
    RunKeepsInv(s, more);
    var t := Run(s, more).value;
    var v, w :| v != w && LiveOn(t, v, account, instrument) && LiveOn(t, w, account, instrument);
    OneHolderPerDomain(t, v, w);
    var lost := if Lost(t, v) then v else w;
    ExposureIsOld(s, more, lost, account, instrument);
  }

  /** A run in which the first writer's lock session is lost and a second writer takes the domain
      while the first is still live. */
  lemma LostSessionAdmitsSecondWriter()
    ensures var run := [Connect(OrderWriter, "a", "i"), TryLock(0), BackendLost(0), Connect(OrderWriter, "a", "i"), TryLock(1)];
            && Run(EMPTY_WORLD, run).Some?
            && var s := Run(EMPTY_WORLD, run).value;
               s.writers == [Writer(OrderWriter, "a", "i", 0, Live), Writer(OrderWriter, "a", "i", 1, Live)]
               && Lost(s, 0) && !Lost(s, 1) && Shared(s, "a", "i")
  {
    hide ValidId, Name, Run;
    var n := Name("a", "i");
    var c, t0, b, t1 := Connect(OrderWriter, "a", "i"), TryLock(0), BackendLost(0), TryLock(1);
    FirstWriterLosesItsSession(n);
    SecondWriterIsAdmitted(n);
    hide Step;
    RunEnds(AfterSecond(n));
    RunCons(Acquired(true), t1, []);
    RunCons(LostLock(), c, [t1]);
    RunCons(Locked(n), b, [c, t1]);
    RunCons(Acquired(false), t0, [b, c, t1]);
    RunCons(EMPTY_WORLD, c, [t0, b, c, t1]);
    assert [t1] + [] == [t1] && [c] + [t1] == [c, t1] && [b] + [c, t1] == [b, c, t1] && [t0] + [b, c, t1] == [t0, b, c, t1];
    assert [c] + [t0, b, c, t1] == [c, t0, b, c, t1];
    assert LiveOn(AfterSecond(n), 0, "a", "i") && LiveOn(AfterSecond(n), 1, "a", "i");
  }

  function WitnessWriter(session: nat, stage: Stage): Writer { Writer(OrderWriter, "a", "i", session, stage) }

  function Acquired(again: bool): World {
    if again then World([Ended, Lent(1)], [WitnessWriter(0, Live), WitnessWriter(1, Acquiring)], map[])
    else World([Lent(0)], [WitnessWriter(0, Acquiring)], map[])
  }

  function Locked(n: string): World { World([Lent(0)], [WitnessWriter(0, Live)], map[n := 0]) }

  function LostLock(): World { World([Ended], [WitnessWriter(0, Live)], map[]) }

  function AfterSecond(n: string): World {
    World([Ended, Lent(1)], [WitnessWriter(0, Live), WitnessWriter(1, Live)], map[n := 1])
  }

  lemma WitnessNamesAreValid()
    ensures ValidId("a") && ValidId("i")
  {
    hide Trim;
    ValidIdMeans("a");
    ValidIdMeans("i");
  }

  lemma FirstWriterLosesItsSession(n: string)
    requires n == Name("a", "i")
    ensures Enabled(EMPTY_WORLD, Connect(OrderWriter, "a", "i")) && Step(EMPTY_WORLD, Connect(OrderWriter, "a", "i")) == Acquired(false)
    ensures Enabled(Acquired(false), TryLock(0)) && Step(Acquired(false), TryLock(0)) == Locked(n)
    ensures Enabled(Locked(n), BackendLost(0)) && Step(Locked(n), BackendLost(0)) == LostLock()
  {
    hide ValidId, Name;
    WitnessNamesAreValid();
  }

  lemma SecondWriterIsAdmitted(n: string)
    requires n == Name("a", "i")
    ensures Enabled(LostLock(), Connect(OrderWriter, "a", "i")) && Step(LostLock(), Connect(OrderWriter, "a", "i")) == Acquired(true)
    ensures Enabled(Acquired(true), TryLock(1)) && Step(Acquired(true), TryLock(1)) == AfterSecond(n)
  {
    hide ValidId, Name;
    WitnessNamesAreValid();
  }
}
