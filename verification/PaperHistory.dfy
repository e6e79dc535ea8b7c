/** Serial histories of reservation and balance calls: soundness, idempotent retries and the
    permanence of plans (crates/core/src/paper.rs). */
module PaperHistory {
  import opened Common
  import opened Sorting
  import opened PaperRequest
  import opened PaperStore

  /** Calls executed one after the other: the final tables and all the answers. */
  function ServeAll(s: Store, calls: seq<Call>): (r: (Store, seq<Outcome>))
    ensures |r.1| == |calls|
  {
    if calls == [] then (s, [])
    else
      var n := |calls| - 1;
      var earlier := ServeAll(s, calls[..n]);
      var last := Serve(earlier.0, calls[n]);
      (last.0, earlier.1 + [last.1])
  }

  lemma {:induction false} ServeAllKeepsSound(s: Store, calls: seq<Call>)
    requires Sound(s)
    ensures Sound(ServeAll(s, calls).0)
  {
    hide Sound, Serve;
    if calls != [] {
      var n := |calls| - 1;
      ServeAllKeepsSound(s, calls[..n]);
      ServeKeepsSound(ServeAll(s, calls[..n]).0, calls[n]);
    }
  }

  lemma EmptyIsSound()
    ensures Sound(EMPTY_STORE)
  {
  }

  /** Request `r` owns plan `p`, which stores exactly its lines and intents. */
  ghost predicate Bound(s: Store, r: ReservePlanRequest, p: string) {
    && r.requestId in s.requests && s.requests[r.requestId] == p
    && p in s.plans && s.plans[p].digest == Canonical(r)
  }

  lemma ReservedIsBound(s: Store, c: Call)
    requires c.ReserveCall? && Serve(s, c).1.Reserved?
    ensures ValidRequest(c.request, c.account, c.instrument)
    ensures c.request.requestId !in s.requests && Bound(Serve(s, c).0, c.request, Serve(s, c).1.planId)
  {
    hide ValidRequest, FirstRefusal, Conflicts, Debited, Canonical;
  }

  lemma ServeKeepsBound(s: Store, c: Call, r: ReservePlanRequest, p: string)
    requires Bound(s, r, p)
    ensures Bound(Serve(s, c).0, r, p)
  {
    hide ValidRequest, FirstRefusal, Debited, Canonical, LineStored, IntentStored, DomainBusy, GoodObservation, HasRows;
  }

  lemma {:induction false} BoundForever(s: Store, calls: seq<Call>, r: ReservePlanRequest, p: string)
    requires Bound(s, r, p)
    ensures Bound(ServeAll(s, calls).0, r, p)
  {
    hide Bound, Serve;
    if calls != [] {
      var n := |calls| - 1;
      BoundForever(s, calls[..n], r, p);
      ServeKeepsBound(ServeAll(s, calls[..n]).0, calls[n], r, p);
    }
  }

  lemma {:induction false} ServeAllSplits(s: Store, a: seq<Call>, b: seq<Call>)
    ensures ServeAll(s, a + b).0 == ServeAll(ServeAll(s, a).0, b).0
    ensures ServeAll(s, a + b).1 == ServeAll(s, a).1 + ServeAll(ServeAll(s, a).0, b).1
  {
    hide Serve;
    if b == [] {
      assert a + b == a;
    } else {
      var n := |b| - 1;
      assert (a + b)[..|a + b| - 1] == a + b[..n];
      ServeAllSplits(s, a, b[..n]);
    }
  }

  lemma OutcomeAt(s: Store, calls: seq<Call>, i: nat)
    requires i < |calls|
    ensures ServeAll(s, calls).1[i] == Serve(ServeAll(s, calls[..i]).0, calls[i]).1
  {
    hide Serve;
    assert calls == calls[..i + 1] + calls[i + 1..];
    ServeAllSplits(s, calls[..i + 1], calls[i + 1..]);
    assert calls[..i + 1][..i] == calls[..i];
  }

  /** A plan, once reserved, stays bound to its request whatever is called afterwards. */
  lemma ReservedStaysBound(s: Store, calls: seq<Call>, i: nat, j: nat)
    requires i < j <= |calls| && calls[i].ReserveCall? && ServeAll(s, calls).1[i].Reserved?
    ensures Bound(ServeAll(s, calls[..j]).0, calls[i].request, ServeAll(s, calls).1[i].planId)
    ensures ValidRequest(calls[i].request, calls[i].account, calls[i].instrument)
  {
    hide Serve, Bound, ServeAll, ValidRequest;
    OutcomeAt(s, calls, i);
    StepOf(s, calls, i);
    var before := ServeAll(s, calls[..i]).0;
    ReservedIsBound(before, calls[i]);
    SuffixKeepsBound(s, calls, i + 1, j, calls[i].request, Serve(before, calls[i]).1.planId);
  }

  lemma SuffixKeepsBound(s: Store, calls: seq<Call>, i: nat, j: nat, r: ReservePlanRequest, p: string)
    requires i <= j <= |calls| && Bound(ServeAll(s, calls[..i]).0, r, p)
    ensures Bound(ServeAll(s, calls[..j]).0, r, p)
  {
    hide Bound, ServeAll;
    assert calls[..j] == calls[..i] + calls[i..j];
    ServeAllSplits(s, calls[..i], calls[i..j]);
    BoundForever(ServeAll(s, calls[..i]).0, calls[i..j], r, p);
  }

  lemma StepOf(s: Store, calls: seq<Call>, i: nat)
    requires i < |calls|
    ensures ServeAll(s, calls[..i + 1]).0 == Serve(ServeAll(s, calls[..i]).0, calls[i]).0
  {
    assert calls[..i + 1][..i] == calls[..i];
  }

  /** Each request id reserves funds at most once. */
  lemma RequestReservesAtMostOnce(s: Store, calls: seq<Call>, i: nat, j: nat)
    requires i < j < |calls| && calls[i].ReserveCall? && calls[j].ReserveCall?
    requires ServeAll(s, calls).1[i].Reserved? && ServeAll(s, calls).1[j].Reserved?
    ensures calls[i].request.requestId != calls[j].request.requestId
  {
    hide Serve, ServeAll;
    ReservedStaysBound(s, calls, i, j);
    OutcomeAt(s, calls, j);
    ReservedIsBound(ServeAll(s, calls[..j]).0, calls[j]);
  }

  /** After any history, a retry under a request id that has reserved changes nothing. It is
      answered with the original plan exactly when it differs from the original request at most
      in order, and refused otherwise; the plan that is loaded for it has the scalars, lines and
      intents of the original request. */
  lemma RetryIsIdempotent(calls: seq<Call>, i: nat, retry: Call)
    requires i < |calls| && calls[i].ReserveCall? && ServeAll(EMPTY_STORE, calls).1[i].Reserved?
    requires retry.ReserveCall? && ValidRequest(retry.request, retry.account, retry.instrument) && retry.nowMs <= Common.I64_MAX
    requires retry.request.requestId == calls[i].request.requestId
    ensures var s := ServeAll(EMPTY_STORE, calls).0;
            var p := ServeAll(EMPTY_STORE, calls).1[i].planId;
            && Serve(s, retry) == (s, if SameUpToOrder(calls[i].request, retry.request) then Replayed(p) else Refused(RequestReused))
            && p in s.plans && RecoversRequest(Recovered(s, p), calls[i].request)
  {
    hide ValidRequest, ServeAll, Conflicts, FirstRefusal, Inserted, SameUpToOrder, Canonical, LinesOf, IntentsOf, Sound, RecoversRequest;
    var original := calls[i].request;
    assert calls[..|calls|] == calls;
    ReservedStaysBound(EMPTY_STORE, calls, i, |calls|);
    EmptyIsSound();
    ServeAllKeepsSound(EMPTY_STORE, calls);
    SameDomainAsRequest(original, calls[i].account, calls[i].instrument);
    SameDomainAsRequest(retry.request, retry.account, retry.instrument);
    CanonicalForgetsOrder(original, retry.request);
    BoundPlanIsRequest(ServeAll(EMPTY_STORE, calls).0, original, ServeAll(EMPTY_STORE, calls).1[i].planId);
  }

  lemma BoundPlanIsRequest(s: Store, r: ReservePlanRequest, p: string)
    requires Sound(s) && Bound(s, r, p)
    ensures RecoversRequest(Recovered(s, p), r)
  {
    hide FundsSound, LinesOf, IntentsOf, SortBy, RecordsSound;
    CanonicalKeepsContent(r);
    assert DigestFits(s.plans[p]) && s.plans[p].digest.planId == p;
  }

  lemma SameDomainAsRequest(r: ReservePlanRequest, account: string, instrument: string)
    requires ValidRequest(r, account, instrument)
    ensures r.accountId == account && r.instrumentId == instrument && ValidRequest(r, r.accountId, r.instrumentId)
  {
  }

  /** In every serial history, every balance stays within its bounds, its reserved part is the
      sum of the reservations held on it, and no two plans share a request or a domain. */
  lemma EveryHistoryIsSound(calls: seq<Call>)
    ensures var s := ServeAll(EMPTY_STORE, calls).0;
            && Sound(s)
            && (forall k | k in s.balances ::
                  && 0.0 <= s.balances[k].reserved <= s.balances[k].free <= s.balances[k].total
                  && s.balances[k].reserved == ReservedFor(s.reservations, k))
            && (forall p, q | p in s.plans && q in s.plans && p != q ::
                  && s.plans[p].requestId != s.plans[q].requestId
                  && (s.plans[p].account, s.plans[p].instrument) != (s.plans[q].account, s.plans[q].instrument))
  {
    hide ServeAll, RowsSound, ReservedFor;
    EmptyIsSound();
    ServeAllKeepsSound(EMPTY_STORE, calls);
  }

  // ---------------------------------------------------------------- funding before reserving

  /** With nothing in between, a reservation that follows its own two balance updates is never
      answered as a replay: the funds a bound request holds make one of the updates fail. */
  lemma ReplayNeverFollowsFunding(s: Store, first: Call, second: Call, reserve: Call)
    requires Sound(s) && first.BalanceCall? && second.BalanceCall? && reserve.ReserveCall?
    requires Serve(s, first).1 == BalanceStored
    requires var t := Serve(s, first).0; Serve(t, second).1 == BalanceStored
    requires exists i | 0 <= i < |reserve.request.reservations| ::
               var k := KeyOf(reserve.account, reserve.request.reservations[i]); k == first.key || k == second.key
    ensures var t := Serve(s, first).0;
            var u := Serve(t, second).0;
            !Serve(u, reserve).1.Replayed?
  {
    hide Sound, Serve, HasRows;
    var t := Serve(s, first).0;
    var u := Serve(t, second).0;
    ServeKeepsSound(s, first);
    ServeKeepsSound(t, second);
    FundedHasNoRows(s, first);
    FundedHasNoRows(t, second);
    if Serve(u, reserve).1.Replayed? {
      forall i | 0 <= i < |reserve.request.reservations|
        ensures HasRows(u.reservations, KeyOf(reserve.account, reserve.request.reservations[i]))
      {
        ReplayedIsBound(u, reserve);
        BoundHasRows(u, reserve.request, Serve(u, reserve).1.planId, i);
      }
    }
  }

  lemma FundedHasNoRows(s: Store, c: Call)
    requires c.BalanceCall? && Serve(s, c).1 == BalanceStored
    ensures !HasRows(s.reservations, c.key) && Serve(s, c).0.reservations == s.reservations
  {
    hide HasRows, GoodObservation;
  }

  /** A bound request holds funds on every balance its lines name. */
  lemma BoundHasRows(s: Store, r: ReservePlanRequest, p: string, i: nat)
    requires Sound(s) && Bound(s, r, p) && i < |r.reservations|
    ensures HasRows(s.reservations, KeyOf(r.accountId, r.reservations[i]))
  {
    hide SortBy, LinesOf, IntentsOf, FundsSound, RecordsSound;
    CanonicalKeepsContent(r);
    assert r.reservations[i] in multiset(r.reservations);
    StoredUnderPlan(s.reservations, p, r.reservations[i]);
    var k :| 0 <= k < |s.reservations| && s.reservations[k].planId == p && s.reservations[k].line == r.reservations[i];
    assert s.reservations[k].key == KeyOf(s.plans[p].account, r.reservations[i]);
  }

  lemma ReplayedIsBound(s: Store, c: Call)
    requires c.ReserveCall? && Serve(s, c).1.Replayed?
    ensures Bound(s, c.request, Serve(s, c).1.planId)
    ensures ValidRequest(c.request, c.account, c.instrument) && c.request.accountId == c.account
  {
    hide FirstRefusal, Conflicts, Inserted, Canonical, AllNamed;
  }

  /** The earlier call reserved the same request, up to order. */
  predicate ReservedTwin(calls: seq<Call>, answers: seq<Outcome>, e: nat, c: nat)
    requires e < |calls| && c < |calls| && |answers| == |calls|
  {
    calls[e].ReserveCall? && answers[e].Reserved? && calls[c].ReserveCall? && SameUpToOrder(calls[e].request, calls[c].request)
  }

  /** Every bound request id was bound by a call that reserved under it. */
  lemma {:induction false} BoundByReserve(calls: seq<Call>, requestId: string) returns (e: nat)
    requires requestId in ServeAll(EMPTY_STORE, calls).0.requests
    ensures e < |calls| && calls[e].ReserveCall? && calls[e].request.requestId == requestId && ServeAll(EMPTY_STORE, calls).1[e].Reserved?
  {
    hide Serve;
    var n := |calls| - 1;
    var before := ServeAll(EMPTY_STORE, calls[..n]).0;
    if requestId in before.requests {
      e := BoundByReserve(calls[..n], requestId);
    } else {
      OnlyReserveBinds(before, calls[n], requestId);
      e := n;
    }
  }

  lemma OnlyReserveBinds(s: Store, c: Call, requestId: string)
    requires requestId !in s.requests && requestId in Serve(s, c).0.requests
    ensures c.ReserveCall? && c.request.requestId == requestId && Serve(s, c).1.Reserved?
  {
    hide ValidRequest, FirstRefusal, Conflicts, Debited, Canonical;
  }

  /** A balance that could be replaced had no lines of a request reserved before. */
  lemma FundedBeforeReserved(calls: seq<Call>, e: nat, a: nat, i: nat)
    requires e < |calls| && a < |calls| && calls[e].ReserveCall? && calls[a].BalanceCall?
    requires ServeAll(EMPTY_STORE, calls).1[e].Reserved? && ServeAll(EMPTY_STORE, calls).1[a] == BalanceStored
    requires i < |calls[e].request.reservations| && KeyOf(calls[e].request.accountId, calls[e].request.reservations[i]) == calls[a].key
    ensures a < e
  {
    hide Serve, ServeAll, Bound, Sound, HasRows, ValidRequest;
    if e < a {
      ReservedStaysBound(EMPTY_STORE, calls, e, a);
      var s := ServeAll(EMPTY_STORE, calls[..a]).0;
      EmptyIsSound();
      ServeAllKeepsSound(EMPTY_STORE, calls[..a]);
      BoundHasRows(s, calls[e].request, ServeAll(EMPTY_STORE, calls).1[e].planId, i);
      OutcomeAt(EMPTY_STORE, calls, a);
      FundedHasNoRows(s, calls[a]);
    }
  }

  /** A request that has reserved answers its equal, up to order, as a replay of its plan. */
  lemma TwinIsReplayed(calls: seq<Call>, e: nat, c: nat)
    requires e < c < |calls| && ReservedTwin(calls, ServeAll(EMPTY_STORE, calls).1, e, c)
    requires ValidRequest(calls[c].request, calls[c].account, calls[c].instrument) && calls[c].nowMs <= Common.I64_MAX
    ensures ServeAll(EMPTY_STORE, calls).1[c] == Replayed(ServeAll(EMPTY_STORE, calls).1[e].planId)
  {
    hide Serve, ServeAll, ValidRequest, SameUpToOrder, RecoversRequest;
    var before := calls[..c];
    assert before[..e] == calls[..e];
    OutcomeAt(EMPTY_STORE, calls, e);
    OutcomeAt(EMPTY_STORE, before, e);
    OutcomeAt(EMPTY_STORE, calls, c);
    TwinsShareRequest(calls[e].request, calls[c].request);
    RetryIsIdempotent(before, e, calls[c]);
  }

  lemma TwinsShareRequest(a: ReservePlanRequest, b: ReservePlanRequest)
    requires SameUpToOrder(a, b)
    ensures a.requestId == b.requestId && a.accountId == b.accountId && multiset(a.reservations) == multiset(b.reservations)
  {
  }

  /** In every history: a reservation made after a balance update of its own is answered as a
      replay if and only if another call reserved the same request, up to order, after that
      update and before it; and the replay then names that call's plan. */
  lemma ReplayExactlyAfterTwin(calls: seq<Call>, a: nat, c: nat, i: nat)
    requires a < c < |calls| && calls[a].BalanceCall? && ServeAll(EMPTY_STORE, calls).1[a] == BalanceStored
    requires calls[c].ReserveCall? && i < |calls[c].request.reservations|
    requires ValidRequest(calls[c].request, calls[c].account, calls[c].instrument) && calls[c].nowMs <= Common.I64_MAX
    requires KeyOf(calls[c].request.accountId, calls[c].request.reservations[i]) == calls[a].key
    ensures var answers := ServeAll(EMPTY_STORE, calls).1;
            && (answers[c].Replayed? <==> exists e | a < e < c :: ReservedTwin(calls, answers, e, c))
            && (forall e | a < e < c && ReservedTwin(calls, answers, e, c) :: answers[c] == Replayed(answers[e].planId))
  {
    hide Serve, ServeAll, ValidRequest, SameUpToOrder;
    var answers := ServeAll(EMPTY_STORE, calls).1;
    forall e | a < e < c && ReservedTwin(calls, answers, e, c) ensures answers[c] == Replayed(answers[e].planId) {
      TwinIsReplayed(calls, e, c);
    }
    if answers[c].Replayed? {
      var e := ReplayHasTwin(calls, c);
      TwinNamesSameBalances(calls, e, c, i);
      var j :| 0 <= j < |calls[e].request.reservations|
               && KeyOf(calls[e].request.accountId, calls[e].request.reservations[j]) == calls[a].key;
      FundedBeforeReserved(calls, e, a, j);
    }
  }

  lemma TwinNamesSameBalances(calls: seq<Call>, e: nat, c: nat, i: nat)
    requires e < |calls| && c < |calls| && ReservedTwin(calls, ServeAll(EMPTY_STORE, calls).1, e, c)
    requires i < |calls[c].request.reservations|
    ensures calls[e].ReserveCall?
    ensures exists j | 0 <= j < |calls[e].request.reservations| ::
              KeyOf(calls[e].request.accountId, calls[e].request.reservations[j])
              == KeyOf(calls[c].request.accountId, calls[c].request.reservations[i])
  {
    hide ServeAll, SameUpToOrder;
    TwinsShareRequest(calls[e].request, calls[c].request);
    assert calls[c].request.reservations[i] in multiset(calls[c].request.reservations);
    assert calls[c].request.reservations[i] in calls[e].request.reservations;
  }

  lemma ReplayHasTwin(calls: seq<Call>, c: nat) returns (e: nat)
    requires c < |calls| && calls[c].ReserveCall? && ServeAll(EMPTY_STORE, calls).1[c].Replayed?
    ensures e < c && ReservedTwin(calls, ServeAll(EMPTY_STORE, calls).1, e, c)
  {
    hide Serve, ServeAll, ValidRequest, SameUpToOrder, Canonical;
    var before := calls[..c];
    var s := ServeAll(EMPTY_STORE, before).0;
    OutcomeAt(EMPTY_STORE, calls, c);
    ReplayedIsBound(s, calls[c]);
    e := BoundByReserve(before, calls[c].request.requestId);
    assert before[..e] == calls[..e];
    OutcomeAt(EMPTY_STORE, calls, e);
    OutcomeAt(EMPTY_STORE, before, e);
    assert before[..c] == before;
    ReservedStaysBound(EMPTY_STORE, before, e, c);
    SameDomainAsRequest(calls[e].request, calls[e].account, calls[e].instrument);
    SameDomainAsRequest(calls[c].request, calls[c].account, calls[c].instrument);
    CanonicalForgetsOrder(calls[e].request, calls[c].request);
  }
}
