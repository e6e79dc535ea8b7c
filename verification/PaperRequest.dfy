/** Plan reservation requests: their validation and their canonical form (crates/core/src/paper.rs). */
module PaperRequest {
  import opened Common
  import opened Text
  import opened Sorting

  datatype OrderSide = Buy | Sell

  datatype OrderIntentInput = OrderIntentInput(
    intentId: string,
    legId: string,
    attemptId: string,
    clientOrderId: string,
    venue: string,
    side: OrderSide,
    quantity: Amount,
    limitPrice: Amount)

  datatype ReservationInput = ReservationInput(reservationId: string, venue: string, asset: string, amount: Amount)

  const BLANK_INTENT := OrderIntentInput("", "", "", "", "", Buy, Amount(0.0, 0), Amount(0.0, 0))

  type IntentPair = s: seq<OrderIntentInput> | |s| == 2 witness [BLANK_INTENT, BLANK_INTENT]

  datatype ReservePlanRequest = ReservePlanRequest(
    requestId: string,
    planId: string,
    accountId: string,
    instrumentId: string,
    opportunityId: string,
    strategyConfigVersion: string,
    targetQuantity: Amount,
    maxUnmatchedExposure: Amount,
    intents: IntentPair,
    reservations: seq<ReservationInput>)

  // ---------------------------------------------------------------- validation

  predicate GoodHeader(r: ReservePlanRequest) {
    && ValidId(r.requestId) && ValidId(r.planId) && ValidId(r.accountId)
    && ValidId(r.instrumentId) && ValidId(r.opportunityId) && ValidId(r.strategyConfigVersion)
  }

  predicate NamedIntent(i: OrderIntentInput) {
    ValidId(i.intentId) && ValidId(i.legId) && ValidId(i.attemptId) && ValidId(i.clientOrderId) && ValidId(i.venue)
  }

  predicate NamedLine(l: ReservationInput) {
    ValidId(l.reservationId) && ValidId(l.venue) && ValidId(l.asset)
  }

  predicate AllNamed(r: ReservePlanRequest) {
    && GoodHeader(r)
    && (forall i | 0 <= i < |r.intents| :: NamedIntent(r.intents[i]))
    && (forall i | 0 <= i < |r.reservations| :: NamedLine(r.reservations[i]))
  }

  predicate SameIntent(a: OrderIntentInput, b: OrderIntentInput) {
    a.intentId == b.intentId || a.attemptId == b.attemptId || a.clientOrderId == b.clientOrderId || a.legId == b.legId
  }

  predicate PositiveIntent(i: OrderIntentInput) {
    i.quantity.value > 0.0 && i.limitPrice.value > 0.0
  }

  predicate SameLine(a: ReservationInput, b: ReservationInput) {
    a.reservationId == b.reservationId || (a.venue == b.venue && a.asset == b.asset)
  }

  predicate LinesApart(lines: seq<ReservationInput>) {
    forall i, j | 0 <= i < j < |lines| :: !SameLine(lines[i], lines[j])
  }

  /** One clause per way in which a request can be refused. */
  predicate Blames(e: RequestError, r: ReservePlanRequest, account: string, instrument: string) {
    match e
    case InvalidIdentifier => !AllNamed(r)
    case WrongDomain => r.accountId != account || r.instrumentId != instrument
    case BadTarget => r.targetQuantity.value <= 0.0
    case BadExposure => r.maxUnmatchedExposure.value < 0.0
    case NoReservation => r.reservations == []
    case RepeatedIntent => SameIntent(r.intents[0], r.intents[1])
    case SharedVenue => r.intents[0].venue == r.intents[1].venue
    case BadIntentAmount => exists i | 0 <= i < 2 :: !PositiveIntent(r.intents[i])
    case OneSided => r.intents[0].side == r.intents[1].side
    case BadReservationAmount => exists i | 0 <= i < |r.reservations| :: r.reservations[i].amount.value <= 0.0
    case UnmatchedVenue => exists i | 0 <= i < |r.reservations| :: r.reservations[i].venue !in Venues(r.intents)
    case RepeatedReservation => !LinesApart(r.reservations)
    case UnfundedVenue => exists i | 0 <= i < 2 :: !Funded(r.intents[i].venue, r.reservations)
  }

  datatype RequestError =
    | InvalidIdentifier
    | WrongDomain
    | BadTarget
    | BadExposure
    | NoReservation
    | RepeatedIntent
    | SharedVenue
    | BadIntentAmount
    | OneSided
    | BadReservationAmount
    | UnmatchedVenue
    | RepeatedReservation
    | UnfundedVenue

  function Venues(intents: IntentPair): set<string> {
    {intents[0].venue, intents[1].venue}
  }

  predicate Funded(venue: string, lines: seq<ReservationInput>) {
    exists i | 0 <= i < |lines| :: lines[i].venue == venue
  }

  predicate ValidRequest(r: ReservePlanRequest, account: string, instrument: string) {
    && AllNamed(r)
    && r.accountId == account && r.instrumentId == instrument
    && r.targetQuantity.value > 0.0 && r.maxUnmatchedExposure.value >= 0.0
    && !SameIntent(r.intents[0], r.intents[1])
    && r.intents[0].venue != r.intents[1].venue
    && r.intents[0].side != r.intents[1].side
    && PositiveIntent(r.intents[0]) && PositiveIntent(r.intents[1])
    && r.reservations != []
    && (forall i | 0 <= i < |r.reservations| ::
          r.reservations[i].amount.value > 0.0 && r.reservations[i].venue in Venues(r.intents))
    && LinesApart(r.reservations)
    && Funded(r.intents[0].venue, r.reservations) && Funded(r.intents[1].venue, r.reservations)
  }

  /** Both intents, with the sets of identifiers seen so far. */
  method ValidateIntents(intents: IntentPair) returns (r: Option<RequestError>, venues: set<string>)
    ensures r.None? <==>
            && NamedIntent(intents[0]) && NamedIntent(intents[1])
            && !SameIntent(intents[0], intents[1]) && intents[0].venue != intents[1].venue
            && PositiveIntent(intents[0]) && PositiveIntent(intents[1]) && intents[0].side != intents[1].side
    ensures r.None? ==> venues == Venues(intents)
    ensures r.Some? ==>
            match r.value
            case InvalidIdentifier => !NamedIntent(intents[0]) || !NamedIntent(intents[1])
            case RepeatedIntent => SameIntent(intents[0], intents[1])
            case SharedVenue => intents[0].venue == intents[1].venue
            case BadIntentAmount => exists i | 0 <= i < 2 :: !PositiveIntent(intents[i])
            case OneSided => intents[0].side == intents[1].side
            case _ => false
  {
    hide ValidId;
    var intentIds: set<string>, attemptIds: set<string>, clientOrderIds: set<string>, legIds: set<string> := {}, {}, {}, {};
    venues := {};
    var hasBuy, hasSell := false, false;
    var i := 0;
    while i < 2
      invariant 0 <= i <= 2
      invariant intentIds == set j | 0 <= j < i :: intents[j].intentId
      invariant attemptIds == set j | 0 <= j < i :: intents[j].attemptId
      invariant clientOrderIds == set j | 0 <= j < i :: intents[j].clientOrderId
      invariant legIds == set j | 0 <= j < i :: intents[j].legId
      invariant venues == set j | 0 <= j < i :: intents[j].venue
      invariant hasBuy == exists j | 0 <= j < i :: intents[j].side == Buy
      invariant hasSell == exists j | 0 <= j < i :: intents[j].side == Sell
      invariant forall j | 0 <= j < i :: NamedIntent(intents[j]) && PositiveIntent(intents[j])
      invariant i == 2 ==> !SameIntent(intents[0], intents[1]) && intents[0].venue != intents[1].venue
    {
      var intent := intents[i];
      if !NamedIntent(intent) {
        return Some(InvalidIdentifier), venues;
      }
      if intent.intentId in intentIds || intent.attemptId in attemptIds
         || intent.clientOrderId in clientOrderIds || intent.legId in legIds {
        return Some(RepeatedIntent), venues;
      }
      intentIds, attemptIds := intentIds + {intent.intentId}, attemptIds + {intent.attemptId};
      clientOrderIds, legIds := clientOrderIds + {intent.clientOrderId}, legIds + {intent.legId};
      if intent.venue in venues {
        return Some(SharedVenue), venues;
      }
      venues := venues + {intent.venue};
      hasBuy, hasSell := hasBuy || intent.side == Buy, hasSell || intent.side == Sell;
      if !PositiveIntent(intent) {
        return Some(BadIntentAmount), venues;
      }
      i := i + 1;
    }
    if !hasBuy || !hasSell {
      return Some(OneSided), venues;
    }
    r := None;
  }

  method ValidateLines(lines: seq<ReservationInput>, venues: set<string>) returns (r: Option<RequestError>)
    ensures r.None? <==>
            && (forall i | 0 <= i < |lines| :: NamedLine(lines[i]) && lines[i].amount.value > 0.0 && lines[i].venue in venues)
            && LinesApart(lines)
            && (forall v | v in venues :: Funded(v, lines))
    ensures r.Some? ==>
            match r.value
            case InvalidIdentifier => exists i | 0 <= i < |lines| :: !NamedLine(lines[i])
            case BadReservationAmount => exists i | 0 <= i < |lines| :: lines[i].amount.value <= 0.0
            case UnmatchedVenue => exists i | 0 <= i < |lines| :: lines[i].venue !in venues
            case RepeatedReservation => !LinesApart(lines)
            case UnfundedVenue => exists v | v in venues :: !Funded(v, lines)
            case _ => false
  {
    hide ValidId;
    var keys: set<(string, string)>, ids: set<string> := {}, {};
    var i := 0;
    while i < |lines|
      invariant 0 <= i <= |lines|
      invariant keys == set j | 0 <= j < i :: LineKey(lines[j])
      invariant ids == set j | 0 <= j < i :: lines[j].reservationId
      invariant forall j | 0 <= j < i :: NamedLine(lines[j]) && lines[j].amount.value > 0.0 && lines[j].venue in venues
      invariant LinesApart(lines[..i])
    {
      var line := lines[i];
      if !NamedLine(line) {
        return Some(InvalidIdentifier);
      }
      if line.amount.value <= 0.0 {
        return Some(BadReservationAmount);
      }
      if line.venue !in venues {
        return Some(UnmatchedVenue);
      }
      if line.reservationId in ids || LineKey(line) in keys {
        assert exists j | 0 <= j < i :: SameLine(lines[j], lines[i]);
        return Some(RepeatedReservation);
      }
      ids, keys := ids + {line.reservationId}, keys + {LineKey(line)};
      i := i + 1;
    }
    assert lines[..i] == lines;
    var lineVenues := set j | 0 <= j < |lines| :: lines[j].venue;
    if lineVenues != venues {
      assert lineVenues <= venues;
      assert exists v :: v in venues && v !in lineVenues;
      return Some(UnfundedVenue);
    }
    forall v | v in venues ensures Funded(v, lines) {
      assert v in lineVenues;
    }
    r := None;
  }

  /** Checking a request accepts exactly the valid ones, and a refusal names a real fault. */
  method ValidateRequest(request: ReservePlanRequest, account: string, instrument: string) returns (r: Result<(), RequestError>)
    ensures r.Ok? <==> ValidRequest(request, account, instrument)
    ensures r.Err? ==> Blames(r.error, request, account, instrument)
  {
    hide ValidId, NamedIntent, NamedLine, SameIntent, PositiveIntent, LinesApart, Funded;
    if !GoodHeader(request) {
      return Err(InvalidIdentifier);
    }
    if request.accountId != account || request.instrumentId != instrument {
      return Err(WrongDomain);
    }
    if request.targetQuantity.value <= 0.0 {
      return Err(BadTarget);
    }
    if request.maxUnmatchedExposure.value < 0.0 {
      return Err(BadExposure);
    }
    if request.reservations == [] {
      return Err(NoReservation);
    }
    var fault, venues := ValidateIntents(request.intents);
    if fault.Some? {
      return Err(fault.value);
    }
    fault := ValidateLines(request.reservations, venues);
    return if fault.Some? then Err(fault.value) else Ok(());
  }

  // ---------------------------------------------------------------- canonical form

  function LegKey(i: OrderIntentInput): Key { (i.legId, "") }

  function LineKey(l: ReservationInput): Key { (l.venue, l.asset) }

  /** The request with intents in leg order and lines in venue and asset order: what is hashed. */
  function Canonical(r: ReservePlanRequest): ReservePlanRequest {
    SortPermutes(r.intents, LegKey);
    r.(intents := SortBy(r.intents, LegKey), reservations := SortBy(r.reservations, LineKey))
  }

  predicate SameUpToOrder(a: ReservePlanRequest, b: ReservePlanRequest) {
    && multiset(a.intents) == multiset(b.intents)
    && multiset(a.reservations) == multiset(b.reservations)
    && a.(intents := b.intents, reservations := b.reservations) == b
  }

  lemma ValidKeysDistinct(r: ReservePlanRequest)
    requires ValidRequest(r, r.accountId, r.instrumentId)
    ensures DistinctKeys(r.intents, LegKey) && DistinctKeys(r.reservations, LineKey)
  {
    hide ValidId;
    forall i, j | 0 <= i < j < |r.reservations| ensures LineKey(r.reservations[i]) != LineKey(r.reservations[j]) {
      assert !SameLine(r.reservations[i], r.reservations[j]);
    }
  }

  /** Two valid requests have the same canonical form, hence the same digest, exactly when they
      differ at most in the order of intents and of reservation lines. */
  lemma CanonicalForgetsOrder(a: ReservePlanRequest, b: ReservePlanRequest)
    requires ValidRequest(a, a.accountId, a.instrumentId) && ValidRequest(b, b.accountId, b.instrumentId)
    ensures Canonical(a) == Canonical(b) <==> SameUpToOrder(a, b)
  {
    hide ValidRequest, SortBy;
    ValidKeysDistinct(a);
    ValidKeysDistinct(b);
    SortIsCanonical(a.intents, b.intents, LegKey);
    SortIsCanonical(a.reservations, b.reservations, LineKey);
  }

  // ---------------------------------------------------------------- validity by sets

  lemma {:induction false} DistinctCounts<T>(keys: seq<T>)
    ensures |set k | k in keys| <= |keys|
    ensures |set k | k in keys| == |keys| <==> forall i, j | 0 <= i < j < |keys| :: keys[i] != keys[j]
  {
    if keys != [] {
      var n := |keys| - 1;
      var init, last := keys[..n], keys[n];
      DistinctCounts(init);
      assert keys == init + [last];
      assert (set k | k in keys) == (set k | k in init) + {last};
      if last in init {
        var i :| 0 <= i < n && init[i] == last;
        assert keys[i] == keys[n];
      } else {
        assert forall i | 0 <= i < n :: init[i] in init;
      }
      assert forall i | 0 <= i < n :: init[i] == keys[i];
    }
  }

  function LineIds(lines: seq<ReservationInput>): (ids: seq<string>)
    ensures |ids| == |lines| && forall i | 0 <= i < |lines| :: ids[i] == lines[i].reservationId
  {
    seq(|lines|, i requires 0 <= i < |lines| => lines[i].reservationId)
  }

  function LineAssets(lines: seq<ReservationInput>): (assets: seq<(string, string)>)
    ensures |assets| == |lines| && forall i | 0 <= i < |lines| :: assets[i] == (lines[i].venue, lines[i].asset)
  {
    seq(|lines|, i requires 0 <= i < |lines| => (lines[i].venue, lines[i].asset))
  }

  lemma ApartMeansDistinct(lines: seq<ReservationInput>)
    ensures LinesApart(lines) <==>
            |set id | id in LineIds(lines)| == |lines| && |set a | a in LineAssets(lines)| == |lines|
  {
    DistinctCounts(LineIds(lines));
    DistinctCounts(LineAssets(lines));
    var ids, assets := LineIds(lines), LineAssets(lines);
    assert LinesApart(lines) <==> forall i, j | 0 <= i < j < |lines| :: ids[i] != ids[j] && assets[i] != assets[j];
  }

  lemma FundedMeansSameVenues(r: ReservePlanRequest)
    ensures (forall i | 0 <= i < |r.reservations| :: r.reservations[i].venue in Venues(r.intents))
            && Funded(r.intents[0].venue, r.reservations) && Funded(r.intents[1].venue, r.reservations)
            <==> (set l | l in r.reservations :: l.venue) == Venues(r.intents)
    ensures Funded(r.intents[0].venue, r.reservations) ==> r.reservations != []
  {
    var lines := (set l | l in r.reservations :: l.venue);
    if lines == Venues(r.intents) {
      forall i | 0 <= i < |r.reservations| ensures r.reservations[i].venue in Venues(r.intents) {
        assert r.reservations[i] in r.reservations;
      }
      assert r.intents[0].venue in lines && r.intents[1].venue in lines;
    }
  }

  /** One intent of each side, and no identifier or venue shared. */
  predicate IntentsComplement(intents: IntentPair) {
    var a, b := intents[0], intents[1];
    && {a.side, b.side} == {Buy, Sell}
    && |{a.intentId, b.intentId}| == 2 && |{a.attemptId, b.attemptId}| == 2 && |{a.clientOrderId, b.clientOrderId}| == 2
    && |{a.legId, b.legId}| == 2 && |{a.venue, b.venue}| == 2
  }

  predicate IntentsWellFormed(intents: IntentPair) {
    forall i | i in intents ::
      && (forall name | name in {i.intentId, i.legId, i.attemptId, i.clientOrderId, i.venue} :: ValidId(name))
      && i.quantity.value > 0.0 && i.limitPrice.value > 0.0
  }

  predicate LinesWellFormed(lines: seq<ReservationInput>) {
    forall l | l in lines :: (forall name | name in {l.reservationId, l.venue, l.asset} :: ValidId(name)) && l.amount.value > 0.0
  }

  lemma ComplementMeans(intents: IntentPair)
    ensures IntentsComplement(intents) <==>
            !SameIntent(intents[0], intents[1]) && intents[0].venue != intents[1].venue && intents[0].side != intents[1].side
  {
  }

  lemma WellFormedMeans(r: ReservePlanRequest)
    ensures IntentsWellFormed(r.intents) <==> forall i | 0 <= i < |r.intents| :: NamedIntent(r.intents[i]) && PositiveIntent(r.intents[i])
    ensures LinesWellFormed(r.reservations) <==>
            forall i | 0 <= i < |r.reservations| :: NamedLine(r.reservations[i]) && r.reservations[i].amount.value > 0.0
  {
    hide ValidId;
  }

  /** The same validity in terms of sets: every name is good, the domain is the core's own, amounts
      are positive, there is one intent of each side, the intents share no identifier and no venue,
      no two lines share an identifier or a balance, and the lines' venues are exactly the intents'. */
  lemma ValidRequestMeans(r: ReservePlanRequest, account: string, instrument: string)
    ensures ValidRequest(r, account, instrument) <==>
            && (forall name | name in {r.requestId, r.planId, r.accountId, r.instrumentId, r.opportunityId, r.strategyConfigVersion} :: ValidId(name))
            && (r.accountId, r.instrumentId) == (account, instrument)
            && r.targetQuantity.value > 0.0 && r.maxUnmatchedExposure.value >= 0.0
            && IntentsWellFormed(r.intents) && IntentsComplement(r.intents)
            && LinesWellFormed(r.reservations)
            && |set id | id in LineIds(r.reservations)| == |r.reservations|
            && |set a | a in LineAssets(r.reservations)| == |r.reservations|
            && (set l | l in r.reservations :: l.venue) == {r.intents[0].venue, r.intents[1].venue}
  {
    hide ValidId, Funded, LinesApart, LineIds, LineAssets, IntentsWellFormed, LinesWellFormed, IntentsComplement, NamedIntent, NamedLine,
         PositiveIntent, SameIntent;
    ApartMeansDistinct(r.reservations);
    FundedMeansSameVenues(r);
    WellFormedMeans(r);
    ComplementMeans(r.intents);
  }
}
