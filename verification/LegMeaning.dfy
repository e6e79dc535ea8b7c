/** One simulated leg in terms of its book, filters and configuration alone (crates/core/src/simulation.rs). */
module LegMeaning {
  import opened Common
  import opened Market
  import opened Instrument
  import opened SimulateLeg

  /** The greatest multiple of the quantity step not above what the competitors' share leaves. */
  ghost predicate Offers(instrument: InstrumentSpec, config: LegConfig, quantity: real, offered: real) {
    && OnGrid(offered, instrument.quantityStep)
    && offered <= quantity - quantity * config.competitorTakeBps / 10000.0 < offered + instrument.quantityStep
  }

  /** The multiple of the price tick nearest to the level's price moved against the order, on the
      side that is worse for it. */
  ghost predicate MovesTo(side: BookSide, instrument: InstrumentSpec, config: LegConfig, price: real, fill: real) {
    && OnGrid(fill, instrument.priceTick)
    && (side == Asks ==> fill - instrument.priceTick < price + price * config.adverseMoveBps / 10000.0 <= fill)
    && (side == Bids ==> fill <= price - price * config.adverseMoveBps / 10000.0 < fill + instrument.priceTick)
  }

  /** What a leg takes: of each level at most what it offers, of a later one only when the earlier
      ones are used up, and in all the lesser of the request and everything offered. */
  ghost predicate Walks(side: BookSide, levels: seq<Level>, instrument: InstrumentSpec, config: LegConfig, requested: real,
                        offers: seq<real>, fills: seq<real>, taken: seq<real>) {
    && |offers| == |levels| && |fills| == |levels| && |taken| == |levels|
    && (forall i | 0 <= i < |levels| ::
          && Offers(instrument, config, levels[i].quantity, offers[i])
          && MovesTo(side, instrument, config, levels[i].price, fills[i])
          && 0.0 <= taken[i] <= offers[i])
    && (forall i, j | 0 <= i < j < |levels| && taken[j] > 0.0 :: taken[i] == offers[i])
    && Sum(taken) == Min(requested, Sum(offers))
  }

  function Paid(fills: seq<real>, taken: seq<real>): real
    requires |fills| == |taken|
  {
    if taken == [] then 0.0 else Times(taken[0], fills[0]) + Paid(fills[1..], taken[1..])
  }

  lemma ShareLeft(quantity: real, bps: real)
    ensures Times(quantity, 1.0 - Over(bps, BPS_DENOMINATOR)) == quantity - quantity * bps / 10000.0
    ensures Times(quantity, 1.0 + Over(bps, BPS_DENOMINATOR)) == quantity + quantity * bps / 10000.0
  {
    TimesDistributes(quantity, 1.0, Over(bps, BPS_DENOMINATOR));
  }

  lemma MultipleAbove(n: int, step: real)
    ensures Multiple(n + 1, step) == Multiple(n, step) + step
  {
    MultipleAlgebra(n, 1, step);
  }

  lemma AvailableIsOffered(instrument: InstrumentSpec, config: LegConfig, quantity: real)
    requires UsableFilters(instrument)
    ensures Offers(instrument, config, quantity,
                   Available(quantity, 1.0 - Over(config.competitorTakeBps, BPS_DENOMINATOR), instrument.quantityStep))
  {
    hide Times, Over, Multiple;
    var effective := Times(quantity, 1.0 - Over(config.competitorTakeBps, BPS_DENOMINATOR));
    ShareLeft(quantity, config.competitorTakeBps);
    TickBounds(effective, instrument.quantityStep);
    MultipleAbove(Over(effective, instrument.quantityStep).Floor, instrument.quantityStep);
  }

  lemma AdversePriceIs(price: real, side: BookSide, bps: real)
    ensures AdversePrice(price, side, bps) ==
            if side == Asks then price + price * bps / 10000.0 else price - price * bps / 10000.0
  {
    hide Times, Over;
    ShareLeft(price, bps);
  }

  lemma FillPriceFills(side: BookSide, instrument: InstrumentSpec, config: LegConfig, price: real)
    requires UsableFilters(instrument) && ValidConfig(config) && price > 0.0
    ensures MovesTo(side, instrument, config, price, FillPrice(price, TermsOf(side, instrument, config)))
  {
    hide Times, Over, Multiple, AdversePrice;
    var tick := instrument.priceTick;
    var raw := AdversePrice(price, side, config.adverseMoveBps);
    AdversePriceIs(price, side, config.adverseMoveBps);
    AdverseNonNegative(price, side, config.adverseMoveBps);
    TickBounds(raw, tick);
    OverBounds(raw, tick, 0.0);
    MultipleAbove(Over(raw, tick).Floor, tick);
    MultipleAbove(Ceiling(Over(raw, tick)) - 1, tick);
  }

  lemma {:induction false} TakenIsGreedy(levels: seq<Level>, takeRate: real, step: real, remaining: real)
    requires AllPositive(levels) && RateInRange(takeRate) && step > 0.0 && remaining >= 0.0
    ensures var taken := Taken(levels, takeRate, step, remaining);
            && (forall i | 0 <= i < |levels| :: 0.0 <= taken[i] <= Available(levels[i].quantity, takeRate, step))
            && (forall i, j | 0 <= i < j < |levels| && taken[j] > 0.0 :: taken[i] == Available(levels[i].quantity, takeRate, step))
  {
    hide Available;
    if levels != [] {
      var avail := Available(levels[0].quantity, takeRate, step);
      var taken := Taken(levels, takeRate, step, remaining);
      var rest := Taken(levels[1..], takeRate, step, remaining - taken[0]);
      assert taken[1..] == rest;
      AvailableBounds(levels[0].quantity, takeRate, step);
      TakenIsGreedy(levels[1..], takeRate, step, remaining - taken[0]);
      if remaining - taken[0] == 0.0 {
        TakenNothing(levels[1..], takeRate, step);
      }
      forall j | 0 < j < |levels| ensures taken[j] == rest[j - 1] && levels[j] == levels[1..][j - 1] {}
    }
  }

  function AllOffers(levels: seq<Level>, takeRate: real, step: real): (offers: seq<real>)
    requires step > 0.0
    ensures |offers| == |levels|
    ensures forall i | 0 <= i < |levels| :: offers[i] == Available(levels[i].quantity, takeRate, step)
  {
    if levels == [] then [] else [Available(levels[0].quantity, takeRate, step)] + AllOffers(levels[1..], takeRate, step)
  }

  lemma {:induction false} OffersSumUp(levels: seq<Level>, takeRate: real, step: real)
    requires step > 0.0
    ensures Sum(AllOffers(levels, takeRate, step)) == TotalAvailable(levels, takeRate, step)
  {
    hide Available;
    if levels != [] {
      assert AllOffers(levels, takeRate, step)[1..] == AllOffers(levels[1..], takeRate, step);
      OffersSumUp(levels[1..], takeRate, step);
    }
  }

  function AllFills(levels: seq<Level>, t: LegTerms): (fills: seq<real>)
    requires UsableTerms(t)
    ensures |fills| == |levels|
    ensures forall i | 0 <= i < |levels| :: fills[i] == FillPrice(levels[i].price, t)
  {
    if levels == [] then [] else [FillPrice(levels[0].price, t)] + AllFills(levels[1..], t)
  }

  lemma {:induction false} QuoteIsPaid(levels: seq<Level>, t: LegTerms, taken: seq<real>)
    requires UsableTerms(t) && |taken| == |levels|
    ensures QuoteOf(FillLevels(levels, t), taken) == Paid(AllFills(levels, t), taken)
  {
    hide FillPrice, Times;
    if levels != [] {
      assert FillLevels(levels, t)[1..] == FillLevels(levels[1..], t);
      assert AllFills(levels, t)[1..] == AllFills(levels[1..], t);
      QuoteIsPaid(levels[1..], t, taken[1..]);
    }
  }

  lemma LegWalks(side: BookSide, levels: seq<Level>, instrument: InstrumentSpec, config: LegConfig, requested: real)
    requires AllPositive(levels) && UsableFilters(instrument) && ValidConfig(config) && requested > 0.0
    ensures var t := TermsOf(side, instrument, config);
            Walks(side, levels, instrument, config, requested,
                  AllOffers(levels, t.takeRate, t.step), AllFills(levels, t), Taken(levels, t.takeRate, t.step, requested))
  {
    hide Offers, MovesTo, Available, FillPrice, Taken, AllOffers, AllFills, Sum;
    var t := TermsOf(side, instrument, config);
    RateFromConfig(config);
    TakenIsGreedy(levels, t.takeRate, t.step, requested);
    TakenTotals(levels, t.takeRate, t.step, requested);
    OffersSumUp(levels, t.takeRate, t.step);
    forall i | 0 <= i < |levels|
      ensures Offers(instrument, config, levels[i].quantity, Available(levels[i].quantity, t.takeRate, t.step))
      ensures MovesTo(side, instrument, config, levels[i].price, FillPrice(levels[i].price, t))
    {
      AvailableIsOffered(instrument, config, levels[i].quantity);
      FillPriceFills(side, instrument, config, levels[i].price);
    }
  }

  /** The last level something was taken from gives the reported last prices. */
  predicate LastTaken(levels: seq<Level>, fills: seq<real>, taken: seq<real>, r: SimLegResult)
    requires |fills| == |levels| && |taken| == |levels|
  {
    if forall i | 0 <= i < |taken| :: taken[i] == 0.0 then r.lastRawPrice == 0.0 && r.lastFillPrice == 0.0
    else
      exists k | 0 <= k < |taken| ::
        && taken[k] > 0.0 && (forall i | k < i < |taken| :: taken[i] == 0.0)
        && r.lastRawPrice == levels[k].price && r.lastFillPrice == fills[k]
  }

  lemma LegEnds(levels: seq<Level>, t: LegTerms, requested: real, minQuantity: real)
    requires AllPositive(levels) && UsableTerms(t) && RateInRange(t.takeRate) && requested > 0.0
    ensures var start := LegTotals(requested, 0.0, 0.0, 0.0, 0.0);
            && MatchLevels(levels, t, start).Ok?
            && LastTaken(levels, AllFills(levels, t), Taken(levels, t.takeRate, t.step, requested),
                         Conclude(MatchLevels(levels, t, start).value, minQuantity))
  {
    hide FillPrice, MatchLevels, Taken, AllFills, Times, Over;
    var start := LegTotals(requested, 0.0, 0.0, 0.0, 0.0);
    var k := LastPricesAreLastConsumed(levels, t, start);
  }

  /** A leg refuses exactly a non-positive request. Otherwise it walks the levels as their own
      quantities, the competitors' share, the step, the tick and the adverse move say: its fill is
      what it took unless that is positive and below the minimum, its money what it took at the
      moved prices, its average price that money per filled unit, and each flag says what it names. */
  lemma LegMeans(side: BookSide, book: OrderBookSnapshot, instrument: InstrumentSpec, requested: real, config: LegConfig)
    returns (offers: seq<real>, fills: seq<real>, taken: seq<real>)
    requires AllPositive(LevelsOf(book, side)) && UsableFilters(instrument) && ValidConfig(config)
    ensures var leg := LegResult(side, book, instrument, requested, config);
            && (leg.Err? <==> requested <= 0.0)
            && (leg.Err? ==> leg.error == NonPositiveRequest)
            && (leg.Ok? ==>
                  && Walks(side, LevelsOf(book, side), instrument, config, requested, offers, fills, taken)
                  && var (r, total) := (leg.value, Sum(taken));
                     && r.belowMinQuantity == (0.0 < total < instrument.minQuantity)
                     && r.depthShortfall == (0.0 < total < requested)
                     && r.filled == (if 0.0 < total < instrument.minQuantity then 0.0 else total)
                     && r.quoteAmount == Paid(fills, taken)
                     && (r.filled > 0.0 ==> r.avgPrice * r.filled == Paid(fills, taken))
                     && (r.filled <= 0.0 ==> r.avgPrice == 0.0)
                     && LastTaken(LevelsOf(book, side), fills, taken, r))
  {
    hide Walks, LastTaken, TermsOf, MatchLevels, Conclude, Taken, AllOffers, AllFills, TotalAvailable, QuoteOf, FillLevels, Sum, Over;
    var levels := LevelsOf(book, side);
    var t := TermsOf(side, instrument, config);
    UsableTermsOf(side, instrument, config);
    offers, fills, taken := AllOffers(levels, t.takeRate, t.step), AllFills(levels, t), [];
    if requested > 0.0 {
      taken := LegFillsExactly(side, book, instrument, requested, config);
      LegWalks(side, levels, instrument, config, requested);
      QuoteIsPaid(levels, t, taken);
      LegEnds(levels, t, requested, instrument.minQuantity);
      ConcludeMeans(MatchLevels(levels, t, LegTotals(requested, 0.0, 0.0, 0.0, 0.0)).value, instrument.minQuantity);
    }
  }

  /** A leg that fills nothing still reports money exactly when what it took was below the minimum
      and, for a sell, the best level it can reach is worth a tick after the move: the fill is
      dropped and its money is not. */
  lemma UnfilledMoneyExactlyWhen(side: BookSide, book: OrderBookSnapshot, instrument: InstrumentSpec, requested: real, config: LegConfig)
    requires GoodSide(side, LevelsOf(book, side)) && UsableFilters(instrument) && ValidConfig(config) && requested > 0.0
    ensures LegResult(side, book, instrument, requested, config).Ok?
    ensures var (r, levels) := (LegResult(side, book, instrument, requested, config).value, LevelsOf(book, side));
            var k := FirstOffered(levels, TermsOf(side, instrument, config).takeRate, instrument.quantityStep);
            r.filled == 0.0 && r.quoteAmount != 0.0 <==>
              && r.belowMinQuantity && k < |levels|
              && (side == Asks || levels[k].price - levels[k].price * config.adverseMoveBps / 10000.0 >= instrument.priceTick)
  {
    hide LegResult, TotalAvailable, AdversePrice, TermsOf, FirstOffered, Taken, FillLevels, QuoteOf, Sum, GoodSide, Times, Over, Multiple;
    var levels := LevelsOf(book, side);
    var t := TermsOf(side, instrument, config);
    UsableTermsOf(side, instrument, config);
    assert AllPositive(levels) by { PositiveOfGood(side, levels); }
    var taken := LegFillsExactly(side, book, instrument, requested, config);
    MoneyOfLeg(levels, t, requested);
    var k := FirstOffered(levels, t.takeRate, t.step);
    if k < |levels| {
      AdversePriceIs(levels[k].price, side, config.adverseMoveBps);
    }
  }

  lemma PositiveOfGood(side: BookSide, levels: seq<Level>)
    requires GoodSide(side, levels)
    ensures AllPositive(levels)
  {
  }

  lemma MoneyOfLeg(levels: seq<Level>, t: LegTerms, requested: real)
    requires GoodSide(t.side, levels) && UsableTerms(t) && RateInRange(t.takeRate) && 0.0 <= t.bps <= BPS_DENOMINATOR && requested > 0.0
    ensures var taken := Taken(levels, t.takeRate, t.step, requested);
            var k := FirstOffered(levels, t.takeRate, t.step);
            var money := QuoteOf(FillLevels(levels, t), taken);
            && (Sum(taken) == 0.0 ==> money == 0.0)
            && (money != 0.0 <==> k < |levels| && (t.side == Asks || AdversePrice(levels[k].price, t.side, t.bps) >= t.tick))
  {
    hide AdversePrice, FirstOffered, Taken, FillLevels, QuoteOf, Sum, FillPrice, Available, Times, Over, Multiple;
    var taken := Taken(levels, t.takeRate, t.step, requested);
    TakenTotals(levels, t.takeRate, t.step, requested);
    OfferedQuote(levels, t, requested);
    QuoteSignOfLeg(levels, t, taken);
    if Sum(taken) == 0.0 {
      TakenIsNothing(taken);
      QuoteOfNothing(FillLevels(levels, t), taken);
    }
  }

  lemma QuoteSignOfLeg(levels: seq<Level>, t: LegTerms, taken: seq<real>)
    requires AllPositive(levels) && UsableTerms(t) && 0.0 <= t.bps <= BPS_DENOMINATOR && Allocation(levels, taken)
    ensures QuoteOf(FillLevels(levels, t), taken) >= 0.0
  {
    hide FillPrice, Times, QuoteOf;
    forall i | 0 <= i < |levels| ensures FillLevels(levels, t)[i].price >= 0.0 {
      FillLevelAt(levels, t, i);
      FillPriceSign(levels[i].price, t);
    }
    QuoteSign(FillLevels(levels, t), taken, 0);
  }

  lemma {:induction false} TakenIsNothing(taken: seq<real>)
    requires Sum(taken) == 0.0 && forall i | 0 <= i < |taken| :: taken[i] >= 0.0
    ensures forall i | 0 <= i < |taken| :: taken[i] == 0.0
  {
    if taken != [] {
      SumNonNegative(taken[1..]);
      TakenIsNothing(taken[1..]);
      forall i | 0 < i < |taken| ensures taken[i] == taken[1..][i - 1] {}
    }
  }
}
