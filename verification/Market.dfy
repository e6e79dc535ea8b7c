/** Order book snapshots: validation and the depth sweep (crates/core/src/market.rs). */
module Market {
  import opened Common

  datatype Level = Level(price: real, quantity: real)

  datatype BookSide = Bids | Asks

  datatype OrderBookSnapshot = OrderBookSnapshot(
    venue: string,
    symbol: string,
    bids: seq<Level>,
    asks: seq<Level>,
    sequence: nat,
    sourceTimestampMs: Option<nat>,
    receivedTimestampMs: nat)

  datatype Sweep = Sweep(quantity: real, quoteAmount: real, vwap: real, worstPrice: real)

  datatype BookError =
    | EmptySide
    | NonPositiveLevel
    | NotStrictlySorted
    | Crossed
    | ZeroDepth
    | InvalidUpdate

  datatype SweepError =
    | NonPositiveTarget
    | InsufficientDepth(requested: real, available: real)

  function LevelsOf(book: OrderBookSnapshot, side: BookSide): seq<Level> {
    match side
    case Bids => book.bids
    case Asks => book.asks
  }

  // ---------------------------------------------------------------- validation

  predicate AllPositive(levels: seq<Level>) {
    forall i | 0 <= i < |levels| :: levels[i].price > 0.0 && levels[i].quantity > 0.0
  }

  /** `p` is strictly preferable to `q` for whoever consumes this side of the book. */
  predicate Better(side: BookSide, p: real, q: real) {
    if side == Bids then p > q else p < q
  }

  /** The window-of-two test the validator performs. */
  predicate NeighboursSorted(side: BookSide, levels: seq<Level>) {
    forall i | 0 <= i < |levels| - 1 :: Better(side, levels[i].price, levels[i + 1].price)
  }

  /** What the window-of-two test is for: every earlier level is strictly preferable. */
  predicate BestFirst(side: BookSide, levels: seq<Level>) {
    forall i, j | 0 <= i < j < |levels| :: Better(side, levels[i].price, levels[j].price)
  }

  function ValidateLevels(side: BookSide, levels: seq<Level>): Result<(), BookError> {
    if !AllPositive(levels) then Err(NonPositiveLevel)
    else if !NeighboursSorted(side, levels) then Err(NotStrictlySorted)
    else Ok(())
  }

  function Validate(book: OrderBookSnapshot): Result<(), BookError> {
    if book.bids == [] || book.asks == [] then Err(EmptySide)
    else
      var bids := ValidateLevels(Bids, book.bids);
      if bids.Err? then bids
      else
        var asks := ValidateLevels(Asks, book.asks);
        if asks.Err? then asks
        else if book.bids[0].price >= book.asks[0].price then Err(Crossed)
        else Ok(())
  }

  /** One side of a book as consumers may rely on it. */
  predicate GoodSide(side: BookSide, levels: seq<Level>) {
    AllPositive(levels) && BestFirst(side, levels)
  }

  /** Every bid is below every ask, both sides are populated and strictly ordered. */
  predicate GoodBook(book: OrderBookSnapshot) {
    && book.bids != [] && book.asks != []
    && GoodSide(Bids, book.bids) && GoodSide(Asks, book.asks)
    && forall i, j | 0 <= i < |book.bids| && 0 <= j < |book.asks| :: book.bids[i].price < book.asks[j].price
  }

  lemma {:induction false} NeighboursSortedIsBestFirst(side: BookSide, levels: seq<Level>, i: nat, j: nat)
    requires NeighboursSorted(side, levels)
    requires i < j < |levels|
    ensures Better(side, levels[i].price, levels[j].price)
    decreases j - i
  {
    assert Better(side, levels[i].price, levels[i + 1].price);
    if i + 1 < j {
      NeighboursSortedIsBestFirst(side, levels, i + 1, j);
    }
  }

  /** The validator's local tests accept exactly the globally ordered, uncrossed books. */
  lemma ValidateAcceptsExactlyGoodBooks(book: OrderBookSnapshot)
    ensures Validate(book).Ok? <==> GoodBook(book)
  {
    forall side: BookSide, i: nat, j: nat |
      NeighboursSorted(side, LevelsOf(book, side)) && i < j < |LevelsOf(book, side)|
      ensures Better(side, LevelsOf(book, side)[i].price, LevelsOf(book, side)[j].price)
    {
      NeighboursSortedIsBestFirst(side, LevelsOf(book, side), i, j);
    }
    if Validate(book).Ok? {
      assert BestFirst(Bids, LevelsOf(book, Bids)) && BestFirst(Asks, LevelsOf(book, Asks));
      forall i, j | 0 <= i < |book.bids| && 0 <= j < |book.asks|
        ensures book.bids[i].price < book.asks[j].price
      {
        assert i == 0 || Better(Bids, book.bids[0].price, book.bids[i].price);
        assert j == 0 || Better(Asks, book.asks[0].price, book.asks[j].price);
      }
    }
  }

  // ---------------------------------------------------------------- allocations

  /** Total quantity on offer. */
  function Depth(levels: seq<Level>): real {
    if levels == [] then 0.0 else levels[0].quantity + Depth(levels[1..])
  }

  /** An allocation takes between nothing and everything from each level. */
  predicate Allocation(levels: seq<Level>, taken: seq<real>) {
    |taken| == |levels| && forall i | 0 <= i < |levels| :: 0.0 <= taken[i] <= levels[i].quantity
  }

  /** Quote value of an allocation at the levels' own prices. */
  function QuoteOf(levels: seq<Level>, taken: seq<real>): real
    requires |taken| == |levels|
  {
    if levels == [] then 0.0 else Times(taken[0], levels[0].price) + QuoteOf(levels[1..], taken[1..])
  }

  /** No allocation of the same size is cheaper to buy (asks) or earns more when sold (bids). */
  ghost predicate BestQuote(side: BookSide, levels: seq<Level>, target: real, quote: real) {
    && (exists taken :: Allocation(levels, taken) && Sum(taken) == target && QuoteOf(levels, taken) == quote)
    && (forall taken | Allocation(levels, taken) && Sum(taken) == target ::
          NoBetterThan(side, QuoteOf(levels, taken), quote))
  }

  /** `x` is at best as good as `y` for the consumer of this side: dearer asks, poorer bids. */
  predicate NoBetterThan(side: BookSide, x: real, y: real) {
    if side == Bids then x <= y else x >= y
  }

  /** `taken` exhausts every level preferable to `cut` and leaves every worse level alone. */
  predicate CutAt(side: BookSide, levels: seq<Level>, taken: seq<real>, cut: real) {
    && |taken| == |levels|
    && forall i | 0 <= i < |levels| ::
         && (Better(side, levels[i].price, cut) ==> taken[i] == levels[i].quantity)
         && (Better(side, cut, levels[i].price) ==> taken[i] == 0.0)
  }

  /** Weak duality: against a cut at price `cut`, any other allocation pays at least `cut`
      for each unit it takes more (and saves at most `cut` for each unit it takes less). */
  lemma {:induction false} CutIsMarginal(side: BookSide, levels: seq<Level>, greedy: seq<real>, other: seq<real>, cut: real)
    requires CutAt(side, levels, greedy, cut)
    requires Allocation(levels, greedy) && Allocation(levels, other)
    ensures NoBetterThan(side, QuoteOf(levels, other) - QuoteOf(levels, greedy), Times(cut, Sum(other) - Sum(greedy)))
  {
    hide Times;
    if levels == [] {
      TimesDistributes(cut, 0.0, 0.0);
    } else {
      CutIsMarginal(side, levels[1..], greedy[1..], other[1..], cut);
      MarginalTerm(side, levels[0], greedy[0], other[0], cut);
      TimesDistributes(cut, other[0] - greedy[0], Sum(other[1..]) - Sum(greedy[1..]));
    }
  }

  lemma MarginalTerm(side: BookSide, level: Level, greedy: real, other: real, cut: real)
    requires 0.0 <= greedy <= level.quantity && 0.0 <= other <= level.quantity
    requires Better(side, level.price, cut) ==> greedy == level.quantity
    requires Better(side, cut, level.price) ==> greedy == 0.0
    ensures NoBetterThan(side, Times(other, level.price) - Times(greedy, level.price), Times(cut, other - greedy))
  {
    hide Times;
    var d, e := other - greedy, level.price - cut;
    TimesDistributes(level.price, other, greedy);
    TimesDistributes(d, level.price, cut);
    TimesSign(d, e);
    TimesSign(e, d);
  }

  // ---------------------------------------------------------------- sweep

  datatype Walk = Filled(quote: real, worst: real) | Exhausted(left: real)

  /** Where the sweep loop ends when it starts with these running values. */
  function WalkLevels(levels: seq<Level>, remaining: real, quote: real, worst: real): Walk {
    if levels == [] then Exhausted(remaining)
    else
      var taken := Min(remaining, levels[0].quantity);
      var quote' := quote + Times(taken, levels[0].price);
      var worst' := if taken > 0.0 then levels[0].price else worst;
      if remaining - taken == 0.0 then Filled(quote', worst')
      else WalkLevels(levels[1..], remaining - taken, quote', worst')
  }

  function SweepResult(levels: seq<Level>, target: real): Result<Sweep, SweepError> {
    if target <= 0.0 then Err(NonPositiveTarget)
    else
      match WalkLevels(levels, target, 0.0, 0.0)
      case Filled(quote, worst) => Ok(Sweep(target, quote, Over(quote, target), worst))
      case Exhausted(left) => Err(InsufficientDepth(target, target - left))
  }

  lemma WalkStep(levels: seq<Level>, remaining: real, quote: real, worst: real)
    requires levels != []
    ensures var taken := Min(remaining, levels[0].quantity);
            var quote' := quote + Times(taken, levels[0].price);
            var worst' := if taken > 0.0 then levels[0].price else worst;
            WalkLevels(levels, remaining, quote, worst) ==
            if remaining - taken == 0.0 then Filled(quote', worst')
            else WalkLevels(levels[1..], remaining - taken, quote', worst')
  {
  }

  lemma WalkEnds(remaining: real, quote: real, worst: real)
    ensures WalkLevels([], remaining, quote, worst) == Exhausted(remaining)
  {
  }

  method SweepBook(book: OrderBookSnapshot, side: BookSide, target: real) returns (r: Result<Sweep, SweepError>)
    ensures r == SweepResult(LevelsOf(book, side), target)
  {
    if target <= 0.0 {
      return Err(NonPositiveTarget);
    }
    hide Times, Over, WalkLevels;
    var levels := LevelsOf(book, side);
    var remaining := target;
    var quoteAmount := 0.0;
    var worstPrice := 0.0;
    for i := 0 to |levels|
      invariant WalkLevels(levels, target, 0.0, 0.0) == WalkLevels(levels[i..], remaining, quoteAmount, worstPrice)
    {
      var level := levels[i];
      var taken := Min(remaining, level.quantity);
      WalkStep(levels[i..], remaining, quoteAmount, worstPrice);
      assert levels[i..][1..] == levels[i + 1..];
      quoteAmount := quoteAmount + Times(taken, level.price);
      remaining := remaining - taken;
      if taken > 0.0 {
        worstPrice := level.price;
      }
      if remaining == 0.0 {
        assert WalkLevels(levels, target, 0.0, 0.0) == Filled(quoteAmount, worstPrice);
        return Ok(Sweep(target, quoteAmount, Over(quoteAmount, target), worstPrice));
      }
    }
    WalkEnds(remaining, quoteAmount, worstPrice);
    return Err(InsufficientDepth(target, target - remaining));
  }

  /** The allocation the sweep makes. */
  function Greedy(levels: seq<Level>, target: real): (taken: seq<real>)
    ensures |taken| == |levels|
  {
    if levels == [] then []
    else
      var t := Min(target, levels[0].quantity);
      [t] + Greedy(levels[1..], target - t)
  }

  lemma {:induction false} DepthNonNegative(levels: seq<Level>)
    requires AllPositive(levels)
    ensures Depth(levels) >= 0.0
  {
    if levels != [] {
      DepthNonNegative(levels[1..]);
    }
  }

  lemma {:induction false} GreedyFillsWhatFits(levels: seq<Level>, target: real)
    requires AllPositive(levels) && target >= 0.0
    ensures Allocation(levels, Greedy(levels, target))
    ensures Sum(Greedy(levels, target)) == Min(target, Depth(levels))
  {
    if levels != [] {
      var t := Min(target, levels[0].quantity);
      GreedyFillsWhatFits(levels[1..], target - t);
      DepthNonNegative(levels[1..]);
      var g, rest := Greedy(levels, target), Greedy(levels[1..], target - t);
      assert g[1..] == rest;
      forall i | 0 <= i < |levels| ensures 0.0 <= g[i] <= levels[i].quantity {
        if i > 0 {
          assert g[i] == rest[i - 1] && levels[i] == levels[1..][i - 1];
        }
      }
    }
  }

  lemma {:induction false} GreedyOfNothing(levels: seq<Level>)
    requires AllPositive(levels)
    ensures forall i | 0 <= i < |levels| :: Greedy(levels, 0.0)[i] == 0.0
    ensures QuoteOf(levels, Greedy(levels, 0.0)) == 0.0
  {
    hide Times;
    if levels != [] {
      GreedyOfNothing(levels[1..]);
      assert Greedy(levels, 0.0)[1..] == Greedy(levels[1..], 0.0);
      TimesDistributes(levels[0].price, 0.0, 0.0);
    }
  }

  /** The loop ends filled exactly when depth suffices, having paid for the greedy allocation. */
  lemma {:induction false} WalkPaysGreedy(levels: seq<Level>, target: real, quote: real, worst: real)
    requires AllPositive(levels) && target > 0.0
    ensures var end := WalkLevels(levels, target, quote, worst);
            && (end.Filled? <==> Depth(levels) >= target)
            && (end.Exhausted? ==> end.left == target - Depth(levels))
            && (end.Filled? ==> end.quote == quote + QuoteOf(levels, Greedy(levels, target)))
  {
    hide Times;
    if levels != [] {
      var rest := levels[1..];
      var t := Min(target, levels[0].quantity);
      WalkStep(levels, target, quote, worst);
      DepthNonNegative(rest);
      assert Greedy(levels, target)[1..] == Greedy(rest, target - t);
      if target - t == 0.0 {
        GreedyOfNothing(rest);
      } else {
        WalkPaysGreedy(rest, target - t, quote + Times(t, levels[0].price), levels[0].price);
      }
    }
  }

  /** The last price the loop consumed is a level's price, and a cut of the greedy allocation. */
  lemma {:induction false} WalkEndsOnCut(side: BookSide, levels: seq<Level>, target: real, quote: real, worst: real)
    returns (k: nat)
    requires GoodSide(side, levels) && target > 0.0
    requires WalkLevels(levels, target, quote, worst).Filled?
    ensures var end := WalkLevels(levels, target, quote, worst);
            k < |levels| && end.worst == levels[k].price && CutAt(side, levels, Greedy(levels, target), end.worst)
  {
    hide Times;
    var rest := levels[1..];
    var t := Min(target, levels[0].quantity);
    var greedy := Greedy(levels, target);
    WalkStep(levels, target, quote, worst);
    assert greedy[1..] == Greedy(rest, target - t);
    if target - t == 0.0 {
      k := 0;
      GreedyOfNothing(rest);
      CutExtends(side, levels, greedy, levels[0].price);
    } else {
      var k' := WalkEndsOnCut(side, rest, target - t, quote + Times(t, levels[0].price), levels[0].price);
      k := k' + 1;
      CutExtends(side, levels, greedy, levels[k].price);
    }
  }

  lemma CutExtends(side: BookSide, levels: seq<Level>, taken: seq<real>, cut: real)
    requires GoodSide(side, levels) && levels != [] && |taken| == |levels|
    requires || (cut == levels[0].price && forall i | 0 <= i < |taken[1..]| :: taken[1..][i] == 0.0)
             || ( && (exists k | 1 <= k < |levels| :: levels[k].price == cut)
                  && taken[0] == levels[0].quantity && CutAt(side, levels[1..], taken[1..], cut))
    ensures CutAt(side, levels, taken, cut)
  {
    forall i | 0 <= i < |levels|
      ensures Better(side, levels[i].price, cut) ==> taken[i] == levels[i].quantity
      ensures Better(side, cut, levels[i].price) ==> taken[i] == 0.0
    {
      if i > 0 {
        assert taken[i] == taken[1..][i - 1] && levels[i] == levels[1..][i - 1];
        assert Better(side, levels[0].price, levels[i].price);
      }
    }
  }

  /** A sweep that fits reports the greedy allocation's quote, and a cut of the book as worst price. */
  lemma SweepPaysGreedy(side: BookSide, levels: seq<Level>, target: real) returns (k: nat)
    requires GoodSide(side, levels) && 0.0 < target <= Depth(levels)
    ensures k < |levels|
    ensures var quote := QuoteOf(levels, Greedy(levels, target));
            SweepResult(levels, target) == Ok(Sweep(target, quote, Over(quote, target), levels[k].price))
    ensures CutAt(side, levels, Greedy(levels, target), levels[k].price)
    ensures Allocation(levels, Greedy(levels, target)) && Sum(Greedy(levels, target)) == target
  {
    hide Times, Over;
    WalkPaysGreedy(levels, target, 0.0, 0.0);
    k := WalkEndsOnCut(side, levels, target, 0.0, 0.0);
    GreedyFillsWhatFits(levels, target);
  }

  /** A cut allocation is optimal among all allocations of its size. */
  lemma CutIsOptimal(side: BookSide, levels: seq<Level>, greedy: seq<real>, cut: real)
    requires Allocation(levels, greedy) && CutAt(side, levels, greedy, cut)
    ensures BestQuote(side, levels, Sum(greedy), QuoteOf(levels, greedy))
  {
    hide Times;
    forall taken | Allocation(levels, taken) && Sum(taken) == Sum(greedy)
      ensures NoBetterThan(side, QuoteOf(levels, taken), QuoteOf(levels, greedy))
    {
      CutIsMarginal(side, levels, greedy, taken, cut);
      TimesDistributes(cut, 0.0, 0.0);
    }
  }

  /** On a valid side the sweep succeeds exactly when total depth covers the target, and its
      quote is then the optimum over every way of taking the target from the levels. */
  lemma SweepIsOptimal(side: BookSide, levels: seq<Level>, target: real)
    requires GoodSide(side, levels)
    ensures target <= 0.0 ==> SweepResult(levels, target) == Err(NonPositiveTarget)
    ensures target > 0.0 && Depth(levels) < target ==>
              SweepResult(levels, target) == Err(InsufficientDepth(target, Depth(levels)))
    ensures 0.0 < target <= Depth(levels) ==>
              && SweepResult(levels, target).Ok?
              && SweepResult(levels, target).value.quantity == target
              && BestQuote(side, levels, target, SweepResult(levels, target).value.quoteAmount)
  {
    hide Times, Over;
    if target > 0.0 {
      if Depth(levels) < target {
        WalkPaysGreedy(levels, target, 0.0, 0.0);
      } else {
        var k := SweepPaysGreedy(side, levels, target);
        CutIsOptimal(side, levels, Greedy(levels, target), levels[k].price);
      }
    }
  }

  lemma {:induction false} QuoteBounded(side: BookSide, levels: seq<Level>, taken: seq<real>, bound: real)
    requires Allocation(levels, taken)
    requires forall i | 0 <= i < |levels| && taken[i] > 0.0 :: NoBetterThan(side, levels[i].price, bound)
    ensures NoBetterThan(side, QuoteOf(levels, taken), Times(bound, Sum(taken)))
  {
    hide Times;
    TimesDistributes(bound, 0.0, 0.0);
    if levels != [] {
      QuoteBounded(side, levels[1..], taken[1..], bound);
      TimesDistributes(bound, taken[0], Sum(taken[1..]));
      TimesDistributes(levels[0].price, 0.0, 0.0);
      if taken[0] > 0.0 {
        assert NoBetterThan(side, levels[0].price, bound);
        MulMonotone(side, taken[0], levels[0].price, bound);
      }
    }
  }

  lemma MulMonotone(side: BookSide, x: real, p: real, q: real)
    requires x >= 0.0 && NoBetterThan(side, p, q)
    ensures NoBetterThan(side, Times(x, p), Times(q, x)) && NoBetterThan(side, Times(x, p), Times(x, q))
  {
    hide Times;
    TimesDistributes(x, p, q);
    TimesSign(x, p - q);
  }

  function Opposite(side: BookSide): BookSide {
    if side == Bids then Asks else Bids
  }

  /** Nothing on a valid side trades better than its first level. */
  lemma BestLevelBounds(side: BookSide, levels: seq<Level>, taken: seq<real>)
    requires GoodSide(side, levels) && levels != [] && Allocation(levels, taken)
    ensures NoBetterThan(side, QuoteOf(levels, taken), Times(levels[0].price, Sum(taken)))
  {
    hide Times;
    QuoteBounded(side, levels, taken, levels[0].price);
  }

  lemma CutBounds(side: BookSide, levels: seq<Level>, taken: seq<real>, cut: real)
    requires Allocation(levels, taken) && CutAt(side, levels, taken, cut)
    ensures NoBetterThan(Opposite(side), QuoteOf(levels, taken), Times(cut, Sum(taken)))
  {
    hide Times;
    forall i | 0 <= i < |levels| && taken[i] > 0.0 ensures NoBetterThan(Opposite(side), levels[i].price, cut) {
      assert !Better(side, cut, levels[i].price);
    }
    QuoteBounded(Opposite(side), levels, taken, cut);
  }

  lemma CutAverages(side: BookSide, levels: seq<Level>, taken: seq<real>, cut: real, target: real)
    requires GoodSide(side, levels) && levels != []
    requires Allocation(levels, taken) && CutAt(side, levels, taken, cut)
    requires Sum(taken) == target > 0.0
    ensures var vwap := Over(QuoteOf(levels, taken), target);
            && Times(vwap, target) == QuoteOf(levels, taken)
            && NoBetterThan(side, vwap, levels[0].price) && NoBetterThan(side, cut, vwap)
  {
    hide Times, Over;
    BestLevelBounds(side, levels, taken);
    CutBounds(side, levels, taken, cut);
    OverTimes(QuoteOf(levels, taken), target);
    OverBounds(QuoteOf(levels, taken), target, levels[0].price);
    OverBounds(QuoteOf(levels, taken), target, cut);
  }

  /** The money for everything on these levels. */
  function FullQuote(levels: seq<Level>): real {
    if levels == [] then 0.0 else Times(levels[0].quantity, levels[0].price) + FullQuote(levels[1..])
  }

  /** The loop stops inside level k: the levels before it, paid in full, do not reach the target,
      and the rest of the target comes from level k at its price. */
  lemma {:induction false} WalkStopsAt(levels: seq<Level>, target: real, quote: real, worst: real) returns (k: nat)
    requires AllPositive(levels) && target > 0.0 && WalkLevels(levels, target, quote, worst).Filled?
    ensures k < |levels|
    ensures Depth(levels[..k]) < target <= Depth(levels[..k]) + levels[k].quantity
    ensures var end := WalkLevels(levels, target, quote, worst);
            && end.worst == levels[k].price
            && end.quote == quote + FullQuote(levels[..k]) + Times(target - Depth(levels[..k]), levels[k].price)
  {
    hide Times;
    var t := Min(target, levels[0].quantity);
    WalkStep(levels, target, quote, worst);
    if target - t == 0.0 {
      k := 0;
    } else {
      var k' := WalkStopsAt(levels[1..], target - t, quote + Times(t, levels[0].price), levels[0].price);
      k := k' + 1;
      assert levels[..k][1..] == levels[1..][..k'];
    }
  }

  /** A sweep ends inside some level k, whose price is the worst it reports: what is before k does
      not reach the target, and with k it does. The quote is that of the full levels before k and
      of the rest at k's price, and the average price lies between the first level's and k's. */
  lemma VwapBetweenBestAndWorst(side: BookSide, levels: seq<Level>, target: real) returns (k: nat)
    requires GoodSide(side, levels) && 0.0 < target <= Depth(levels)
    ensures SweepResult(levels, target).Ok? && levels != []
    ensures k < |levels| && Depth(levels[..k]) < target <= Depth(levels[..k]) + levels[k].quantity
    ensures var s := SweepResult(levels, target).value;
            && s.worstPrice == levels[k].price
            && s.quoteAmount == FullQuote(levels[..k]) + Times(target - Depth(levels[..k]), levels[k].price)
            && Times(s.vwap, target) == s.quoteAmount
            && NoBetterThan(side, s.vwap, levels[0].price)
            && NoBetterThan(side, s.worstPrice, s.vwap)
  {
    hide Times, Over;
    var cut := SweepPaysGreedy(side, levels, target);
    CutAverages(side, levels, Greedy(levels, target), levels[cut].price, target);
    WalkPaysGreedy(levels, target, 0.0, 0.0);
    k := WalkStopsAt(levels, target, 0.0, 0.0);
  }
}
