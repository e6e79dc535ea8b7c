/** The incrementally maintained order book (crates/core/src/local_book.rs). */
module LocalBook {
  import opened Common
  import opened Market

  datatype LevelUpdate = LevelUpdate(price: real, quantity: real)

  /** One side of the book: the quantity standing at each price. */
  type Side = map<real, real>

  // ---------------------------------------------------------------- ordered iteration

  lemma SomeElement<T>(s: set<T>) returns (x: T)
    requires s != {}
    ensures x in s
  {
    x :| x in s;
  }

  lemma {:induction false} LeastExists(s: set<real>) returns (k: real)
    requires s != {}
    ensures k in s && forall x | x in s :: k <= x
  {
    var x := SomeElement(s);
    var rest := s - {x};
    k := x;
    if rest != {} {
      var m := LeastExists(rest);
      k := if x <= m then x else m;
    }
    forall y | y in s ensures k <= y {
      assert y == x || y in rest;
    }
  }

  function Least(s: set<real>): (k: real)
    requires s != {}
    ensures k in s && forall x | x in s :: k <= x
  {
    LeastWitness(s);
    var k :| k in s && forall x | x in s :: k <= x;
    k
  }

  lemma LeastWitness(s: set<real>)
    requires s != {}
    ensures exists k :: k in s && forall x | x in s :: k <= x
  {
    var k := LeastExists(s);
  }

  /** The side's levels by ascending price, as the ordered map iterates them. */
  function Ascending(m: Side): seq<Level>
    decreases m.Keys
  {
    if m.Keys == {} then []
    else
      var k := Least(m.Keys);
      [Level(k, m[k])] + Ascending(m - {k})
  }

  function Reversed(levels: seq<Level>): (r: seq<Level>)
    ensures |r| == |levels| && forall i | 0 <= i < |r| :: r[i] == levels[|levels| - 1 - i]
  {
    seq(|levels|, i requires 0 <= i < |levels| => levels[|levels| - 1 - i])
  }

  /** Best level first: bids are iterated in reverse, asks as they stand. */
  function BestFirstLevels(side: BookSide, m: Side): seq<Level> {
    if side == Bids then Reversed(Ascending(m)) else Ascending(m)
  }

  function Take(levels: seq<Level>, depth: nat): seq<Level> {
    if depth < |levels| then levels[..depth] else levels
  }

  /** Collecting levels into a map: a later level overrides an earlier one at the same price. */
  function Collect(levels: seq<Level>): Side {
    if levels == [] then map[]
    else Collect(levels[..|levels| - 1])[levels[|levels| - 1].price := levels[|levels| - 1].quantity]
  }

  predicate Holds(m: Side, level: Level) {
    level.price in m && m[level.price] == level.quantity
  }

  predicate Ascends(listed: seq<Level>) {
    forall i, j | 0 <= i < j < |listed| :: listed[i].price < listed[j].price
  }

  predicate AllHeld(listed: seq<Level>, m: Side) {
    forall i | 0 <= i < |listed| :: Holds(m, listed[i])
  }

  predicate Covers(listed: seq<Level>, m: Side) {
    forall p | p in m :: Level(p, m[p]) in listed
  }

  /** A listing of a side: ascending, and holding exactly the side's levels. */
  predicate Lists(listed: seq<Level>, m: Side) {
    |listed| == |m| && Ascends(listed) && AllHeld(listed, m) && Covers(listed, m)
  }

  lemma PrependAscends(first: Level, tail: seq<Level>)
    requires Ascends(tail) && forall i | 0 <= i < |tail| :: first.price < tail[i].price
    ensures Ascends([first] + tail)
  {
    var all := [first] + tail;
    forall i, j | 0 <= i < j < |all| ensures all[i].price < all[j].price {
      assert all[j] == tail[j - 1];
      if i > 0 { assert all[i] == tail[i - 1]; }
    }
  }

  lemma HeldWithout(m: Side, k: real, tail: seq<Level>)
    requires k in m && (forall p | p in m :: k <= p) && AllHeld(tail, m - {k})
    ensures AllHeld([Level(k, m[k])] + tail, m)
    ensures forall i | 0 <= i < |tail| :: k < tail[i].price
  {
    forall i | 0 <= i < |tail| ensures Holds(m, tail[i]) && k < tail[i].price {
      assert Holds(m - {k}, tail[i]);
    }
  }

  lemma CoversWithout(m: Side, k: real, tail: seq<Level>)
    requires k in m && Covers(tail, m - {k})
    ensures Covers([Level(k, m[k])] + tail, m)
  {
    var rest, all := m - {k}, [Level(k, m[k])] + tail;
    forall p | p in m ensures Level(p, m[p]) in all {
      if p == k { assert all[0] == Level(p, m[p]); } else { assert p in rest && Level(p, rest[p]) in tail; }
    }
  }

  lemma SizeWithout(m: Side, k: real)
    requires k in m
    ensures |m| == |m - {k}| + 1
  {
    var rest := m - {k};
    assert m.Keys == rest.Keys + {k} && |m.Keys| == |m| && |rest.Keys| == |rest|;
  }

  lemma {:induction false} AscendingListsMap(m: Side)
    ensures Lists(Ascending(m), m)
    decreases m.Keys
  {
    if m.Keys != {} {
      hide Ascends, AllHeld, Covers;
      var k := Least(m.Keys);
      var tail := Ascending(m - {k});
      AscendingListsMap(m - {k});
      SizeWithout(m, k);
      HeldWithout(m, k, tail);
      PrependAscends(Level(k, m[k]), tail);
      CoversWithout(m, k, tail);
    } else {
      assert |m.Keys| == |m|;
    }
  }

  lemma {:induction false} CollectHolds(levels: seq<Level>)
    requires forall i, j | 0 <= i < j < |levels| :: levels[i].price != levels[j].price
    ensures forall i | 0 <= i < |levels| :: Holds(Collect(levels), levels[i])
    ensures forall p | p in Collect(levels) :: exists i | 0 <= i < |levels| :: levels[i].price == p
  {
    if levels != [] {
      var n := |levels| - 1;
      var init := levels[..n];
      CollectHolds(init);
      forall i | 0 <= i < |levels| ensures Holds(Collect(levels), levels[i]) {
        if i < n { assert init[i] == levels[i] && Holds(Collect(init), init[i]); }
      }
      forall p | p in Collect(levels) ensures exists i | 0 <= i < |levels| :: levels[i].price == p {
        if p == levels[n].price {
          assert levels[n].price == p;
        } else {
          assert p in Collect(init);
          var i :| 0 <= i < |init| && init[i].price == p;
          assert levels[i].price == p;
        }
      }
    }
  }

  /** An ascending list without repeats is determined by what it contains. */
  lemma {:induction false} AscendingUnique(a: seq<Level>, b: seq<Level>)
    requires forall i, j | 0 <= i < j < |a| :: a[i].price < a[j].price
    requires forall i, j | 0 <= i < j < |b| :: b[i].price < b[j].price
    requires forall x :: x in a <==> x in b
    ensures a == b
  {
    assert b == [] || b[0] in b;
    if a != [] {
      assert a[0] in a;
      var i :| 0 <= i < |b| && b[i] == a[0];
      var j :| 0 <= j < |a| && a[j] == b[0];
      assert a[0] == b[0];
      forall x ensures x in a[1..] <==> x in b[1..] {
        TailMembership(a, x);
        TailMembership(b, x);
      }
      AscendingUnique(a[1..], b[1..]);
      assert a == [a[0]] + a[1..] && b == [b[0]] + b[1..];
    }
  }

  lemma TailMembership(a: seq<Level>, x: Level)
    requires a != [] && forall i, j | 0 <= i < j < |a| :: a[i].price < a[j].price
    ensures x in a[1..] <==> x in a && x != a[0]
  {
    if x in a[1..] {
      var k :| 0 <= k < |a[1..]| && a[1..][k] == x;
      assert a[k + 1] == x;
    }
    if x in a && x != a[0] {
      var k :| 0 <= k < |a| && a[k] == x;
      assert a[1..][k - 1] == x;
    }
  }

  lemma AscendingOfCollect(levels: seq<Level>)
    requires forall i, j | 0 <= i < j < |levels| :: levels[i].price < levels[j].price
    ensures Ascending(Collect(levels)) == levels
  {
    var m := Collect(levels);
    var listed := Ascending(m);
    CollectHolds(levels);
    AscendingListsMap(m);
    forall k | 0 <= k < |listed| ensures listed[k] in levels {
      assert Holds(m, listed[k]);
      var i :| 0 <= i < |levels| && levels[i].price == listed[k].price;
      assert Holds(m, levels[i]);
    }
    forall i | 0 <= i < |levels| ensures levels[i] in listed {
      assert Holds(m, levels[i]);
      assert Level(levels[i].price, m[levels[i].price]) in listed;
    }
    assert forall x :: x in listed <==> x in levels;
    AscendingUnique(listed, levels);
  }

  lemma CollectReversed(levels: seq<Level>)
    requires forall i, j | 0 <= i < j < |levels| :: levels[i].price != levels[j].price
    ensures Collect(Reversed(levels)) == Collect(levels)
  {
    var r := Reversed(levels);
    CollectHolds(levels);
    CollectHolds(r);
    var m, n := Collect(levels), Collect(r);
    forall p | p in m ensures p in n && n[p] == m[p] {
      var i :| 0 <= i < |levels| && levels[i].price == p;
      assert Holds(m, levels[i]) && r[|levels| - 1 - i] == levels[i] && Holds(n, r[|levels| - 1 - i]);
    }
    forall p | p in n ensures p in m {
      var i :| 0 <= i < |r| && r[i].price == p;
      assert Holds(m, levels[|levels| - 1 - i]);
    }
  }

  lemma CollectOfAscending(m: Side)
    ensures Collect(Ascending(m)) == m
  {
    AscendingListsMap(m);
    var listed := Ascending(m);
    CollectHolds(listed);
    var n := Collect(listed);
    forall p | p in m ensures p in n && n[p] == m[p] {
      var i :| 0 <= i < |listed| && listed[i] == Level(p, m[p]);
      assert Holds(n, listed[i]);
    }
    forall p | p in n ensures p in m {
      var i :| 0 <= i < |listed| && listed[i].price == p;
      assert Holds(m, listed[i]);
    }
  }

  /** Listing a side best-first and collecting it back restores the side. */
  lemma CollectOfListing(side: BookSide, m: Side)
    ensures Collect(BestFirstLevels(side, m)) == m
  {
    hide Ascending, Collect;
    CollectOfAscending(m);
    AscendingListsMap(m);
    CollectReversed(Ascending(m));
  }

  /** Collecting well-ordered levels and listing them restores the levels. */
  lemma ListingOfCollect(side: BookSide, levels: seq<Level>)
    requires BestFirst(side, levels)
    ensures BestFirstLevels(side, Collect(levels)) == levels
  {
    hide Ascending, Collect;
    forall i, j | 0 <= i < j < |levels| ensures levels[i].price != levels[j].price {
      assert Better(side, levels[i].price, levels[j].price);
    }
    if side == Asks {
      AscendsOfAsks(levels);
      AscendingOfCollect(levels);
    } else {
      AscendsOfBids(levels);
      AscendingOfCollect(Reversed(levels));
      CollectReversed(levels);
      assert Reversed(Reversed(levels)) == levels;
    }
  }

  lemma AscendsOfAsks(levels: seq<Level>)
    requires BestFirst(Asks, levels)
    ensures Ascends(levels)
  {
    forall i, j | 0 <= i < j < |levels| ensures levels[i].price < levels[j].price {
      assert Better(Asks, levels[i].price, levels[j].price);
    }
  }

  lemma AscendsOfBids(levels: seq<Level>)
    requires BestFirst(Bids, levels)
    ensures Ascends(Reversed(levels))
  {
    var r := Reversed(levels);
    forall i, j | 0 <= i < j < |levels| ensures r[i].price < r[j].price {
      assert Better(Bids, levels[|levels| - 1 - j].price, levels[|levels| - 1 - i].price);
    }
  }

  // ---------------------------------------------------------------- updates

  predicate ValidUpdate(u: LevelUpdate) {
    u.price > 0.0 && u.quantity >= 0.0
  }

  function ApplyUpdate(m: Side, u: LevelUpdate): Side {
    if u.quantity == 0.0 then m - {u.price} else m[u.price := u.quantity]
  }

  datatype Applied = Applied(side: Side, ok: bool)

  /** The side after a batch; an invalid update stops the batch with the earlier ones in place. */
  function ApplyAll(m: Side, updates: seq<LevelUpdate>): Applied
    decreases |updates|
  {
    if updates == [] then Applied(m, true)
    else if !ValidUpdate(updates[0]) then Applied(m, false)
    else ApplyAll(ApplyUpdate(m, updates[0]), updates[1..])
  }

  method ApplySide(levels: Side, updates: seq<LevelUpdate>) returns (out: Side, r: Result<(), BookError>)
    ensures Applied(out, r.Ok?) == ApplyAll(levels, updates)
    ensures r.Err? ==> r.error == InvalidUpdate
  {
    out := levels;
    for i := 0 to |updates|
      invariant ApplyAll(levels, updates) == ApplyAll(out, updates[i..])
    {
      var update := updates[i];
      assert updates[i..][1..] == updates[i + 1..];
      if update.price <= 0.0 || update.quantity < 0.0 {
        return out, Err(InvalidUpdate);
      }
      if update.quantity == 0.0 {
        out := out - {update.price};
      } else {
        out := out[update.price := update.quantity];
      }
    }
    r := Ok(());
  }

  /** The last update of a batch that names this price. */
  function LastUpdate(updates: seq<LevelUpdate>, price: real): Option<real> {
    if updates == [] then None
    else
      var last := updates[|updates| - 1];
      if last.price == price then Some(last.quantity) else LastUpdate(updates[..|updates| - 1], price)
  }

  function Standing(m: Side, price: real): Option<real> {
    if price in m then Some(m[price]) else None
  }

  lemma {:induction false} ApplyConcat(m: Side, a: seq<LevelUpdate>, b: seq<LevelUpdate>)
    requires ApplyAll(m, a).ok
    ensures ApplyAll(m, a + b) == ApplyAll(ApplyAll(m, a).side, b)
    decreases |a|
  {
    if a == [] {
      assert a + b == b;
    } else {
      assert (a + b)[1..] == a[1..] + b;
      ApplyConcat(ApplyUpdate(m, a[0]), a[1..], b);
    }
  }

  lemma {:induction false} ApplyFailsEarly(m: Side, a: seq<LevelUpdate>, b: seq<LevelUpdate>)
    requires !ApplyAll(m, a).ok
    ensures ApplyAll(m, a + b) == ApplyAll(m, a)
    decreases |a|
  {
    assert (a + b)[0] == a[0];
    if ValidUpdate(a[0]) {
      assert (a + b)[1..] == a[1..] + b;
      ApplyFailsEarly(ApplyUpdate(m, a[0]), a[1..], b);
    }
  }

  lemma {:induction false} BatchOkIffValid(m: Side, updates: seq<LevelUpdate>)
    ensures ApplyAll(m, updates).ok <==> forall i | 0 <= i < |updates| :: ValidUpdate(updates[i])
    decreases |updates|
  {
    if updates != [] && ValidUpdate(updates[0]) {
      BatchOkIffValid(ApplyUpdate(m, updates[0]), updates[1..]);
      assert forall i | 0 < i < |updates| :: updates[i] == updates[1..][i - 1];
      if forall i | 0 <= i < |updates| :: ValidUpdate(updates[i]) {
        forall i | 0 <= i < |updates[1..]| ensures ValidUpdate(updates[1..][i]) {
          assert updates[1..][i] == updates[i + 1];
        }
      }
    }
  }

  /** A price ends with the quantity of its last update, nothing if that was zero, and what
      stood there before if the batch never names it. */
  lemma {:induction false} LastWriteWins(m: Side, updates: seq<LevelUpdate>, price: real)
    requires ApplyAll(m, updates).ok
    ensures Standing(ApplyAll(m, updates).side, price) ==
            match LastUpdate(updates, price)
            case None => Standing(m, price)
            case Some(q) => if q == 0.0 then None else Some(q)
    decreases |updates|
  {
    if updates != [] {
      var n := |updates| - 1;
      var init, last := updates[..n], updates[n];
      assert updates == init + [last];
      if !ApplyAll(m, init).ok { ApplyFailsEarly(m, init, [last]); }
      ApplyConcat(m, init, [last]);
      LastWriteWins(m, init, price);
      var before := ApplyAll(m, init).side;
      assert [last][1..] == [];
      assert ApplyAll(before, [last]) == if ValidUpdate(last) then Applied(ApplyUpdate(before, last), true) else Applied(before, false);
    }
  }

  lemma {:induction false} LastUpdateConcat(a: seq<LevelUpdate>, b: seq<LevelUpdate>, price: real)
    ensures LastUpdate(a + b, price) == if LastUpdate(b, price).Some? then LastUpdate(b, price) else LastUpdate(a, price)
  {
    if b == [] {
      assert a + b == a;
    } else {
      var n := |b| - 1;
      assert (a + b)[..|a + b| - 1] == a + b[..n];
      LastUpdateConcat(a, b[..n], price);
    }
  }

  /** Delivering a batch in two parts, wherever it is split, gives the same side; delivering it
      a second time changes nothing. */
  lemma BatchesSplitAndRepeat(m: Side, a: seq<LevelUpdate>, b: seq<LevelUpdate>)
    requires ApplyAll(m, a + b).ok
    ensures ApplyAll(m, a).ok && ApplyAll(ApplyAll(m, a).side, b) == ApplyAll(m, a + b)
    ensures ApplyAll(ApplyAll(m, a + b).side, a + b) == ApplyAll(m, a + b)
  {
    if !ApplyAll(m, a).ok { ApplyFailsEarly(m, a, b); }
    ApplyConcat(m, a, b);
    var all := a + b;
    var once := ApplyAll(m, all).side;
    BatchOkIffValid(m, all);
    BatchOkIffValid(once, all);
    var twice := ApplyAll(once, all).side;
    forall p ensures Standing(twice, p) == Standing(once, p) {
      LastWriteWins(m, all, p);
      LastWriteWins(once, all, p);
    }
    SameStanding(twice, once);
  }

  lemma SameStanding(m: Side, n: Side)
    requires forall p :: Standing(m, p) == Standing(n, p)
    ensures m == n
  {
    forall p | p in m ensures p in n && m[p] == n[p] { assert Standing(m, p) == Standing(n, p); }
    forall p | p in n ensures p in m { assert Standing(m, p) == Standing(n, p); }
  }

  // ---------------------------------------------------------------- the book

  predicate PositiveSide(m: Side) {
    forall p | p in m :: p > 0.0 && m[p] > 0.0
  }

  lemma {:induction false} ApplyKeepsPositive(m: Side, updates: seq<LevelUpdate>)
    requires PositiveSide(m)
    ensures PositiveSide(ApplyAll(m, updates).side)
    decreases |updates|
  {
    if updates != [] && ValidUpdate(updates[0]) {
      ApplyKeepsPositive(ApplyUpdate(m, updates[0]), updates[1..]);
    }
  }

  lemma {:induction false} CollectPositive(levels: seq<Level>)
    requires AllPositive(levels)
    ensures PositiveSide(Collect(levels))
  {
    if levels != [] { CollectPositive(levels[..|levels| - 1]); }
  }

  lemma BestFirstLevelsGood(side: BookSide, m: Side, depth: nat)
    requires PositiveSide(m)
    ensures GoodSide(side, Take(BestFirstLevels(side, m), depth))
    ensures |BestFirstLevels(side, m)| == |m|
  {
    hide Ascending;
    AscendingListsMap(m);
    var all := BestFirstLevels(side, m);
    var asc := Ascending(m);
    forall i | 0 <= i < |all| ensures all[i].price > 0.0 && all[i].quantity > 0.0 {
      assert Holds(m, asc[i]) && Holds(m, asc[|asc| - 1 - i]);
    }
    forall i, j | 0 <= i < j < |all| ensures Better(side, all[i].price, all[j].price) {
      assert asc[i].price < asc[j].price && asc[|asc| - 1 - j].price < asc[|asc| - 1 - i].price;
    }
  }

  predicate Listed(listed: seq<Level>, p: real) {
    exists j | 0 <= j < |listed| :: listed[j].price == p
  }

  /** The best levels of a side, best first: as many as asked for or as there are, each with the
      quantity standing at its price, and every price left out strictly worse than all of them. */
  predicate ShowsBest(side: BookSide, m: Side, listed: seq<Level>, depth: nat) {
    && |listed| == (if depth <= |m| then depth else |m|)
    && (forall i | 0 <= i < |listed| :: Holds(m, listed[i]))
    && (forall i, j | 0 <= i < j < |listed| :: Better(side, listed[i].price, listed[j].price))
    && (forall p | p in m && !Listed(listed, p) :: forall i | 0 <= i < |listed| :: Better(side, listed[i].price, p))
  }

  lemma AllPricesListed(side: BookSide, m: Side, p: real)
    requires p in m
    ensures Listed(BestFirstLevels(side, m), p)
  {
    hide Ascending;
    AscendingListsMap(m);
    var all, up := BestFirstLevels(side, m), Ascending(m);
    assert Level(p, m[p]) in up;
    var k :| 0 <= k < |up| && up[k] == Level(p, m[p]);
    assert all[if side == Bids then |up| - 1 - k else k].price == p;
  }

  lemma AllLevelsInOrder(side: BookSide, m: Side)
    ensures var all := BestFirstLevels(side, m);
            && |all| == |m| && AllHeld(all, m)
            && forall i, j | 0 <= i < j < |all| :: Better(side, all[i].price, all[j].price)
  {
    hide Ascending;
    AscendingListsMap(m);
  }

  lemma TakenLevelsAreBest(side: BookSide, m: Side, depth: nat)
    ensures ShowsBest(side, m, Take(BestFirstLevels(side, m), depth), depth)
  {
    hide BestFirstLevels;
    AllLevelsInOrder(side, m);
    var all := BestFirstLevels(side, m);
    var listed := Take(all, depth);
    forall p | p in m ensures Listed(listed, p) || forall i | 0 <= i < |listed| :: Better(side, listed[i].price, p) {
      AllPricesListed(side, m, p);
      var j :| 0 <= j < |all| && all[j].price == p;
      if j < |listed| {
        assert listed[j].price == p;
      }
    }
  }

  lemma ValidateOfGoodSides(book: OrderBookSnapshot)
    requires GoodSide(Bids, book.bids) && GoodSide(Asks, book.asks)
    ensures Validate(book) ==
            if book.bids == [] || book.asks == [] then Err(EmptySide)
            else if book.bids[0].price >= book.asks[0].price then Err(Crossed)
            else Ok(())
  {
  }

  class LocalOrderBook {
    var venue: string
    var symbol: string
    var bids: Side
    var asks: Side
    var sequence: nat
    var sourceTimestampMs: Option<nat>
    var receivedTimestampMs: nat

    /** Kept by every method, even by a failing `Apply`. */
    predicate Valid()
      reads this
    {
      PositiveSide(bids) && PositiveSide(asks)
    }

    constructor Raw(venue: string, symbol: string, bids: Side, asks: Side, sequence: nat,
                    sourceTimestampMs: Option<nat>, receivedTimestampMs: nat)
      ensures this.venue == venue && this.symbol == symbol && this.bids == bids && this.asks == asks
      ensures this.sequence == sequence && this.sourceTimestampMs == sourceTimestampMs
      ensures this.receivedTimestampMs == receivedTimestampMs
    {
      this.venue, this.symbol := venue, symbol;
      this.bids, this.asks := bids, asks;
      this.sequence, this.sourceTimestampMs, this.receivedTimestampMs := sequence, sourceTimestampMs, receivedTimestampMs;
    }

    static method FromSnapshot(snapshot: OrderBookSnapshot) returns (r: Result<LocalOrderBook, BookError>)
      ensures r.Ok? <==> Validate(snapshot).Ok?
      ensures r.Err? ==> r.error == Validate(snapshot).error
      ensures r.Ok? ==> fresh(r.value) && r.value.Valid() && r.value.Live().Ok?
      ensures r.Ok? ==> forall depth | depth >= |snapshot.bids| && depth >= |snapshot.asks| ::
                r.value.SnapshotResult(depth) == Ok(snapshot)
    {
      var checked := Validate(snapshot);
      if checked.Err? {
        return Err(checked.error);
      }
      var book := new LocalOrderBook.Raw(snapshot.venue, snapshot.symbol, Collect(snapshot.bids), Collect(snapshot.asks),
                                         snapshot.sequence, snapshot.sourceTimestampMs, snapshot.receivedTimestampMs);
      ValidateAcceptsExactlyGoodBooks(snapshot);
      CollectPositive(snapshot.bids);
      CollectPositive(snapshot.asks);
      ListingOfCollect(Bids, snapshot.bids);
      ListingOfCollect(Asks, snapshot.asks);
      book.LiveIsFullValidation(|snapshot.bids| + |snapshot.asks|);
      forall depth | depth >= |snapshot.bids| && depth >= |snapshot.asks|
        ensures book.Cut(depth) == snapshot
      {
      }
      return Ok(book);
    }

    method Apply(bidUpdates: seq<LevelUpdate>, askUpdates: seq<LevelUpdate>, sequence: nat,
                 sourceTimestampMs: Option<nat>, receivedTimestampMs: nat)
      returns (r: Result<(), BookError>)
      requires Valid()
      modifies this
      ensures Valid() && venue == old(venue) && symbol == old(symbol)
      ensures bids == ApplyAll(old(bids), bidUpdates).side
      ensures var reached := ApplyAll(old(bids), bidUpdates).ok;
              asks == if reached then ApplyAll(old(asks), askUpdates).side else old(asks)
      ensures var stored := ApplyAll(old(bids), bidUpdates).ok && ApplyAll(old(asks), askUpdates).ok;
              && (!stored ==> r == Err(InvalidUpdate) && unchanged(`sequence, `sourceTimestampMs, `receivedTimestampMs))
              && (stored ==>
                    && r == Live() && this.sequence == sequence
                    && this.sourceTimestampMs == sourceTimestampMs && this.receivedTimestampMs == receivedTimestampMs)
    {
      ApplyKeepsPositive(bids, bidUpdates);
      ApplyKeepsPositive(asks, askUpdates);
      var side, applied := ApplySide(bids, bidUpdates);
      bids := side;
      if applied.Err? {
        return applied;
      }
      side, applied := ApplySide(asks, askUpdates);
      asks := side;
      if applied.Err? {
        return applied;
      }
      this.sequence := sequence;
      this.sourceTimestampMs := sourceTimestampMs;
      this.receivedTimestampMs := receivedTimestampMs;
      r := ValidateLive();
    }

    /** The cheap test: both sides populated, greatest bid below least ask. */
    function Live(): Result<(), BookError>
      reads this
    {
      var b, a := BestFirstLevels(Bids, bids), BestFirstLevels(Asks, asks);
      if b == [] || a == [] then Err(EmptySide)
      else if b[0].price >= a[0].price then Err(Crossed)
      else Ok(())
    }

    method ValidateLive() returns (r: Result<(), BookError>)
      ensures r == Live()
    {
      AscendingListsMap(bids);
      AscendingListsMap(asks);
      if bids.Keys == {} || asks.Keys == {} {
        return Err(EmptySide);
      }
      var bestBid := BestFirstLevels(Bids, bids)[0].price;
      var bestAsk := Least(asks.Keys);
      if bestBid >= bestAsk {
        return Err(Crossed);
      }
      return Ok(());
    }

    /** The snapshot of a given depth, before it is validated. */
    function Cut(depth: nat): OrderBookSnapshot
      reads this
    {
      OrderBookSnapshot(venue, symbol, Take(BestFirstLevels(Bids, bids), depth), Take(BestFirstLevels(Asks, asks), depth),
                        sequence, sourceTimestampMs, receivedTimestampMs)
    }

    function SnapshotResult(depth: nat): Result<OrderBookSnapshot, BookError>
      reads this
    {
      if depth == 0 then Err(ZeroDepth)
      else if Validate(Cut(depth)).Err? then Err(Validate(Cut(depth)).error)
      else Ok(Cut(depth))
    }

    method Snapshot(depth: nat) returns (r: Result<OrderBookSnapshot, BookError>)
      ensures r == SnapshotResult(depth)
    {
      if depth == 0 {
        return Err(ZeroDepth);
      }
      var descending, ascending := BestFirstLevels(Bids, bids), BestFirstLevels(Asks, asks);
      var snapshot := OrderBookSnapshot(venue, symbol, Take(descending, depth), Take(ascending, depth),
                                        sequence, sourceTimestampMs, receivedTimestampMs);
      var checked := Validate(snapshot);
      if checked.Err? {
        return Err(checked.error);
      }
      return Ok(snapshot);
    }

    /** The cheap test passes exactly when both sides hold a price and every bid is below every ask. */
    lemma LiveMeansUncrossed()
      requires Valid()
      ensures Live().Ok? <==> bids.Keys != {} && asks.Keys != {} && forall b, a | b in bids && a in asks :: b < a
      ensures Live() == Err(EmptySide) <==> bids.Keys == {} || asks.Keys == {}
    {
      hide Ascending;
      AscendingListsMap(bids);
      AscendingListsMap(asks);
      var lo, hi := Ascending(asks), Ascending(bids);
      if lo != [] && hi != [] {
        var bestBid, bestAsk := hi[|hi| - 1].price, lo[0].price;
        assert Holds(bids, hi[|hi| - 1]) && Holds(asks, lo[0]);
        forall b, a | b in bids && a in asks ensures b <= bestBid && bestAsk <= a {
          assert Level(b, bids[b]) in hi && Level(a, asks[a]) in lo;
        }
      }
    }

    /** The cheap test agrees, verdict and error alike, with full validation at every depth. */
    lemma LiveIsFullValidation(depth: nat)
      requires Valid() && depth >= 1
      ensures Validate(Cut(depth)) == Live()
    {
      hide Ascending;
      BestFirstLevelsGood(Bids, bids, depth);
      BestFirstLevelsGood(Asks, asks, depth);
      ValidateOfGoodSides(Cut(depth));
    }

    /** A snapshot is refused exactly for depth zero or a book that is not live; otherwise it shows
        the best levels of both sides, with the book's scalars. */
    lemma SnapshotShowsBest(depth: nat)
      requires Valid()
      ensures SnapshotResult(depth).Ok? <==> depth >= 1 && Live().Ok?
      ensures SnapshotResult(depth).Ok? ==>
                var s := SnapshotResult(depth).value;
                && ShowsBest(Bids, bids, s.bids, depth) && ShowsBest(Asks, asks, s.asks, depth)
                && s.sequence == sequence && s.venue == venue && s.symbol == symbol
                && s.sourceTimestampMs == sourceTimestampMs && s.receivedTimestampMs == receivedTimestampMs
    {
      hide BestFirstLevels, ShowsBest, Validate;
      if depth >= 1 {
        LiveIsFullValidation(depth);
        TakenLevelsAreBest(Bids, bids, depth);
        TakenLevelsAreBest(Asks, asks, depth);
      }
    }

    /** Shallower snapshots are prefixes of deeper ones, and none is refused that another is not. */
    lemma SnapshotsAreNested(depth: nat, deeper: nat)
      requires Valid() && 1 <= depth <= deeper
      ensures SnapshotResult(depth).Ok? <==> SnapshotResult(deeper).Ok?
      ensures SnapshotResult(depth).Ok? ==>
                && SnapshotResult(depth).value.bids == Take(SnapshotResult(deeper).value.bids, depth)
                && SnapshotResult(depth).value.asks == Take(SnapshotResult(deeper).value.asks, depth)
    {
      hide Ascending, BestFirstLevels;
      LiveIsFullValidation(depth);
      LiveIsFullValidation(deeper);
    }

    /** Rebuilding from a full-depth snapshot restores both sides. */
    lemma FullSnapshotRestores(depth: nat)
      requires Valid() && depth >= |bids| && depth >= |asks| && SnapshotResult(depth).Ok?
      ensures var s := SnapshotResult(depth).value;
              && Collect(s.bids) == bids && Collect(s.asks) == asks
              && s.sequence == sequence && s.venue == venue && s.symbol == symbol
              && s.sourceTimestampMs == sourceTimestampMs && s.receivedTimestampMs == receivedTimestampMs
    {
      hide Ascending;
      BestFirstLevelsGood(Bids, bids, depth);
      BestFirstLevelsGood(Asks, asks, depth);
      CollectOfListing(Bids, bids);
      CollectOfListing(Asks, asks);
    }
  }
}
