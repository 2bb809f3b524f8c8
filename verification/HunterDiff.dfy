/** Comparing the results of two scans (hunter-diff.ts), and the offer a scan would
    hold or announce (hunter-run.service.ts).  Prices are whole dong, percentages
    exact until they are rounded. */
module HunterDiff {
  import opened Common

  const DEFAULT_LOW_SEAT_THRESHOLD := 5

  datatype Item = Item(flightNumber: string, departTime: string, price: int, seats: Option<int>)

  /** A percentage of a price; of a price of zero it is infinite. */
  datatype Rate = Finite(value: real) | Infinite

  /** A rounded average of such percentages. */
  datatype Mean = Whole(value: int) | Unbounded

  datatype Change = Change(count: nat, avgPercent: Mean)

  datatype Summary = Summary(
    priceDown: Change, priceUp: Change, newFlights: nat, removedFlights: nat,
    soldOut: nat, lowSeat: nat, hitTarget: bool, isHistoricalLow: bool)

  function Key(item: Item): string {
    item.flightNumber + "|" + item.departTime
  }

  /** Items with the same key are the same flight at the same time exactly when their
      flight numbers are equally long, as they are unless a number contains a bar. */
  lemma KeysDistinct(a: Item, b: Item)
    ensures Key(a) == Key(b) && |a.flightNumber| == |b.flightNumber| <==>
            a.flightNumber == b.flightNumber && a.departTime == b.departTime
    ensures Key(a) == Key(b) && '|' !in a.flightNumber && '|' !in b.flightNumber ==> |a.flightNumber| == |b.flightNumber|
  {
    var m, n := |a.flightNumber|, |b.flightNumber|;
    assert forall k :: 0 <= k < m ==> Key(a)[k] == a.flightNumber[k];
    assert forall k :: 0 <= k < n ==> Key(b)[k] == b.flightNumber[k];
    assert Key(a)[m] == '|' && Key(b)[n] == '|';
    assert a.flightNumber == Key(a)[..m] && b.flightNumber == Key(b)[..n];
    assert a.departTime == Key(a)[m + 1..] && b.departTime == Key(b)[n + 1..];
  }

  predicate Bookable(item: Item) {
    item.seats == None || 0 < item.seats.value
  }

  // ---- What a list of results says about keys ----

  function Keys(items: seq<Item>): set<string> {
    set item | item in items :: Key(item)
  }

  predicate DistinctKeys(items: seq<Item>) {
    forall i, j :: 0 <= i < j < |items| ==> Key(items[i]) != Key(items[j])
  }

  /** The last item with a key: what a map filled in order holds under it. */
  function Lookup(items: seq<Item>, key: string): Option<Item> {
    if items == [] then None
    else if Key(items[|items| - 1]) == key then Some(items[|items| - 1])
    else Lookup(items[..|items| - 1], key)
  }

  lemma {:induction false} LookupFinds(items: seq<Item>, key: string)
    ensures Lookup(items, key).Some? <==> key in Keys(items)
    ensures Lookup(items, key).Some? ==> Lookup(items, key).value in items && Key(Lookup(items, key).value) == key
  {
    if items != [] {
      var n := |items| - 1;
      LookupFinds(items[..n], key);
      assert items == items[..n] + [items[n]];
    }
  }

  lemma {:induction false} LookupDistinct(items: seq<Item>, i: nat)
    requires DistinctKeys(items) && i < |items|
    ensures Lookup(items, Key(items[i])) == Some(items[i])
  {
    var n := |items| - 1;
    if i < n {
      LookupDistinct(items[..n], i);
    }
  }

  // ---- Counting by key ----

  function IsNew(prev: seq<Item>): Item -> int {
    (item: Item) => if Lookup(prev, Key(item)) == None then 1 else 0
  }

  function IsDown(prev: seq<Item>): Item -> int {
    (item: Item) =>
      if Lookup(prev, Key(item)).Some? && item.price < Lookup(prev, Key(item)).value.price then 1 else 0
  }

  function IsUp(prev: seq<Item>): Item -> int {
    (item: Item) =>
      if Lookup(prev, Key(item)).Some? && Lookup(prev, Key(item)).value.price < item.price then 1 else 0
  }

  function InKeys(keys: set<string>): Item -> int {
    (item: Item) => if Key(item) in keys then 1 else 0
  }

  function SoldOut(): Item -> int {
    (item: Item) => if item.seats.Some? && item.seats.value <= 0 then 1 else 0
  }

  function LowSeat(threshold: int): Item -> int {
    (item: Item) => if item.seats.Some? && 0 < item.seats.value <= threshold then 1 else 0
  }

  lemma KeysAppend(front: seq<Item>, last: Item)
    ensures Keys(front + [last]) == Keys(front) + {Key(last)}
  {
    assert forall item :: item in front + [last] <==> item in front || item == last;
  }

  lemma LastKeyIsNew(items: seq<Item>)
    requires DistinctKeys(items) && items != []
    ensures var n := |items| - 1;
            Keys(items) == Keys(items[..n]) + {Key(items[n])} && Key(items[n]) !in Keys(items[..n])
  {
    var n := |items| - 1;
    assert items == items[..n] + [items[n]];
    KeysAppend(items[..n], items[n]);
  }

  lemma MeetWithOneMore(some: set<string>, key: string, keys: set<string>)
    requires key !in some
    ensures |(some + {key}) * keys| == |some * keys| + if key in keys then 1 else 0
  {
    assert (some + {key}) * keys == some * keys + if key in keys then {key} else {};
  }

  /** Items with different keys: counting the items whose key is in a set counts keys. */
  lemma {:induction false} CountIsCardinality(items: seq<Item>, keys: set<string>)
    requires DistinctKeys(items)
    ensures Sum(items, InKeys(keys)) == |Keys(items) * keys|
  {
    if items == [] {
      assert Keys(items) * keys == {};
    } else {
      var n := |items| - 1;
      CountIsCardinality(items[..n], keys);
      LastKeyIsNew(items);
      MeetWithOneMore(Keys(items[..n]), Key(items[n]), keys);
    }
  }

  lemma {:induction false} KeysCount(items: seq<Item>)
    requires DistinctKeys(items)
    ensures |Keys(items)| == |items|
  {
    if items != [] {
      KeysCount(items[..|items| - 1]);
      LastKeyIsNew(items);
    }
  }

  // ---- Percentages ----

  function Percent(part: int, whole: int): Rate {
    if whole == 0 then Infinite else Finite(part as real / whole as real * 100.0)
  }

  /** The drop, or the rise, of one item in percent of its previous price, if any. */
  function PercentOf(prev: seq<Item>, item: Item, down: bool): (r: seq<Rate>)
    ensures |r| == (if down then IsDown(prev) else IsUp(prev))(item)
  {
    LookupFinds(prev, Key(item));
    if down && IsDown(prev)(item) == 1 then
      var was := Lookup(prev, Key(item)).value.price;
      [Percent(was - item.price, was)]
    else if !down && IsUp(prev)(item) == 1 then
      var was := Lookup(prev, Key(item)).value.price;
      [Percent(item.price - was, was)]
    else []
  }

  function Percents(prev: seq<Item>, curr: seq<Item>, down: bool): (r: seq<Rate>)
    ensures |r| == Sum(curr, if down then IsDown(prev) else IsUp(prev))
  {
    if curr == [] then []
    else Percents(prev, curr[..|curr| - 1], down) + PercentOf(prev, curr[|curr| - 1], down)
  }

  /** The sum of the finite percentages. */
  function Total(values: seq<Rate>): real {
    if values == [] then 0.0
    else
      var last := values[|values| - 1];
      Total(values[..|values| - 1]) + if last.Finite? then last.value else 0.0
  }

  /** `Math.round`: to the nearest whole number, halves up. */
  function Round(x: real): int {
    (x + 0.5).Floor
  }

  function Average(values: seq<Rate>): Mean {
    if values == [] then Whole(0)
    else if Infinite in values then Unbounded
    else Whole(Round(Total(values) / |values| as real))
  }

  predicate Within(rate: Rate, low: int, high: int) {
    rate.Finite? && low as real <= rate.value <= high as real
  }

  lemma {:induction false} TotalBounds(values: seq<Rate>, low: int, high: int)
    requires forall i :: 0 <= i < |values| ==> Within(values[i], low, high)
    ensures low as real * |values| as real <= Total(values) <= high as real * |values| as real
  {
    if values != [] {
      TotalBounds(values[..|values| - 1], low, high);
      assert Within(values[|values| - 1], low, high);
    }
  }

  lemma QuotientBounds(a: real, b: real, low: real, high: real)
    requires 0.0 < b && low * b <= a <= high * b
    ensures low <= a / b <= high
  {
    var q := a / b;
    assert q * b == a;
    assert (low - q) * b <= 0.0;
    assert (q - high) * b <= 0.0;
  }

  /** The rounded average is within a half of the mean, and between whole bounds of
      the values. */
  lemma AverageBounds(values: seq<Rate>, low: int, high: int)
    requires values != []
    requires forall i :: 0 <= i < |values| ==> Within(values[i], low, high)
    ensures Average(values).Whole? && low <= Average(values).value <= high
    ensures -0.5 <= Total(values) / |values| as real - Average(values).value as real < 0.5
  {
    TotalBounds(values, low, high);
    QuotientBounds(Total(values), |values| as real, low as real, high as real);
  }

  lemma {:induction false} DropsBelowHundred(prev: seq<Item>, curr: seq<Item>, i: nat)
    requires forall item :: item in prev ==> 0 < item.price
    requires forall item :: item in curr ==> 0 < item.price
    requires i < |Percents(prev, curr, true)|
    ensures Within(Percents(prev, curr, true)[i], 0, 100)
  {
    var n := |curr| - 1;
    var item := curr[n];
    if i < |Percents(prev, curr[..n], true)| {
      DropsBelowHundred(prev, curr[..n], i);
    } else {
      LookupFinds(prev, Key(item));
      var was := Lookup(prev, Key(item)).value.price;
      assert 0.0 < item.price as real < was as real;
      FractionBelowOne((was - item.price) as real, was as real);
    }
  }

  lemma FractionBelowOne(a: real, b: real)
    requires 0.0 < a < b
    ensures 0.0 < a / b * 100.0 < 100.0
  {
    var q := a / b;
    assert q * b == a;
    QuotientBounds(a, b, 0.0, 1.0);
    assert q != 0.0 && q != 1.0;
  }

  /** What a percentage is: exact, of the previous price, and of no other scale. */
  lemma PercentIff(part: int, whole: int, x: real)
    ensures Percent(part, whole) == Finite(x) <==> whole != 0 && x * whole as real == 100.0 * part as real
  {
    if whole != 0 {
      var q := part as real / whole as real;
      assert q * whole as real == part as real;
      assert (x - q * 100.0) * whole as real == x * whole as real - 100.0 * part as real;
    }
  }

  /** An item found before counts with how far its price has moved, in percent of what it
      cost, when it has moved in that direction, and otherwise not at all. */
  lemma MovesInPercent(prev: seq<Item>, item: Item, down: bool, x: real)
    ensures PercentOf(prev, item, down) == [Finite(x)] <==>
            && Lookup(prev, Key(item)).Some?
            && var was := Lookup(prev, Key(item)).value.price;
               && was != 0 && (if down then item.price < was else was < item.price)
               && x * was as real == 100.0 * (if down then was - item.price else item.price - was) as real
  {
    if Lookup(prev, Key(item)).Some? {
      var was := Lookup(prev, Key(item)).value.price;
      PercentIff(if down then was - item.price else item.price - was, was, x);
    }
  }

  // ---- The offer to hold or announce ----

  function BookableItems(items: seq<Item>): (r: seq<Item>)
    ensures forall item :: item in r <==> item in items && Bookable(item)
  {
    if items == [] then []
    else
      var n := |items| - 1;
      assert items == items[..n] + [items[n]];
      BookableItems(items[..n]) + if Bookable(items[n]) then [items[n]] else []
  }

  function FirstCheapest(items: seq<Item>): (r: Item)
    requires items != []
    ensures r in items
    ensures forall item :: item in items ==> r.price <= item.price
  {
    var n := |items| - 1;
    if n == 0 then items[0]
    else
      var best := FirstCheapest(items[..n]);
      assert items == items[..n] + [items[n]];
      if items[n].price < best.price then items[n] else best
  }

  function PickCheapestBookable(items: seq<Item>): Option<Item> {
    if BookableItems(items) == [] then None else Some(FirstCheapest(BookableItems(items)))
  }

  lemma PickAmongBookable(items: seq<Item>)
    ensures PickCheapestBookable(items) == None <==> forall item :: item in items ==> !Bookable(item)
    ensures PickCheapestBookable(items).Some? ==>
              var pick := PickCheapestBookable(items).value;
              pick in items && Bookable(pick) && forall item :: item in items && Bookable(item) ==> pick.price <= item.price
  {
    if BookableItems(items) != [] {
      assert BookableItems(items)[0] in BookableItems(items);
    }
  }

  /** The pick is an item of least price among those not known to be sold out, if there
      is any. */
  lemma PickIsCheapest(items: seq<Item>)
    ensures PickCheapestBookable(items) == None <==>
            forall item :: item in items ==> item.seats.Some? && item.seats.value <= 0
    ensures PickCheapestBookable(items).Some? ==>
              var pick := PickCheapestBookable(items).value;
              && pick in items && (pick.seats.Some? ==> 0 < pick.seats.value)
              && forall item :: item in items && (item.seats.Some? ==> 0 < item.seats.value) ==> pick.price <= item.price
  {
    PickAmongBookable(items);
    assert forall item :: item in items ==> (Bookable(item) <==> !(item.seats.Some? && item.seats.value <= 0));
  }

  lemma PickStep(front: seq<Item>, last: Item)
    ensures var pick := PickCheapestBookable(front);
            PickCheapestBookable(front + [last]) ==
            if Bookable(last) && (pick == None || last.price < pick.value.price) then Some(last) else pick
  {
    assert (front + [last])[..|front|] == front;
    var bookable := BookableItems(front);
    if !Bookable(last) {
      assert BookableItems(front + [last]) == bookable + [] == bookable;
    } else {
      assert BookableItems(front + [last]) == bookable + [last];
      assert (bookable + [last])[..|bookable|] == bookable;
      if bookable == [] {
        assert bookable + [last] == [last];
      }
    }
  }

  /** Of equally cheap offers the first one listed is picked. */
  lemma {:induction false} PickIsFirst(items: seq<Item>) returns (i: nat)
    requires PickCheapestBookable(items).Some?
    ensures i < |items| && Some(items[i]) == PickCheapestBookable(items)
    ensures forall j :: 0 <= j < i && Bookable(items[j]) ==> items[i].price < items[j].price
  {
    var n := |items| - 1;
    var front := items[..n];
    var pick := PickCheapestBookable(front);
    assert front + [items[n]] == items;
    PickStep(front, items[n]);
    if Bookable(items[n]) && (pick == None || items[n].price < pick.value.price) {
      i := n;
      PickAmongBookable(front);
      forall j | 0 <= j < i && Bookable(items[j]) ensures items[i].price < items[j].price {
        assert front[j] in front;
      }
    } else {
      i := PickIsFirst(front);
    }
  }

  method CheapestBookablePrice(items: seq<Item>) returns (cheapest: Option<int>)
    ensures cheapest == match PickCheapestBookable(items) case None => None case Some(item) => Some(item.price)
  {
    cheapest := None;
    for i := 0 to |items|
      invariant cheapest == None <==> forall k :: 0 <= k < i ==> !Bookable(items[k])
      invariant cheapest.Some? ==> exists k :: 0 <= k < i && Bookable(items[k]) && items[k].price == cheapest.value
      invariant cheapest.Some? ==> forall k :: 0 <= k < i && Bookable(items[k]) ==> cheapest.value <= items[k].price
    {
      if Bookable(items[i]) && (cheapest == None || items[i].price < cheapest.value) {
        cheapest := Some(items[i].price);
      }
    }
    PickAmongBookable(items);
  }

  // ---- The comparison ----

  ghost predicate CountsFlights(d: Summary, prev: seq<Item>, curr: seq<Item>) {
    d.newFlights == Sum(curr, IsNew(prev)) && d.removedFlights == |Keys(prev) - Keys(curr)|
  }

  ghost predicate CountsChanges(d: Summary, prev: seq<Item>, curr: seq<Item>) {
    d.priceDown.count == Sum(curr, IsDown(prev)) && d.priceUp.count == Sum(curr, IsUp(prev))
  }

  ghost predicate MeasuresPrices(d: Summary, prev: seq<Item>, curr: seq<Item>) {
    && d.priceDown == Change(|Percents(prev, curr, true)|, Average(Percents(prev, curr, true)))
    && d.priceUp == Change(|Percents(prev, curr, false)|, Average(Percents(prev, curr, false)))
  }

  /** No seats are left, or only a few; of an item whose seats are unknown neither. */
  ghost predicate CountsSeats(d: Summary, curr: seq<Item>, threshold: int) {
    && d.soldOut == |set i | 0 <= i < |curr| && curr[i].seats.Some? && curr[i].seats.value <= 0|
    && d.lowSeat == |set i | 0 <= i < |curr| && curr[i].seats.Some? && 0 < curr[i].seats.value <= threshold|
  }

  /** A hit, or a historical low, is one of the offer that would be picked. */
  ghost predicate JudgesThePick(d: Summary, curr: seq<Item>, target: int, historicalLow: Option<int>) {
    var pick := PickCheapestBookable(curr);
    && (d.hitTarget <==> pick.Some? && pick.value.price <= target)
    && (d.isHistoricalLow <==> historicalLow.Some? && pick.Some? && pick.value.price <= historicalLow.value)
  }

  method IndexByKey(prev: seq<Item>) returns (prevByKey: map<string, Item>)
    ensures forall key :: Lookup(prev, key) == if key in prevByKey then Some(prevByKey[key]) else None
  {
    prevByKey := map[];
    for i := 0 to |prev|
      invariant forall key :: Lookup(prev[..i], key) == if key in prevByKey then Some(prevByKey[key]) else None
    {
      assert prev[..i + 1][..i] == prev[..i];
      prevByKey := prevByKey[Key(prev[i]) := prev[i]];
    }
    assert prev[..|prev|] == prev;
  }

  method MatchOne(prev: seq<Item>, prevByKey: map<string, Item>, item: Item)
    returns (isNew: bool, down: seq<Rate>, up: seq<Rate>)
    requires Lookup(prev, Key(item)) == if Key(item) in prevByKey then Some(prevByKey[Key(item)]) else None
    ensures isNew <==> IsNew(prev)(item) == 1
    ensures down == PercentOf(prev, item, true) && up == PercentOf(prev, item, false)
  {
    isNew, down, up := false, [], [];
    LookupFinds(prev, Key(item));
    if Key(item) !in prevByKey {
      isNew := true;
    } else {
      var oldPrice, newPrice := prevByKey[Key(item)].price, item.price;
      if newPrice < oldPrice {
        down := [Percent(oldPrice - newPrice, oldPrice)];
      } else if newPrice > oldPrice {
        up := [Percent(newPrice - oldPrice, oldPrice)];
      }
    }
  }

  lemma MatchStep(prev: seq<Item>, curr: seq<Item>, i: nat)
    requires i < |curr|
    ensures Sum(curr[..i + 1], IsNew(prev)) == Sum(curr[..i], IsNew(prev)) + IsNew(prev)(curr[i])
    ensures Percents(prev, curr[..i + 1], true) == Percents(prev, curr[..i], true) + PercentOf(prev, curr[i], true)
    ensures Percents(prev, curr[..i + 1], false) == Percents(prev, curr[..i], false) + PercentOf(prev, curr[i], false)
    ensures Keys(curr[..i + 1]) == Keys(curr[..i]) + {Key(curr[i])}
  {
    assert curr[..i + 1] == curr[..i] + [curr[i]];
    SumAppend(curr[..i], curr[i], IsNew(prev));
    KeysAppend(curr[..i], curr[i]);
  }

  method MatchAgainst(prev: seq<Item>, prevByKey: map<string, Item>, curr: seq<Item>)
    returns (newFlights: nat, downPercents: seq<Rate>, upPercents: seq<Rate>, currKeys: set<string>)
    requires forall key :: Lookup(prev, key) == if key in prevByKey then Some(prevByKey[key]) else None
    ensures newFlights == Sum(curr, IsNew(prev))
    ensures downPercents == Percents(prev, curr, true) && upPercents == Percents(prev, curr, false)
    ensures currKeys == Keys(curr)
  {
    newFlights, downPercents, upPercents, currKeys := 0, [], [], {};
    for i := 0 to |curr|
      invariant newFlights == Sum(curr[..i], IsNew(prev))
      invariant downPercents == Percents(prev, curr[..i], true)
      invariant upPercents == Percents(prev, curr[..i], false)
      invariant currKeys == Keys(curr[..i])
    {
      var item := curr[i];
      MatchStep(prev, curr, i);
      var isNew, down, up := MatchOne(prev, prevByKey, item);
      currKeys := currKeys + {Key(item)};
      newFlights := newFlights + if isNew then 1 else 0;
      downPercents := downPercents + down;
      upPercents := upPercents + up;
    }
    assert curr[..|curr|] == curr;
  }

  method CountRemoved(prevKeys: set<string>, currKeys: set<string>) returns (removed: nat)
    ensures removed == |prevKeys - currKeys|
  {
    removed := 0;
    var rest := prevKeys;
    while rest != {}
      invariant rest <= prevKeys
      invariant removed + |rest - currKeys| == |prevKeys - currKeys|
      decreases |rest|
    {
      var key :| key in rest;
      if key !in currKeys {
        removed := removed + 1;
        assert (rest - {key}) - currKeys == (rest - currKeys) - {key};
      } else {
        assert (rest - {key}) - currKeys == rest - currKeys;
      }
      rest := rest - {key};
    }
  }

  method CountSeats(curr: seq<Item>, threshold: int) returns (soldOut: nat, lowSeat: nat)
    ensures soldOut == |set i | 0 <= i < |curr| && curr[i].seats.Some? && curr[i].seats.value <= 0|
    ensures lowSeat == |set i | 0 <= i < |curr| && curr[i].seats.Some? && 0 < curr[i].seats.value <= threshold|
  {
    soldOut, lowSeat := 0, 0;
    for i := 0 to |curr|
      invariant soldOut == Sum(curr[..i], SoldOut()) && lowSeat == Sum(curr[..i], LowSeat(threshold))
    {
      assert curr[..i + 1][..i] == curr[..i];
      if curr[i].seats.Some? {
        if curr[i].seats.value <= 0 {
          soldOut := soldOut + 1;
        } else if curr[i].seats.value <= threshold {
          lowSeat := lowSeat + 1;
        }
      }
    }
    assert curr[..|curr|] == curr;
    SumCounts(curr, SoldOut());
    SumCounts(curr, LowSeat(threshold));
    assert Counted(curr, SoldOut()) == set i | 0 <= i < |curr| && curr[i].seats.Some? && curr[i].seats.value <= 0;
    assert Counted(curr, LowSeat(threshold)) ==
           set i | 0 <= i < |curr| && curr[i].seats.Some? && 0 < curr[i].seats.value <= threshold;
  }

  method JudgePrices(curr: seq<Item>, target: int, historicalLow: Option<int>)
    returns (hitTarget: bool, isHistoricalLow: bool)
    ensures var pick := PickCheapestBookable(curr);
            && (hitTarget <==> pick.Some? && pick.value.price <= target)
            && (isHistoricalLow <==> historicalLow.Some? && pick.Some? && pick.value.price <= historicalLow.value)
  {
    hitTarget := exists i :: 0 <= i < |curr| && Bookable(curr[i]) && curr[i].price <= target;
    PickAmongBookable(curr);
    var cheapest := CheapestBookablePrice(curr);
    isHistoricalLow := historicalLow.Some? && cheapest.Some? && cheapest.value <= historicalLow.value;
  }

  method CompareHuntResults(
    prev: Option<seq<Item>>, curr: seq<Item>, target: int, lowSeatThreshold: Option<int>, historicalLow: Option<int>)
    returns (d: Summary)
    ensures CountsFlights(d, if prev.Some? then prev.value else [], curr)
    ensures MeasuresPrices(d, if prev.Some? then prev.value else [], curr)
    ensures CountsChanges(d, if prev.Some? then prev.value else [], curr)
    ensures CountsSeats(d, curr, if lowSeatThreshold.Some? then lowSeatThreshold.value else DEFAULT_LOW_SEAT_THRESHOLD)
    ensures JudgesThePick(d, curr, target, historicalLow)
  {
    var threshold := if lowSeatThreshold.Some? then lowSeatThreshold.value else DEFAULT_LOW_SEAT_THRESHOLD;
    var before := if prev.Some? then prev.value else [];
    var prevByKey := IndexByKey(before);
    var newFlights, downPercents, upPercents, currKeys := MatchAgainst(before, prevByKey, curr);
    forall key ensures key in prevByKey.Keys <==> key in Keys(before) {
      LookupFinds(before, key);
    }
    assert prevByKey.Keys == Keys(before);
    var removed := CountRemoved(prevByKey.Keys, currKeys);
    var soldOut, lowSeat := CountSeats(curr, threshold);
    var hitTarget, isHistoricalLow := JudgePrices(curr, target, historicalLow);
    d := Summary(Change(|downPercents|, Average(downPercents)), Change(|upPercents|, Average(upPercents)),
                 newFlights, removed, soldOut, lowSeat, hitTarget, isHistoricalLow);
  }

  // ---- Conservation and symmetry ----

  /** The flights found in both lists, by key. */
  function Matched(prev: seq<Item>, curr: seq<Item>): set<string> {
    Keys(prev) * Keys(curr)
  }

  function DownKeys(prev: seq<Item>, curr: seq<Item>): set<string> {
    set key | key in Keys(prev) && Lookup(prev, key).Some? && Lookup(curr, key).Some?
                && Lookup(curr, key).value.price < Lookup(prev, key).value.price
  }

  lemma NewAreUnmatched(prev: seq<Item>, curr: seq<Item>)
    requires DistinctKeys(curr)
    ensures Sum(curr, IsNew(prev)) == |Keys(curr) - Keys(prev)|
  {
    forall i | 0 <= i < |curr| ensures IsNew(prev)(curr[i]) == InKeys(Keys(curr) - Keys(prev))(curr[i]) {
      LookupFinds(prev, Key(curr[i]));
    }
    SumPointwise(curr, curr, IsNew(prev), InKeys(Keys(curr) - Keys(prev)));
    CountIsCardinality(curr, Keys(curr) - Keys(prev));
    assert Keys(curr) * (Keys(curr) - Keys(prev)) == Keys(curr) - Keys(prev);
  }

  lemma KeysPartition(prev: seq<Item>, curr: seq<Item>)
    requires DistinctKeys(prev)
    ensures |Keys(prev) - Keys(curr)| + |Matched(prev, curr)| == |prev|
  {
    KeysCount(prev);
    assert Keys(prev) == (Keys(prev) - Keys(curr)) + Matched(prev, curr);
  }

  /** New and matched flights make up the current list, removed and matched ones the
      previous list. */
  lemma FlightsAreConserved(d: Summary, prev: seq<Item>, curr: seq<Item>)
    requires CountsFlights(d, prev, curr) && DistinctKeys(prev) && DistinctKeys(curr)
    ensures d.newFlights + |Matched(prev, curr)| == |curr|
    ensures d.removedFlights + |Matched(prev, curr)| == |prev|
  {
    NewAreUnmatched(prev, curr);
    KeysPartition(prev, curr);
    KeysPartition(curr, prev);
    assert Matched(prev, curr) == Matched(curr, prev);
  }

  lemma DownsByKey(prev: seq<Item>, curr: seq<Item>)
    requires DistinctKeys(curr)
    ensures Sum(curr, IsDown(prev)) == |DownKeys(prev, curr)|
  {
    var keys := DownKeys(prev, curr);
    forall i | 0 <= i < |curr| ensures IsDown(prev)(curr[i]) == InKeys(keys)(curr[i]) {
      LookupFinds(prev, Key(curr[i]));
      LookupDistinct(curr, i);
    }
    SumPointwise(curr, curr, IsDown(prev), InKeys(keys));
    CountIsCardinality(curr, keys);
    forall key | key in keys ensures key in Keys(curr) {
      LookupFinds(curr, key);
    }
    assert Keys(curr) * keys == keys;
  }

  lemma UpsByKey(prev: seq<Item>, curr: seq<Item>)
    requires DistinctKeys(curr)
    ensures Sum(curr, IsUp(prev)) == |DownKeys(curr, prev)|
  {
    var keys := DownKeys(curr, prev);
    forall i | 0 <= i < |curr| ensures IsUp(prev)(curr[i]) == InKeys(keys)(curr[i]) {
      LookupFinds(prev, Key(curr[i]));
      LookupFinds(curr, Key(curr[i]));
      LookupDistinct(curr, i);
    }
    SumPointwise(curr, curr, IsUp(prev), InKeys(keys));
    CountIsCardinality(curr, keys);
    assert Keys(curr) * keys == keys;
  }

  /** Comparing the other way round swaps new with removed flights, and rises with
      drops. */
  lemma SwapSwaps(d: Summary, d': Summary, prev: seq<Item>, curr: seq<Item>)
    requires DistinctKeys(prev) && DistinctKeys(curr)
    requires CountsFlights(d, prev, curr) && CountsChanges(d, prev, curr)
    requires CountsFlights(d', curr, prev) && CountsChanges(d', curr, prev)
    ensures d'.newFlights == d.removedFlights && d'.removedFlights == d.newFlights
    ensures d'.priceUp.count == d.priceDown.count && d'.priceDown.count == d.priceUp.count
  {
    NewAreUnmatched(prev, curr);
    NewAreUnmatched(curr, prev);
    DownsByKey(prev, curr);
    DownsByKey(curr, prev);
    UpsByKey(prev, curr);
    UpsByKey(curr, prev);
  }

  /** With positive prices the average drop is a percentage. */
  lemma DropsArePercentages(prev: seq<Item>, curr: seq<Item>)
    requires forall item :: item in prev ==> 0 < item.price
    requires forall item :: item in curr ==> 0 < item.price
    ensures Average(Percents(prev, curr, true)).Whole? && 0 <= Average(Percents(prev, curr, true)).value <= 100
  {
    var drops := Percents(prev, curr, true);
    if drops != [] {
      forall i | 0 <= i < |drops| ensures Within(drops[i], 0, 100) {
        DropsBelowHundred(prev, curr, i);
      }
      AverageBounds(drops, 0, 100);
    }
  }

  /** Where no price moved in a direction, its average is zero. */
  lemma NothingMovedIff(prev: seq<Item>, curr: seq<Item>, down: bool)
    ensures Percents(prev, curr, down) == [] <==>
            forall i :: 0 <= i < |curr| ==> (if down then IsDown(prev) else IsUp(prev))(curr[i]) == 0
    ensures Percents(prev, curr, down) == [] ==> Average(Percents(prev, curr, down)) == Whole(0)
  {
    var w := if down then IsDown(prev) else IsUp(prev);
    if Percents(prev, curr, down) == [] {
      forall i | 0 <= i < |curr| ensures w(curr[i]) == 0 {
        SumCoversRow(curr, i, w);
      }
    } else if forall i :: 0 <= i < |curr| ==> w(curr[i]) == 0 {
      SumOfZeros(curr, w);
    }
  }

  /** An average is infinite exactly when a flight that changed in that direction cost
      nothing before. */
  lemma UnboundedIff(prev: seq<Item>, curr: seq<Item>, down: bool)
    ensures Average(Percents(prev, curr, down)) == Unbounded <==>
            exists i :: 0 <= i < |curr| && (if down then IsDown(prev) else IsUp(prev))(curr[i]) == 1
                        && Lookup(prev, Key(curr[i])).value.price == 0
  {
    InfiniteIff(prev, curr, down);
  }

  lemma {:induction false} InfiniteIff(prev: seq<Item>, curr: seq<Item>, down: bool)
    ensures Infinite in Percents(prev, curr, down) <==>
            exists i :: 0 <= i < |curr| && (if down then IsDown(prev) else IsUp(prev))(curr[i]) == 1
                        && Lookup(prev, Key(curr[i])).value.price == 0
  {
    if curr != [] {
      var n := |curr| - 1;
      InfiniteIff(prev, curr[..n], down);
      assert Infinite in Percents(prev, curr, down) <==>
             Infinite in Percents(prev, curr[..n], down) || Infinite in PercentOf(prev, curr[n], down);
      assert Infinite in PercentOf(prev, curr[n], down) <==>
             (if down then IsDown(prev) else IsUp(prev))(curr[n]) == 1 && Lookup(prev, Key(curr[n])).value.price == 0;
      assert forall i :: 0 <= i < n ==> curr[..n][i] == curr[i];
    }
  }

  /** A current flight is new, dearer, cheaper or unchanged, and counted once. */
  lemma {:induction false} ChangesAreFew(prev: seq<Item>, curr: seq<Item>)
    ensures Sum(curr, IsDown(prev)) + Sum(curr, IsUp(prev)) + Sum(curr, IsNew(prev)) <= |curr|
  {
    if curr != [] {
      ChangesAreFew(prev, curr[..|curr| - 1]);
    }
  }
}
