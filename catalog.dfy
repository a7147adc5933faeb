/**
 * The item catalogue (script.js:1-8) and the weighted choice that `dropItem`
 * makes over it (script.js:152-158).
 */
module Catalog {
  import opened Wrappers
  import opened Draws

  /** The six kinds of falling item, in catalogue order:
      Super Sprout, Corn King, Carrot Cash, Liquid Loan, Worminator, Mystery Box. */
  datatype Symbol = Sprout | Corn | Carrot | Water | Worm | Mystery

  /** One catalogue row: what is shown, what it is worth, its spawn weight and its fall speed. */
  datatype Item = Item(symbol: Symbol, points: nat, chance: nat, baseSpeed: real)

  const Items: seq<Item> := [
    Item(Sprout, 50, 25, 1.0),
    Item(Corn, 20, 30, 1.2),
    Item(Carrot, 30, 20, 0.9),
    Item(Water, 5, 10, 1.1),
    Item(Worm, 0, 10, 2.0),
    Item(Mystery, 0, 5, 0.8)
  ]

  /** The running total of the chances of the first `k` items. */
  function Cumulative(items: seq<Item>, k: nat): nat
    requires k <= |items|
  {
    if k == 0 then 0 else Cumulative(items, k - 1) + items[k - 1].chance
  }

  /** `items.reduce((sum, item) => sum + item.chance, 0)` */
  function TotalChance(items: seq<Item>): nat
  {
    Cumulative(items, |items|)
  }

  /** Item `i` owns the half-open band [Cumulative(i), Cumulative(i + 1)) of draws. */
  predicate InBand(items: seq<Item>, i: nat, r: real)
    requires i < |items|
  {
    Cumulative(items, i) as real <= r < Cumulative(items, i + 1) as real
  }

  lemma {:induction false} CumulativeMonotone(items: seq<Item>, i: nat, j: nat)
    requires i <= j <= |items|
    ensures Cumulative(items, i) <= Cumulative(items, j)
  {
    if i < j {
      CumulativeMonotone(items, i, j - 1);
    }
  }

  /** The bands of a catalogue are disjoint: a draw lies in at most one of them. */
  lemma BandsDisjoint(items: seq<Item>, i: nat, k: nat, r: real)
    requires i < |items| && k < |items|
    requires InBand(items, i, r) && InBand(items, k, r)
    ensures i == k
  {
    if i < k {
      CumulativeMonotone(items, i + 1, k);
    } else if k < i {
      CumulativeMonotone(items, k + 1, i);
    }
  }

  /**
   * The scan of `dropItem`: add each chance to `cumulative` and take the
   * first item whose running total exceeds the draw (`Array.find`), or none
   * when the draw reaches the total.
   */
  method PickWeighted(items: seq<Item>, random: real) returns (found: Option<nat>)
    requires 0.0 <= random
    ensures found.Some? ==> found.value < |items|
    ensures found.Some? ==>
      InBand(items, found.value, random) &&
      forall j :: 1 <= j <= found.value ==> Cumulative(items, j) as real <= random
    ensures forall i :: 0 <= i < |items| && InBand(items, i, random) ==> found == Some(i)
    ensures found.None? <==> TotalChance(items) as real <= random
  {
    var cumulative := 0;
    var i := 0;
    while i < |items|
      invariant 0 <= i <= |items|
      invariant cumulative == Cumulative(items, i)
      invariant forall j :: 1 <= j <= i ==> Cumulative(items, j) as real <= random
    {
      cumulative := cumulative + items[i].chance;
      if random < cumulative as real {
        FirstExceedingIsBand(items, random, i);
        return Some(i);
      }
      i := i + 1;
    }
    if |items| > 0 {
      assert Cumulative(items, |items|) as real <= random;
    }
    return None;
  }

  /**
   * `dropItem`'s choice: a uniform draw `u` in [0, 1) scaled by the total
   * chance always lands in some item's band, so an item is always found.
   */
  method DropChoice(items: seq<Item>, u: real) returns (found: Option<nat>)
    requires 0.0 <= u < 1.0
    ensures found.Some? <==> TotalChance(items) > 0
    ensures found.Some? ==> found.value < |items| && InBand(items, found.value, u * TotalChance(items) as real)
  {
    var totalChance := TotalChance(items);
    var random := u * totalChance as real;
    ScaledDrawRange(u, totalChance as real);
    found := PickWeighted(items, random);
  }

  /**
   * The first item whose running total exceeds a non-negative draw owns the
   * band the draw falls in, and no other item does.
   */
  lemma FirstExceedingIsBand(items: seq<Item>, r: real, i: nat)
    requires i < |items| && 0.0 <= r
    requires forall j :: 1 <= j <= i ==> Cumulative(items, j) as real <= r
    requires r < Cumulative(items, i + 1) as real
    ensures InBand(items, i, r)
    ensures forall k :: 0 <= k < |items| && InBand(items, k, r) ==> k == i
    ensures Cumulative(items, i + 1) <= TotalChance(items)
  {
    forall k | 0 <= k < |items| && InBand(items, k, r)
      ensures k == i
    {
      BandsDisjoint(items, k, i, r);
    }
    CumulativeMonotone(items, i + 1, |items|);
  }

  lemma CatalogueBands()
    ensures Cumulative(Items, 0) == 0 && Cumulative(Items, 1) == 25 && Cumulative(Items, 2) == 55
    ensures Cumulative(Items, 3) == 75 && Cumulative(Items, 4) == 85 && Cumulative(Items, 5) == 95
    ensures TotalChance(Items) == 100
  {
  }
}
