/** raylib's `GetRandomValue(min, max)`: the bounds are swapped when given in the
    wrong order, and the C library generator's raw draw `r` is reduced modulo the
    width of the range. The generator itself is not modelled: every raw draw is an
    input. */
module Random {

  function RandomValue(r: nat, min: int, max: int): (v: int)
    ensures min <= max ==> min <= v <= max
    ensures max < min ==> max <= v <= min
  {
    if min > max then max + r % (min - max + 1) else min + r % (max - min + 1)
  }

  /** Every value of the range is produced by some raw draw, so the model rules out
      nothing the generator could return. */
  lemma RandomValueCovers(min: int, max: int, v: int)
    requires (min <= max && min <= v <= max) || (max < min && max <= v <= min)
    ensures min <= max ==> RandomValue(v - min, min, max) == v
    ensures max < min ==> RandomValue(v - max, min, max) == v
  {
    if min <= max {
      ModOfSmall(v - min, max - min + 1);
    } else {
      ModOfSmall(v - max, min - max + 1);
    }
  }

  /** A draw below the width of the range is kept as it is. */
  lemma ModOfSmall(n: int, d: int)
    requires 0 <= n < d
    ensures n % d == n
  {
  }

  /** The draw `GetRandomValue(0, 100) > 50` that selects a neighbour for seeding or
      fertilising: it holds for exactly the 50 values 51..100. */
  predicate Selects(r: nat)
  {
    RandomValue(r, 0, 100) > 50
  }

  lemma SelectsIff(r: nat)
    ensures Selects(r) <==> 51 <= r % 101
  {
  }

  /** The C library generator behind every `GetRandomValue` call of the simulation:
      the raw draws are `source(0)`, `source(1)`, ... in call order. */
  class Rng {
    const source: nat -> nat
    var next: nat

    constructor (source: nat -> nat)
      ensures this.source == source && next == 0
    {
      this.source := source;
      next := 0;
    }

    /** `GetRandomValue(min, max)`: consumes one raw draw and returns a value between
        the two bounds, in either order. */
    method GetRandomValue(min: int, max: int) returns (v: int)
      modifies this
      ensures v == RandomValue(source(old(next)), min, max)
      ensures next == old(next) + 1
    {
      v := RandomValue(source(next), min, max);
      next := next + 1;
    }
  }

  /** The items kept by one `GetRandomValue(0, 100) > 50` draw per item, in order;
      the draw for `items[j]` is the raw draw `source(first + j)`. */
  function Picked<T>(items: seq<T>, source: nat -> nat, first: nat): seq<T>
    decreases |items|
  {
    if items == [] then []
    else Picked(items[..|items| - 1], source, first)
         + (if Selects(source(first + |items| - 1)) then [items[|items| - 1]] else [])
  }

  /** An item is picked exactly when its own draw selects it. */
  lemma PickedIff<T>(items: seq<T>, source: nat -> nat, first: nat, t: T)
    ensures t in Picked(items, source, first) <==>
      exists j :: 0 <= j < |items| && items[j] == t && Selects(source(first + j))
  {
    if t in Picked(items, source, first) {
      PickedOnlySelected(items, source, first, t);
    }
    if exists j :: 0 <= j < |items| && items[j] == t && Selects(source(first + j)) {
      var j :| 0 <= j < |items| && items[j] == t && Selects(source(first + j));
      SelectedIsPicked(items, source, first, j);
    }
  }

  /** Every picked item was selected by its own draw. */
  lemma {:induction false} PickedOnlySelected<T>(items: seq<T>, source: nat -> nat, first: nat, t: T)
    requires t in Picked(items, source, first)
    ensures exists j :: 0 <= j < |items| && items[j] == t && Selects(source(first + j))
    decreases |items|
  {
    var n := |items| - 1;
    if t in Picked(items[..n], source, first) {
      PickedOnlySelected(items[..n], source, first, t);
      var j :| 0 <= j < n && items[..n][j] == t && Selects(source(first + j));
      assert items[j] == t;
    } else {
      assert items[n] == t && Selects(source(first + n));
    }
  }

  /** Every item selected by its own draw is picked. */
  lemma {:induction false} SelectedIsPicked<T>(items: seq<T>, source: nat -> nat, first: nat, j: int)
    requires 0 <= j < |items| && Selects(source(first + j))
    ensures items[j] in Picked(items, source, first)
    decreases |items|
  {
    var n := |items| - 1;
    if j < n {
      SelectedIsPicked(items[..n], source, first, j);
      assert items[..n][j] == items[j];
    }
  }

  /** The selection loops of the grass and manure updates: one `GetRandomValue(0,
      100)` per item, in order, keeping the items whose draw exceeds 50. */
  method PickTiles<T>(rng: Rng, items: seq<T>) returns (picked: seq<T>)
    modifies rng
    ensures picked == Picked(items, rng.source, old(rng.next))
    ensures rng.next == old(rng.next) + |items|
  {
    picked := [];
    for k := 0 to |items|
      invariant picked == Picked(items[..k], rng.source, old(rng.next))
      invariant rng.next == old(rng.next) + k
    {
      var d := rng.GetRandomValue(0, 100);
      assert items[..k + 1][..k] == items[..k];
      if d > 50 {
        picked := picked + [items[k]];
      }
    }
    assert items[..|items|] == items;
  }
}
