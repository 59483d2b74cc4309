/**
 The random draws the play engine makes, as explicit values.

 `random.randint(lo, hi)` becomes an integer argument `x` with `RandInt(x, lo, hi)`;
 `random.choice(xs)` becomes the element it picks, given by an index into `xs` or,
 for the two-element defensive call, by an enumeration. Nothing here claims the
 draws are uniform; `CountWhere` counts how many of the possible draws have a
 property, which is what a uniform draw would turn into a probability.
 */
module Draws {

  /** x is a value randint(lo, hi) can return: both ends are inclusive. */
  predicate RandInt(x: int, lo: int, hi: int) {
    lo <= x <= hi
  }

  /** The defence's read, drawn by random.choice(["run", "pass"]). */
  datatype DefensiveCall = RunCall | PassCall

  /** The list a live play draws its change of possession from:
      five True followed by ninety-five False. */
  function TurnoverChoices(): (s: seq<bool>)
    ensures |s| == 100
    ensures forall i :: 0 <= i < |s| ==> (s[i] <==> i < 5)
  {
    seq(5, _ => true) + seq(95, _ => false)
  }

  /** The element random.choice returns when it picks index i of TurnoverChoices(). */
  function TurnoverAt(i: int): (b: bool)
    requires RandInt(i, 0, 99)
    ensures b <==> i < 5
  {
    TurnoverChoices()[i]
  }

  /** Number of values in [lo, hi]. */
  function RangeSize(lo: int, hi: int): nat {
    if hi < lo then 0 else hi - lo + 1
  }

  function Max(a: int, b: int): int {
    if a < b then b else a
  }

  function Min(a: int, b: int): int {
    if a < b then a else b
  }

  /** Number of x in [lo, hi] for which f holds. */
  function CountWhere(lo: int, hi: int, f: int -> bool): (n: nat)
    ensures n <= RangeSize(lo, hi)
    decreases hi - lo
  {
    if hi < lo then 0 else CountWhere(lo, hi - 1, f) + (if f(hi) then 1 else 0)
  }

  /** Every value of a range satisfies exactly one of a property and its negation. */
  lemma {:induction false} CountComplement(lo: int, hi: int, f: int -> bool, g: int -> bool)
    requires forall x :: lo <= x <= hi ==> g(x) == !f(x)
    ensures CountWhere(lo, hi, f) + CountWhere(lo, hi, g) == RangeSize(lo, hi)
    decreases hi - lo
  {
    if lo <= hi {
      CountComplement(lo, hi - 1, f, g);
    }
  }

  /** The values of [lo, hi] strictly above a threshold t are exactly [max(lo, t + 1), hi]. */
  lemma {:induction false} CountAbove(lo: int, hi: int, t: int, f: int -> bool)
    requires forall x :: lo <= x <= hi ==> f(x) == (x > t)
    ensures CountWhere(lo, hi, f) == RangeSize(Max(lo, t + 1), hi)
    decreases hi - lo
  {
    if lo <= hi {
      CountAbove(lo, hi - 1, t, f);
    }
  }

  /** The values of [lo, hi] at or below a threshold t are exactly [lo, min(hi, t)]. */
  lemma {:induction false} CountAtMost(lo: int, hi: int, t: int, f: int -> bool)
    requires forall x :: lo <= x <= hi ==> f(x) == (x <= t)
    ensures CountWhere(lo, hi, f) == RangeSize(lo, Min(hi, t))
  {
    var above := x => x > t;
    CountComplement(lo, hi, f, above);
    CountAbove(lo, hi, t, above);
  }

  /** Exactly five of the hundred indices random.choice can pick give a turnover. */
  lemma TurnoverDrawCount()
    ensures CountWhere(0, 99, i => RandInt(i, 0, 99) && TurnoverAt(i)) == 5
  {
    CountAtMost(0, 99, 4, i => RandInt(i, 0, 99) && TurnoverAt(i));
  }
}
