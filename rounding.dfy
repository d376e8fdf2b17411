/** Decimal rounding of money amounts, as `TicketConsumer.roundValue` does it:
    `BigDecimal.setScale(PLACES_TO_ROUND, RoundingMode.HALF_UP)` with
    `PLACES_TO_ROUND = 2`. HALF_UP rounds a tie away from zero. */
module Rounding {

  // The scale 10 ^ PLACES_TO_ROUND = 100 and half its unit, 0.005, are written
  // as literals so that the arithmetic stays linear for the solver.

  /** `x` has at most two decimal places. */
  predicate IsCents(x: real) {
    (x * 100.0).Floor as real == x * 100.0
  }

  /** Reference definition of rounding half-up to two places: `c` has two
      decimals and `x` lies in the half-open interval around `c` whose
      closed end points towards zero, so that a tie goes away from zero. */
  predicate RoundedFrom(c: real, x: real) {
    && IsCents(c)
    && (if 0.0 <= x then c - 0.005 <= x < c + 0.005
        else c - 0.005 < x <= c + 0.005)
  }

  function Abs(x: real): real {
    if x < 0.0 then -x else x
  }

  /** round2(x) = sign(x) * floor(|x| * 100 + 1/2) / 100. */
  function Round2(x: real): (r: real)
    ensures RoundedFrom(r, x)
    ensures Abs(r - x) <= 0.005
  {
    var n := (Abs(x) * 100.0 + 0.5).Floor;
    var c := n as real / 100.0;
    assert c * 100.0 == n as real;
    assert c - 0.005 <= Abs(x) < c + 0.005;
    assert IsCents(c);
    if x < 0.0 then
      NegatedCents(c);
      -c
    else
      c
  }

  /** Negation keeps two decimals. */
  lemma NegatedCents(c: real)
    requires IsCents(c)
    ensures IsCents(-c)
  {
    assert (-c) * 100.0 == -(c * 100.0);
    assert ((-c) * 100.0).Floor == -((c * 100.0).Floor);
  }

  /** Two amounts with two decimals closer than one cent are equal. */
  lemma CentsGap(a: real, b: real)
    requires IsCents(a) && IsCents(b)
    requires Abs(a - b) < 0.01
    ensures a == b
  {
    var i, j := (a * 100.0).Floor, (b * 100.0).Floor;
    assert i as real == a * 100.0 && j as real == b * 100.0;
    assert Abs((i - j) as real) < 1.0;
    assert i == j;
  }

  /** `RoundedFrom` has exactly one solution, and `Round2` is it. */
  lemma {:induction false} Round2Unique(x: real, c: real)
    requires RoundedFrom(c, x)
    ensures Round2(x) == c
  {
    CentsGap(Round2(x), c);
  }

  /** Rounding leaves an amount that already has two decimals alone. */
  lemma {:induction false} Round2OfCents(x: real)
    requires IsCents(x)
    ensures Round2(x) == x
  {
    Round2Unique(x, x);
  }

  /** Rounding twice is rounding once. */
  lemma {:induction false} Round2Idempotent(x: real)
    ensures Round2(Round2(x)) == Round2(x)
  {
    Round2OfCents(Round2(x));
  }

  /** Rounding commutes with negation. */
  lemma {:induction false} Round2Odd(x: real)
    ensures Round2(-x) == -Round2(x)
  {
    var c := Round2(x);
    NegatedCents(c);
    if x == 0.0 {
      Round2Unique(-x, 0.0);
    } else {
      Round2Unique(-x, -c);
    }
  }

  /** A tie, half a cent above an amount with two decimals, goes away from zero. */
  lemma {:induction false} Round2TieAwayFromZero(c: real)
    requires IsCents(c) && 0.0 <= c
    ensures Round2(c + 0.005) == c + 0.01
    ensures Round2(-(c + 0.005)) == -(c + 0.01)
  {
    assert IsCents(c + 0.01) by {
      assert (c + 0.01) * 100.0 == c * 100.0 + 1.0;
    }
    Round2Unique(c + 0.005, c + 0.01);
    Round2Odd(c + 0.005);
  }

  /** Rounding preserves order. */
  lemma {:induction false} Round2Monotone(x: real, y: real)
    requires x <= y
    ensures Round2(x) <= Round2(y)
  {
    if x < 0.0 && 0.0 <= y {
    } else if 0.0 <= x {
      assert (x * 100.0 + 0.5).Floor <= (y * 100.0 + 0.5).Floor;
    } else {
      assert (-y * 100.0 + 0.5).Floor <= (-x * 100.0 + 0.5).Floor;
    }
  }
}
