/**
 Rounding of amounts and distances (`roundMoney`, `roundMetric` of
 backend/src/modules/compensation/payments.service.ts): `toFixed` after section 21.1.3.3 of ECMA-262.
 */
module Money {
  /** The nearest integer, halves away from zero. */
  function RoundHalfAway(x: real): int {
    if x >= 0.0 then (x + 0.5).Floor else -((0.5 - x).Floor)
  }

  function RoundMoney(x: real): real {
    RoundHalfAway(x * 100.0) as real / 100.0
  }

  function RoundMetric(x: real): real {
    RoundHalfAway(x * 1000.0) as real / 1000.0
  }

  function Abs(x: real): real {
    if x < 0.0 then -x else x
  }

  function Max(x: real, y: real): real {
    if x < y then y else x
  }

  /** A whole number of cents. */
  predicate IsCents(x: real) {
    (x * 100.0).Floor as real == x * 100.0
  }

  /** No integer is nearer, and of two equally near ones the result is the one farther from zero. */
  lemma RoundIsNearest(x: real, n: int)
    ensures
      var r := RoundHalfAway(x);
      && Abs(r as real - x) <= 0.5
      && Abs(r as real - x) <= Abs(n as real - x)
      && (n != r && Abs(n as real - x) == Abs(r as real - x) ==> Abs(n as real) < Abs(r as real))
  {
    var r := RoundHalfAway(x);
    if n < r {
      IntegersApart(n, r);
    } else if r < n {
      IntegersApart(r, n);
    }
  }

  lemma IntegersApart(m: int, n: int)
    requires m < n
    ensures m as real + 1.0 <= n as real
  {
  }

  lemma FloorUnique(x: real, n: int)
    requires n as real <= x < n as real + 1.0
    ensures x.Floor == n
  {
  }

  lemma RoundOdd(x: real)
    ensures RoundMoney(-x) == -RoundMoney(x)
  {
  }

  lemma RoundedIsCents(x: real)
    ensures IsCents(RoundMoney(x))
  {
  }

  /** Rounding changes exactly the amounts that are no whole cents. */
  lemma RoundFixedIff(x: real)
    ensures RoundMoney(x) == x <==> IsCents(x)
  {
  }

  lemma CentsAdd(x: real, y: real)
    requires IsCents(x) && IsCents(y)
    ensures IsCents(x + y) && IsCents(x - y) && RoundMoney(x + y) == x + y
  {
    hide RoundMoney;
    var m, n := (x * 100.0).Floor, (y * 100.0).Floor;
    assert (m + n) as real == m as real + n as real == (x + y) * 100.0;
    assert (m - n) as real == m as real - n as real == (x - y) * 100.0;
    FloorUnique((x + y) * 100.0, m + n);
    FloorUnique((x - y) * 100.0, m - n);
    RoundFixedIff(x + y);
  }

  lemma RoundMonotone(x: real, y: real)
    requires x <= y
    ensures RoundMoney(x) <= RoundMoney(y)
  {
    var m, n := RoundHalfAway(x * 100.0), RoundHalfAway(y * 100.0);
    if n < m {
      IntegersApart(n, m);
    }
  }

  lemma RoundSign(x: real)
    ensures x >= 0.0 ==> RoundMoney(x) >= 0.0
    ensures x <= 0.0 ==> RoundMoney(x) <= 0.0
  {
  }

  lemma MoneyError(x: real)
    ensures Abs(RoundMoney(x) - x) <= 0.005
  {
  }

  lemma MetricError(x: real)
    ensures Abs(RoundMetric(x) - x) <= 0.0005
    ensures x >= 0.0 ==> RoundMetric(x) >= 0.0
  {
  }

  /** Exactly between two cents. */
  predicate IsHalfCent(x: real) {
    (x * 100.0 + 0.5).Floor as real == x * 100.0 + 0.5
  }

  /** The cents nearest to a value, halves upwards. */
  function RoundUpwards(x: real): real {
    (x * 100.0 + 0.5).Floor as real / 100.0
  }

  lemma UpwardsIff(x: real)
    ensures RoundUpwards(x) == RoundMoney(x) <==> x >= 0.0 || !IsHalfCent(x)
    ensures x < 0.0 && IsHalfCent(x) ==> RoundMoney(x) < RoundUpwards(x)
  {
    if x < 0.0 {
      var up, down := (x * 100.0 + 0.5).Floor, (0.5 - x * 100.0).Floor;
      if IsHalfCent(x) {
        assert (1 - up) as real == 1.0 - up as real;
        FloorUnique(0.5 - x * 100.0, 1 - up);
      } else {
        assert (-up) as real == -(up as real);
        FloorUnique(0.5 - x * 100.0, -up);
      }
    }
  }

  /**
   Topping up by the rounded difference reaches the rounded goal, or keeps a subtotal that is higher;
   exactly if the goal is not a negative half cent above the subtotal.
   */
  lemma TopUpReachesIff(subtotal: real, goal: real)
    requires IsCents(subtotal)
    ensures
      subtotal + (if subtotal < goal then RoundMoney(goal - subtotal) else 0.0) == Max(subtotal, RoundMoney(goal))
      <==> goal >= 0.0 || goal <= subtotal || !IsHalfCent(goal)
  {
    hide RoundUpwards, IsHalfCent;
    UpwardsIff(goal);
    RoundFixedIff(subtotal);
    if subtotal < goal {
      UpwardsFromCents(subtotal, goal);
      RoundMonotone(subtotal, goal);
    } else {
      RoundMonotone(goal, subtotal);
    }
  }

  lemma UpwardsFromCents(subtotal: real, goal: real)
    requires IsCents(subtotal) && subtotal < goal
    ensures subtotal + RoundMoney(goal - subtotal) == RoundUpwards(goal)
  {
    var cents, up := (subtotal * 100.0).Floor, (goal * 100.0 + 0.5).Floor;
    assert (up - cents) as real == up as real - cents as real;
    FloorUnique((goal - subtotal) * 100.0 + 0.5, up - cents);
  }
}
