/** Rounding of fares and of minor units: app/services/dispatch.py and app/services/payment_provider.py. */
module Money {
  import opened Basics

  /** Decimal's ROUND_HALF_UP to an integer: the nearest one, ties away from zero. */
  function RoundHalfUp(x: real): int {
    if x < 0.0 then -((0.5 - x).Floor) else (x + 0.5).Floor
  }

  lemma RoundingError(x: real)
    ensures -0.5 <= RoundHalfUp(x) as real - x <= 0.5
    ensures x >= 0.0 ==> RoundHalfUp(x) >= 0
  {
  }

  lemma RoundingMonotone(x: real, y: real)
    requires x <= y
    ensures RoundHalfUp(x) <= RoundHalfUp(y)
  {
  }

  lemma RoundingExact(n: int)
    ensures RoundHalfUp(n as real) == n
  {
  }

  /** A half is rounded away from zero. */
  lemma RoundingTies(n: nat)
    ensures RoundHalfUp(n as real + 0.5) == n + 1
    ensures RoundHalfUp(-(n as real + 0.5)) == -(n + 1)
  {
  }

  function Upper(c: char): char {
    if 'a' <= c <= 'z' then (c as int - 32) as char else c
  }

  predicate IsYen(currency: string) {
    |currency| == 3 && Upper(currency[0]) == 'J' && Upper(currency[1]) == 'P' && Upper(currency[2]) == 'Y'
  }

  function UpperCase(s: string): string {
    seq(|s|, i requires 0 <= i < |s| => Upper(s[i]))
  }

  /** The 26 letters get their capitals, everything else stays. */
  lemma UpperIs(k: nat, c: char)
    requires k < 26
    ensures Upper("abcdefghijklmnopqrstuvwxyz"[k]) == "ABCDEFGHIJKLMNOPQRSTUVWXYZ"[k]
    ensures c !in "abcdefghijklmnopqrstuvwxyz" ==> Upper(c) == c
  {
    if 'a' <= c <= 'z' {
      assert "abcdefghijklmnopqrstuvwxyz"[c as int - 'a' as int] == c;
    }
  }

  function Factor(currency: string): real {
    if IsYen(currency) then 1.0 else 100.0
  }

  function ToMinorUnits(amount: real, currency: string): int {
    RoundHalfUp(amount * Factor(currency))
  }

  /** Yen, in any case, are the one currency without minor units: whole yen are kept. */
  lemma WholeYen(yen: int, currency: string)
    ensures IsYen(currency) <==> UpperCase(currency) == "JPY"
    ensures IsYen(currency) ==> ToMinorUnits(yen as real, currency) == yen
  {
    if IsYen(currency) {
      assert UpperCase(currency) == "JPY";
    }
    var upper := UpperCase(currency);
    assert upper == "JPY" ==> upper[0] == 'J' && upper[1] == 'P' && upper[2] == 'Y';
    RoundingExact(yen);
  }

  /** Minor units grow with the amount and are at most half a unit off; whole minor units are kept exactly. */
  lemma MinorUnits(a: real, b: real, currency: string)
    ensures a <= b ==> ToMinorUnits(a, currency) <= ToMinorUnits(b, currency)
    ensures -0.5 <= ToMinorUnits(a, currency) as real - a * Factor(currency) <= 0.5
  {
  }

  /** A price of whole cents converts without loss in a two-decimal currency, and back. */
  lemma TwoDecimalsExact(cents: int, currency: string)
    requires !IsYen(currency)
    ensures ToMinorUnits(cents as real / 100.0, currency) == cents
  {
  }

  function MaxReal(a: real, b: real): real {
    if a < b then b else a
  }

  /** The estimated price in cents: the base fare or distance times rate, rounded half up. */
  function FareCents(base: real, rate: real, distance: real): int {
    RoundHalfUp(MaxReal(base, distance * rate) * 100.0)
  }

  lemma Scaled(a: real, b: real, k: real)
    requires a <= b && k >= 0.0
    ensures a * k <= b * k
  {
  }

  lemma MaxMonotone(base: real, a: real, b: real)
    requires a <= b
    ensures base * 100.0 <= MaxReal(base, a) * 100.0 <= MaxReal(base, b) * 100.0
  {
  }

  lemma FareMonotone(base: real, rate: real, near: real, far: real)
    requires rate >= 0.0 && near <= far
    ensures FareCents(base, rate, near) <= FareCents(base, rate, far)
  {
    var low, high := near * rate, far * rate;
    Scaled(near, far, rate);
    assert low <= high;
    MaxMonotone(base, low, high);
    RoundingMonotone(MaxReal(base, low) * 100.0, MaxReal(base, high) * 100.0);
  }

  /** Within the dispatch radius the fare stays between the base fare and max(base, radius * rate), in whole cents. */
  lemma FareBounds(base: int, radiusFare: int, rate: real, radius: real, distance: real)
    requires rate >= 0.0 && distance <= radius && radius * rate * 100.0 == radiusFare as real
    ensures base <= FareCents(base as real / 100.0, rate, distance) <= Max(base, radiusFare)
  {
    var fare := MaxReal(base as real / 100.0, distance * rate);
    Scaled(distance, radius, rate);
    MaxMonotone(base as real / 100.0, distance * rate, radius * rate);
    RoundingExact(base);
    RoundingExact(Max(base, radiusFare));
    RoundingMonotone(base as real, fare * 100.0);
    RoundingMonotone(fare * 100.0, Max(base, radiusFare) as real);
  }

  /** A fare rounded to cents and then to a zero-decimal currency is within 1/2 + 1/200 of the exact amount. */
  lemma DoubleRounding(base: real, rate: real, distance: real, currency: string)
    requires IsYen(currency)
    ensures var exact := MaxReal(base, distance * rate);
            var charged := ToMinorUnits(FareCents(base, rate, distance) as real / 100.0, currency) as real;
            -0.505 <= charged - exact <= 0.505
  {
  }

  /** The bound is reached: 0.495 becomes 0.50 and then 1. */
  lemma DoubleRoundingIsTight()
    ensures ToMinorUnits(FareCents(0.495, 0.0, 0.0) as real / 100.0, "jpy") == 1
  {
  }
}
