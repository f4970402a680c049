/** When a lazy enrolment is sent: sixteen groups of nodes spread over a circle of 100 seconds
    (chamge/node.c). */
module LazyEnrol {

  const CIRCLE: int := 100000
  const STEP: int := 6250

  type Digit = d: int | 0 <= d < 16

  /** C's remainder takes the sign of the dividend. */
  function Remainder(a: int, b: int): int
    requires b > 0
  {
    if a >= 0 then a % b else -((-a) % b)
  }

  /** The group's place on the circle, from the last hex digit of the MD5 of the node's id. */
  function Phase(digit: Digit): int
  {
    digit * STEP
  }

  /** Milliseconds from the clock value now to the timer. */
  function Delay(now: int, digit: Digit): int
  {
    var r := Remainder(now, CIRCLE);
    if r > Phase(digit) then CIRCLE + Phase(digit) - r else Phase(digit) - r
  }

  // ---- when the timer is due, on a circle of 100000 ms with sixteen places 6250 ms apart ----

  /** A timer set for d milliseconds from now is due at the place of the group. */
  predicate Reaches(now: int, d: int, digit: Digit)
  {
    0 <= d && (now + d) % 100000 == 6250 * digit
  }

  /** C's remainder is congruent to the dividend, smaller than the divisor, and never of the other
      sign. */
  lemma RemainderIsC(a: int) returns (k: int)
    ensures a == Remainder(a, 100000) + 100000 * k
    ensures -100000 < Remainder(a, 100000) < 100000
    ensures a >= 0 ==> Remainder(a, 100000) >= 0
    ensures a <= 0 ==> Remainder(a, 100000) <= 0
  {
    if a >= 0 {
      k := a / 100000;
    } else {
      k := -((-a) / 100000);
    }
  }

  lemma ModOf(x: int, k: int, r: int)
    requires x == r + 100000 * k && 0 <= r < 100000
    ensures x % 100000 == r
  {
  }

  /** The timer is due at the group's place on the circle, whatever the clock says: the last hex digit
      times 6250 ms after a full 100 seconds. */
  lemma DueAtPhase(now: int, digit: Digit)
    ensures 0 <= Delay(now, digit) && (now + Delay(now, digit)) % 100000 == 6250 * digit
  {
    var k := RemainderIsC(now);
    var r := Remainder(now, 100000);
    var k' := if r > 6250 * digit then k + 1 else k;
    assert now + Delay(now, digit) == 6250 * digit + 100000 * k';
    ModOf(now + Delay(now, digit), k', 6250 * digit);
  }

  /** No shorter wait reaches the group's place; exactly when the clock's remainder is not so far
      below zero that a whole turn is wasted, and never more than one is. Every clock that is not
      negative qualifies. */
  lemma LeastDelay(now: int, digit: Digit)
    ensures Delay(now, digit) < 100000 <==> Remainder(now, 100000) + 100000 > 6250 * digit
    ensures now >= 0 ==> Delay(now, digit) < 100000
    ensures Delay(now, digit) < 200000
    ensures Delay(now, digit) < 100000 <==>
            forall d | Reaches(now, d, digit) :: Delay(now, digit) <= d
  {
    var least := Delay(now, digit);
    DueAtPhase(now, digit);
    var k := RemainderIsC(now);
    if least < 100000 {
      forall d | Reaches(now, d, digit)
        ensures least <= d
      {
        SamePhase(now + d, now + least);
      }
    } else {
      var d := least - 100000;
      assert now + least == now + d + 100000;
      assert Reaches(now, d, digit);
    }
  }

  lemma SamePhase(s: int, t: int)
    requires s % 100000 == t % 100000
    ensures (s - t) % 100000 == 0
    ensures s < t ==> t - s >= 100000
  {
    assert s - t == 100000 * (s / 100000 - t / 100000);
  }

  /** Two lazy enrolments: nodes of one group are due a whole number of turns apart, nodes of
      different groups are never due less than 6250 ms apart. */
  lemma GroupsApart(now: int, digit: Digit, now': int, digit': Digit)
    ensures var t, t' := now + Delay(now, digit), now' + Delay(now', digit');
            if digit == digit' then (t - t') % 100000 == 0
            else t - t' >= 6250 || t' - t >= 6250
  {
    var t, t' := now + Delay(now, digit), now' + Delay(now', digit');
    DueAtPhase(now, digit);
    DueAtPhase(now', digit');
    if digit == digit' {
      SamePhase(t, t');
    } else {
      assert t - t' == 6250 * (16 * (t / 100000 - t' / 100000) + digit - digit');
    }
  }
}
