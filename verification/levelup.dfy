/**
  The side effects of a level change: a level-up sound and, on some levels,
  a firework. Both are decisions only; playing the sound and launching the
  projectile belong to the game engine.
*/
module LevelUp {

  /** Whether a level event is the level-up or the level-down kind. */
  datatype Direction = Up | Down

  /** Which of the two effects a level event asks the engine for. */
  datatype Effects = Effects(sound: bool, firework: bool)

  const NoEffects := Effects(false, false)

  function Abs(n: int): nat
  {
    if n < 0 then -n else n
  }

  /**
    Java's `%` on `int`: the remainder of division truncated toward zero, so
    it takes the sign of the dividend (Dafny's own `%` never goes negative).
    Together the clauses fix the value: `a - r` is a multiple of `b`, as in
    the identity `(a / b) * b + a % b == a` of the Java language, and `r` lies
    strictly between `-|b|` and `|b|` on the dividend's side of zero.
  */
  function JavaRem(a: int, b: int): (r: int)
    requires b != 0
    ensures (a - r) % b == 0
    ensures Abs(r) < Abs(b)
    ensures 0 <= a ==> 0 <= r
    ensures a <= 0 ==> r <= 0
  {
    var m := Abs(a) % Abs(b);
    TruncatedRemainderIdentity(a, b);
    assert a == 0 ==> m == 0;
    if a < 0 then -m else m
  }

  /** The remainder of the magnitudes, given the dividend's sign, differs from the dividend by a multiple of the divisor. */
  lemma TruncatedRemainderIdentity(a: int, b: int)
    requires b != 0
    ensures var m := Abs(a) % Abs(b); (a - (if a < 0 then -m else m)) % b == 0
  {
    var m, q := Abs(a) % Abs(b), Abs(a) / Abs(b);
    assert Abs(a) - m == q * Abs(b);
    var k := if (a < 0) == (b < 0) then q else -q;
    assert a - (if a < 0 then -m else m) == k * b by {
      if a < 0 && b < 0 {
        assert a + m == -(q * Abs(b)) == q * b;
      } else if a < 0 {
        assert a + m == -(q * b);
      } else if b < 0 {
        assert a - m == q * -b == -q * b;
      }
    }
    MultipleHasZeroRem(k, b);
  }

  /**
    The firework gate of a level-up: a non-zero interval whose Java remainder
    on the new level is zero, which is exactly a non-zero interval that
    divides the level.
  */
  function FireworkFires(interval: int, level: int): (fires: bool)
    ensures fires <==> interval != 0 && level % interval == 0
  {
    if interval == 0 then false
    else
      JavaRemZeroIffDivides(level, interval);
      JavaRem(level, interval) == 0
  }

  /** A level-up sounds when sounds are enabled and may fire a firework; a level-down does neither. */
  function LevelUpEffects(soundEnabled: bool, fireworkInterval: int, direction: Direction, level: int): (e: Effects)
    ensures direction == Down ==> e == NoEffects
    ensures direction == Up ==> (e.sound <==> soundEnabled)
    ensures direction == Up ==> (e.firework <==> fireworkInterval != 0 && level % fireworkInterval == 0)
  {
    match direction
    case Up => Effects(soundEnabled, FireworkFires(fireworkInterval, level))
    case Down => NoEffects
  }

  /** Dafny's remainder does not depend on the divisor's sign. */
  lemma ModNegatedDivisor(a: int, b: int)
    requires b != 0
    ensures a % -b == a % b
  {
  }

  /** A number and its negation are divisible by the same divisors. */
  lemma ModNegatedDividend(a: int, b: int)
    requires b != 0
    ensures (-a) % b == 0 <==> a % b == 0
  {
    if a % b == 0 {
      assert -a == -(a / b) * b;
      MultipleHasZeroRem(-(a / b), b);
    }
    if (-a) % b == 0 {
      assert a == -((-a) / b) * b;
      MultipleHasZeroRem(-((-a) / b), b);
    }
  }

  /** Java's and Dafny's remainders agree on divisibility, whatever the signs. */
  lemma JavaRemZeroIffDivides(a: int, b: int)
    requires b != 0
    ensures JavaRem(a, b) == 0 <==> a % b == 0
  {
    if b < 0 {
      ModNegatedDivisor(a, b);
      ModNegatedDivisor(-a, b);
    }
    if a < 0 {
      ModNegatedDividend(a, b);
      ModNegatedDividend(a, Abs(b));
    }
  }

  /** Every multiple of a non-zero interval fires, whatever the signs. */
  lemma FireworkFiresAtMultiples(interval: int, k: int)
    requires interval != 0
    ensures FireworkFires(interval, k * interval)
  {
    MultipleHasZeroRem(k, interval);
  }

  /** Euclidean division leaves no remainder on an exact multiple. */
  lemma MultipleHasZeroRem(k: int, b: int)
    requires b != 0
    ensures (k * b) % b == 0
  {
    var q, r := (k * b) / b, (k * b) % b;
    assert (k - q) * b == r;
    if k - q != 0 {
      MulAbsAtLeast(k - q, b);
    }
  }

  /** A non-zero multiple is at least as large in magnitude as the factor. */
  lemma {:induction false} MulAbsAtLeast(x: int, y: int)
    requires x != 0
    ensures Abs(x * y) >= Abs(y)
    decreases Abs(x), if x < 0 then 1 else 0
  {
    if x > 1 {
      MulAbsAtLeast(x - 1, y);
    } else if x < 0 {
      MulAbsAtLeast(-x, y);
      assert x * y == -((-x) * y);
    }
  }

  /** An interval of zero turns the firework off for every level. */
  lemma ZeroIntervalNeverFires(level: int)
    ensures !FireworkFires(0, level)
  {
  }
}
