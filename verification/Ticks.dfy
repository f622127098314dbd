/** The kernel's 32-bit tick counter, seen from unbounded time.

    A `Tick` is what the C code stores in a TickType_t. An `int` called now,
    due or the like is an instant counted from the start without wrapping;
    `Wrap` is the counter value at that instant and `Epoch` is how often the
    counter has wrapped before it. */
module Ticks {

  const TICK_MODULUS := 0x1_0000_0000
  const MAX_DELAY: Tick := 0xFFFF_FFFF

  type Tick = t: int | 0 <= t < 0x1_0000_0000

  /** Truncation of unbounded arithmetic to a TickType_t. */
  function Wrap(instant: int): (t: Tick)
  {
    instant % TICK_MODULUS
  }

  function Epoch(instant: int): int
  {
    instant / TICK_MODULUS
  }

  /** An instant is its epoch and its counter value. */
  lemma SplitInstant(instant: int)
    ensures instant == Epoch(instant) * TICK_MODULUS + Wrap(instant)
  {
  }

  /** The counter value and the epoch of an instant, recovered from any way of
      writing it as a whole number of wraps and a counter value. */
  lemma JoinInstant(epoch: int, t: Tick)
    ensures Wrap(epoch * TICK_MODULUS + t) == t
    ensures Epoch(epoch * TICK_MODULUS + t) == epoch
  {
  }

  /** Unsigned subtraction of two counter values recovers a difference that fits. */
  lemma WrapDifference(a: int, b: int)
    requires 0 <= a - b < TICK_MODULUS
    ensures Wrap(Wrap(a) - Wrap(b)) == a - b
  {
    SplitInstant(a);
    SplitInstant(b);
    var k := Epoch(a) - Epoch(b);
    assert Wrap(a) - Wrap(b) == a - b - k * TICK_MODULUS;
    if k == 0 {
    } else {
      assert k == 1;
    }
  }

  /** Adding to a counter value is adding to the instant. */
  lemma WrapSum(a: int, n: int)
    ensures Wrap(Wrap(a) + n) == Wrap(a + n)
  {
    SplitInstant(a);
    var k := Epoch(a);
    assert Wrap(a) + n == (a + n) - k * TICK_MODULUS;
    SplitInstant(a + n);
    JoinInstant(Epoch(a + n) - k, Wrap(a + n));
  }

  /** For two instants less than one wrap apart, the later counter value is the
      smaller one exactly when a wrap lies between them. */
  lemma WrapOrder(a: int, b: int)
    requires 0 <= b - a < TICK_MODULUS
    ensures Wrap(b) < Wrap(a) <==> Epoch(b) == Epoch(a) + 1
    ensures Wrap(a) <= Wrap(b) <==> Epoch(b) == Epoch(a)
  {
    SplitInstant(a);
    SplitInstant(b);
  }
}
