/** The Arduino millisecond clock: `millis()` is an `unsigned long`, 32 bits
    on the target, so it wraps to 0 after 2^32 ms (about 49.7 days), and the
    sketches measure time since an action by unsigned subtraction
    `millis() - last`, which wraps the same way. */
module Clock {

  const MODULUS: int := 0x1_0000_0000

  /** A reading of `millis()` or a stored timestamp. */
  type Millis = t: int | 0 <= t < 0x1_0000_0000

  /** `now - since` in unsigned 32-bit arithmetic: the unique value in range
      that, added to `since`, wraps around to `now`. */
  function Elapsed(now: Millis, since: Millis): (e: Millis)
    ensures (since + e) % MODULUS == now
    ensures since <= now ==> e == now - since
    ensures now < since ==> e == now - since + MODULUS
  {
    (now - since) % MODULUS
  }

  /** The clock reading `d` milliseconds after `t`. */
  function Later(t: Millis, d: nat): Millis
  {
    (t + d) % MODULUS
  }

  /** The scheduling test of every timer in the sketches:
      `millis() - last > interval`. */
  predicate Due(now: Millis, last: Millis, interval: nat)
  {
    Elapsed(now, last) > interval
  }

  /** Unsigned subtraction measures the true delay, also across the wrap of
      the clock, as long as less than 2^32 ms have passed. */
  lemma ElapsedAfter(t: Millis, d: nat)
    requires d < MODULUS
    ensures Elapsed(Later(t, d), t) == d
  {
  }

  /** An action stamped at `t` is not due again within its interval... */
  lemma NotDueWithin(t: Millis, d: nat, interval: nat)
    requires d <= interval && d < MODULUS
    ensures !Due(Later(t, d), t, interval)
  {
  }

  /** ...and is due at every later delay (short of a full wrap). */
  lemma DueAfter(t: Millis, d: nat, interval: nat)
    requires interval < d < MODULUS
    ensures Due(Later(t, d), t, interval)
  {
  }
}
