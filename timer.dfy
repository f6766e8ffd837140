/**
 * The interval test every periodic task of the firmware uses:
 * `now - last >= interval`, evaluated on 32-bit unsigned timestamps,
 * so the subtraction wraps modulo 2^32.
 */
module Timer {
  import opened Units

  /** `now - last` as computed on `unsigned long`: the distance modulo 2^32. */
  function Since(now: u32, last: u32): (d: u32)
    ensures (d as int + last as int) % Modulus32 == now as int
    ensures now >= last ==> d == now - last
  {
    ((now as int - last as int) % Modulus32) as u32
  }

  /** True when at least `interval` milliseconds have passed since `last`. */
  predicate Elapsed(now: u32, last: u32, interval: u32)
  {
    Since(now, last) >= interval
  }

  /** Advancing a 32-bit clock by `t` milliseconds, wrapping like `millis()`. */
  function Advance(last: u32, t: nat): (now: u32)
    ensures now as int == (last as int + t) % Modulus32
  {
    ((last as int + t) % Modulus32) as u32
  }

  /**
   * Wrap-around safety: if the true time that has passed since `last` is `t`
   * (less than one full period of the counter), the test fires exactly when
   * `t >= interval`, whether or not the counter wrapped in between.
   */
  lemma ElapsedIsWrapSafe(last: u32, t: nat, interval: u32)
    requires t < Modulus32
    ensures Elapsed(Advance(last, t), last, interval) <==> t >= interval as int
  {
    var now := Advance(last, t);
    var d := Since(now, last);
    assert (d as int + last as int) % Modulus32 == (last as int + t) % Modulus32;
    ModEqual(d as int, t, last as int);
  }

  lemma ModEqual(a: int, b: int, c: int)
    requires 0 <= a < Modulus32 && 0 <= b < Modulus32
    requires (a + c) % Modulus32 == (b + c) % Modulus32
    ensures a == b
  {
    var m := Modulus32;
    var qa, qb := (a + c) / m, (b + c) / m;
    assert a + c == qa * m + (a + c) % m;
    assert b + c == qb * m + (b + c) % m;
    assert a - b == (qa - qb) * m;
  }

  /**
   * The colon's 30 ms test across the wrap: with the last update 16 ms
   * before the counter wraps, the test fires 30 ms later (at 14) and not
   * 29 ms later (at 13), where a naive `now >= last + interval` test would
   * compare against an overflowed sum.
   */
  lemma WrapExample()
    ensures Elapsed(14, 0xFFFF_FFF0, 30)
    ensures !Elapsed(13, 0xFFFF_FFF0, 30)
  {
  }
}
