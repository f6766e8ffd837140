/**
 * The colon fader (`colonFade`): every 30 ms the colon's PWM brightness
 * moves by the current step, and the step changes sign when the
 * brightness reaches 255 or 0, giving a triangle wave between 0 and 255.
 */
module Colon {
  import opened Units
  import opened Timer

  const ColonInterval: u32 := 30

  /** The fader's brightness and signed step. */
  datatype Fade = Fade(brightness: int, step: int)

  /** The power-on values: dark, rising by 5. */
  const Rest: Fade := Fade(0, 5)

  /** One tick: add the step, then flip it at or above 255, then flip it at or below 0. */
  function Tick(f: Fade): Fade
  {
    var b := f.brightness + f.step;
    var s1 := if b >= 255 then -f.step else f.step;
    var s2 := if b <= 0 then -s1 else s1;
    Fade(b, s2)
  }

  /**
   * The reachable fader states: brightness a multiple of 5 in [0, 255], step
   * +5 below the top or -5 above the bottom.
   */
  predicate FadeInv(f: Fade)
  {
    0 <= f.brightness <= 255 && f.brightness % 5 == 0 &&
    ((f.step == 5 && f.brightness < 255) || (f.step == -5 && f.brightness > 0))
  }

  /**
   * A tick keeps the invariant, moves the brightness by exactly 5, and
   * flips the step exactly when the new brightness is 255 or 0.
   */
  lemma TickInv(f: Fade)
    requires FadeInv(f)
    ensures FadeInv(Tick(f))
    ensures Tick(f).brightness - f.brightness == f.step
    ensures Tick(f).step == -f.step <==> Tick(f).brightness == 255 || Tick(f).brightness == 0
  {
  }

  /** `n` ticks from the power-on state. */
  function Ticks(n: nat): Fade
  {
    if n == 0 then Rest else Tick(Ticks(n - 1))
  }

  /** The triangle wave of period 102 ticks: up from 0 to 255 in 51 ticks, then down again. */
  function Triangle(n: nat): (b: int)
    ensures 0 <= b <= 255 && b % 5 == 0
  {
    var p := n % 102;
    if p <= 51 then 5 * p else 5 * (102 - p)
  }

  /** The step after `n` ticks: +5 on the way up, -5 on the way down. */
  function Direction(n: nat): int
  {
    if n % 102 < 51 then 5 else -5
  }

  /** The fader follows the triangle wave exactly, for any number of ticks. */
  lemma {:induction false} TicksAreTriangle(n: nat)
    ensures Ticks(n) == Fade(Triangle(n), Direction(n))
    ensures FadeInv(Ticks(n))
  {
    if n > 0 {
      TicksAreTriangle(n - 1);
      var p := (n - 1) % 102;
      assert n % 102 == if p < 101 then p + 1 else 0;
    }
  }

  /** The colon's state, updated in place by each call. */
  class ColonFader {
    var lastColonUpdate: u32
    var colonBrightness: int
    var colonStep: int

    function Current(): Fade
      reads this
    {
      Fade(colonBrightness, colonStep)
    }

    constructor ()
      ensures Current() == Rest && lastColonUpdate == 0
    {
      lastColonUpdate := 0;
      colonBrightness := 0;
      colonStep := 5;
    }

    /**
     * One call at time `now`: a tick when 30 ms have passed since the last
     * one, returning the value written to the colon pin; otherwise nothing
     * changes and nothing is written.
     */
    method Update(now: u32) returns (written: Option<int>)
      modifies this
      ensures Elapsed(now, old(lastColonUpdate), ColonInterval) ==>
        lastColonUpdate == now && Current() == Tick(old(Current())) && written == Some(colonBrightness)
      ensures !Elapsed(now, old(lastColonUpdate), ColonInterval) ==>
        unchanged(this) && written == None
    {
      written := None;
      if Elapsed(now, lastColonUpdate, ColonInterval) {
        lastColonUpdate := now;
        colonBrightness := colonBrightness + colonStep;
        if colonBrightness >= 255 {
          colonStep := -colonStep;
        }
        if colonBrightness <= 0 {
          colonStep := -colonStep;
        }
        written := Some(colonBrightness);
      }
    }
  }
}
