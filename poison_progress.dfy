/**
 * Termination of an anti-poisoning cycle: once started, and as long as no
 * new start interrupts it, a cycle ends after a bounded number of steps
 * with every tube showing its target, because all tubes still spinning
 * move in lockstep and each tube needs at most ten further steps once the
 * required number of rotations has been made.
 */
module PoisonProgress {
  import opened Units
  import opened ClockFace
  import opened Poison

  /**
   * Steps a tube showing `c` after `p` rotations needs before it may stop
   * on digit `d`, when `f` rotations are required: the first step after
   * which it has made at least `f` rotations and shows `d`.
   */
  function StepsToStop(c: int, p: int, d: int, f: int): (n: nat)
    requires 0 <= c <= 9 && 0 <= d <= 9
    ensures n >= 1
    decreases if p < f then 10 * (f - p) + 19 - c else 0, (d - c - 1) % 10
  {
    var c' := if c == 9 then 0 else c + 1;
    var p' := if c == 9 then p + 1 else p;
    if p' >= f && c' == d then 1 else 1 + StepsToStop(c', p', d, f)
  }

  /** Once enough rotations are made, a tube stops within one more turn of the wheel. */
  lemma {:induction false} StepsWhenSpun(c: int, p: int, d: int, f: int)
    requires 0 <= c <= 9 && 0 <= d <= 9 && p >= f
    ensures StepsToStop(c, p, d, f) == (d - c - 1) % 10 + 1
    decreases (d - c - 1) % 10
  {
    var c' := if c == 9 then 0 else c + 1;
    var p' := if c == 9 then p + 1 else p;
    if c' != d {
      StepsWhenSpun(c', p', d, f);
    }
  }

  /** From `p` rotations short of `f`, a tube stops within `10 * (f - p) - c + 10` steps. */
  lemma {:induction false} StepsBeforeSpun(c: int, p: int, d: int, f: int)
    requires 0 <= c <= 9 && 0 <= d <= 9 && p < f
    ensures StepsToStop(c, p, d, f) <= 10 * (f - p) - c + 10
    decreases 10 * (f - p) + 19 - c
  {
    var c' := if c == 9 then 0 else c + 1;
    var p' := if c == 9 then p + 1 else p;
    if !(p' >= f && c' == d) {
      if p' < f {
        StepsBeforeSpun(c', p', d, f);
      } else {
        StepsWhenSpun(c', p', d, f);
      }
    }
  }

  /**
   * A cycle in progress: the invariant holds, the tubes still spinning all
   * show the same digit after the same number of rotations, and once one
   * tube has stopped every spinning tube has made the required rotations.
   */
  predicate Running(s: PoisonState)
  {
    Inv(s) && s.active && s.stopIndex < 4 &&
    (forall i :: 0 <= i < 4 && !s.stopped[i] ==>
       s.current[i] == s.current[StopOrder[s.stopIndex]] && s.spins[i] == s.spins[StopOrder[s.stopIndex]]) &&
    (s.stopIndex > 0 ==> forall i :: 0 <= i < 4 && !s.stopped[i] ==> s.spins[i] >= s.fullSpins)
  }

  /** Steps left in a running cycle, counting ten for each tube after the one whose turn it is. */
  function StepsLeft(s: PoisonState): nat
    requires Running(s)
  {
    var idx := StopOrder[s.stopIndex];
    StepsToStop(s.current[idx] as int, s.spins[idx], s.target[idx] as int, s.fullSpins) +
    10 * (3 - s.stopIndex)
  }

  /** All tubes still spinning take the same step: the one whose turn it is stands for all. */
  lemma SpinLockstep(s: PoisonState)
    requires Running(s)
    ensures var t := Spin(s);
      var idx := StopOrder[s.stopIndex];
      var c, p := s.current[idx], s.spins[idx];
      !s.stopped[idx] &&
      forall i :: 0 <= i < 4 && !s.stopped[i] ==>
        t.current[i] == (if c == 9 then 0 else c + 1) && t.spins[i] == (if c == 9 then p + 1 else p)
  {
    var t := Spin(s);
    var idx := StopOrder[s.stopIndex];
    var c, p := s.current[idx], s.spins[idx];
    assert !s.stopped[idx];
    forall i | 0 <= i < 4 && !s.stopped[i]
      ensures t.current[i] == (if c == 9 then 0 else c + 1) && t.spins[i] == (if c == 9 then p + 1 else p)
    {
      assert s.current[i] == c && s.spins[i] == p;
      assert t.current[i] == SpunDigits(s.current, s.stopped)[i];
      assert t.spins[i] == SpunCounters(s.current, s.stopped, s.spins)[i];
    }
  }

  /** A finished cycle shows its targets: every tube stopped, and a stopped tube shows its target. */
  lemma FinishedOnTarget(t: PoisonState)
    requires Inv(t) && AllStopped(t.stopped)
    ensures t.current == t.target
  {
    forall i | 0 <= i < 4 ensures t.current[i] == t.target[i] {
    }
  }

  /** Each step either ends the cycle on its targets or keeps it running with strictly fewer steps left. */
  lemma SpinProgress(s: PoisonState)
    requires Running(s)
    ensures var t := Spin(s);
      (!t.active ==> t.current == t.target) &&
      (t.active ==> Running(t) && StepsLeft(t) < StepsLeft(s))
  {
    SpinInv(s);
    SpinLockstep(s);
    var t := Spin(s);
    var k := s.stopIndex;
    var idx := StopOrder[k];
    var c, p := s.current[idx], s.spins[idx];
    var c' := if c == 9 then 0 else c + 1;
    var p' := if c == 9 then p + 1 else p;
    if !t.active {
      FinishedOnTarget(t);
    } else {
      var idx2 := StopOrder[t.stopIndex];
      assert !t.stopped[idx2];
      assert t.current[idx2] == c' && t.spins[idx2] == p';
      if t.stopIndex == k {
        assert t.stopped == s.stopped;
        assert StepsToStop(c as int, p, s.target[idx] as int, s.fullSpins) ==
               1 + StepsToStop(c' as int, p', s.target[idx] as int, s.fullSpins);
      } else {
        assert p' >= s.fullSpins;
        StepsWhenSpun(c' as int, p', t.target[idx2] as int, t.fullSpins);
      }
      assert forall i :: 0 <= i < 4 && !t.stopped[i] ==> !s.stopped[i];
    }
  }

  /**
   * A sequencer call that steps, with no start, is one step of the animation
   * with the step time set to `now`: `Cycle` below counts consecutive such calls.
   */
  lemma StepIsSpin(s: PoisonState, now: u32, r: Reading, long: bool)
    requires WellFormed(s) && Steps(s, now, long)
    ensures Step(s, now, r, long) == Spin(s).(lastStep := now)
    ensures Step(s, now, r, long).lastStep == now
  {
  }

  /** `n` consecutive steps of the animation with no new start in between. */
  function Cycle(s: PoisonState, n: nat): (t: PoisonState)
    requires WellFormed(s)
    ensures WellFormed(t)
    ensures t.target == s.target && t.fullSpins == s.fullSpins && t.stepInterval == s.stepInterval
    decreases n
  {
    if n == 0 || !s.active then s else Cycle(Spin(s), n - 1)
  }

  /** A running cycle is over, on its targets, after `StepsLeft` steps or any number more. */
  lemma {:induction false} CycleEnds(s: PoisonState, n: nat)
    requires Running(s) && n >= StepsLeft(s)
    ensures !Cycle(s, n).active && Cycle(s, n).current == Cycle(s, n).target
    decreases n
  {
    var t := Spin(s);
    SpinProgress(s);
    assert n >= 1;
    assert Cycle(s, n) == Cycle(t, n - 1);
    if t.active {
      CycleEnds(t, n - 1);
    } else {
      StoppedCycleStays(t, n - 1);
    }
  }

  /** An ended cycle stays ended: further steps change nothing. */
  lemma StoppedCycleStays(s: PoisonState, n: nat)
    requires WellFormed(s) && !s.active
    ensures Cycle(s, n) == s
  {
  }

  /**
   * Bounded completion: a cycle started from any state with a valid clock
   * reading is over after at most `10 * fullSpins + 40` steps (60 for the
   * routine cycle, 50 for the long one), and it then shows the time of the start.
   */
  lemma CycleBound(s: PoisonState, now: u32, r: Reading, long: bool)
    requires ValidReading(r)
    ensures var t := Start(s, now, r, long);
      WellFormed(t) && !Cycle(t, 10 * t.fullSpins + 40).active &&
      Cycle(t, 10 * t.fullSpins + 40).current == TimeFrame(r)
  {
    var t := Start(s, now, r, long);
    TimeFrameDigits(r);
    assert Running(t);
    var idx := StopOrder[0];
    StepsBeforeSpun(0, 0, t.target[idx] as int, t.fullSpins);
    CycleEnds(t, 10 * t.fullSpins + 40);
  }
}
