/**
 * The anti-poisoning sequencer (`Nixie_Poisoning_Prevention`): a slot-machine
 * animation that spins every tube through all ten digits and stops them one
 * at a time, in the fixed order of `StopOrder`, on the digits of the current
 * time. A routine cycle starts every four hours while the sequencer is idle;
 * the long cycle flag of the 03:00 trigger starts (and restarts) a slower
 * cycle on every call while it is set, active or not.
 */
module Poison {
  import opened Units
  import opened Timer
  import opened ClockFace
  import Display

  /** Tube positions in the order they stop: `{1, 0, 3, 2}`. */
  const StopOrder: seq<int> := [1, 0, 3, 2]

  /** Four hours in milliseconds. */
  const PoisonInterval: u32 := 14400000

  const RoutineStepInterval: u32 := 200
  const RoutineSpins: int := 2
  const LongStepInterval: u32 := 1000
  const LongSpins: int := 1

  /** The sequencer's variables, as values. */
  datatype PoisonState = PoisonState(
    active: bool,            // poisonPrevention
    current: seq<byte>,      // currentDigit
    stopped: seq<bool>,      // digitStopped
    spins: seq<int>,         // spinCounter
    stopIndex: int,          // index into StopOrder
    target: seq<byte>,       // targetDigit
    stepInterval: u32,
    fullSpins: int,          // fullSpinsBeforeStop
    lastStep: u32,           // lastStepTime
    lastCycle: u32)          // lastPoisonCycle

  /** Shape facts the code keeps by construction: four tubes, `stopIndex` in 0..4. */
  predicate WellFormed(s: PoisonState)
  {
    |s.current| == 4 && |s.stopped| == 4 && |s.spins| == 4 && |s.target| == 4 &&
    0 <= s.stopIndex <= 4
  }

  /** The state at power-on: globals zero-initialised, 200 ms steps, two spins. */
  function Initial(): (s: PoisonState)
    ensures WellFormed(s)
  {
    PoisonState(false, [0, 0, 0, 0], [false, false, false, false], [0, 0, 0, 0], 0,
                [0, 0, 0, 0], RoutineStepInterval, RoutineSpins, 0, 0)
  }

  /** The start condition: idle for at least four hours, or the long-cycle flag, active or not. */
  predicate Triggered(s: PoisonState, now: u32, long: bool)
  {
    (!s.active && Elapsed(now, s.lastCycle, PoisonInterval)) || long
  }

  /** The state a start leaves behind. */
  function Start(s: PoisonState, now: u32, r: Reading, long: bool): PoisonState
  {
    s.(active := true,
       stepInterval := if long then LongStepInterval else RoutineStepInterval,
       fullSpins := if long then LongSpins else RoutineSpins,
       lastStep := now, lastCycle := now,
       target := TimeFrame(r),
       current := [0, 0, 0, 0],
       stopped := [false, false, false, false],
       spins := [0, 0, 0, 0],
       stopIndex := 0)
  }

  /** `currentDigit[i]++` on a `uint8_t`, then reset to 0 past 9. */
  function NextDigit(d: byte): byte
  {
    var n := (d as int + 1) % 256;
    if n > 9 then 0 else n as byte
  }

  /** Whether the increment passed 9, which counts one full rotation. */
  predicate Wraps(d: byte)
  {
    (d as int + 1) % 256 > 9
  }

  function SpunDigits(current: seq<byte>, stopped: seq<bool>): (c: seq<byte>)
    requires |current| == 4 && |stopped| == 4
    ensures |c| == 4
  {
    seq(4, i requires 0 <= i < 4 => if stopped[i] then current[i] else NextDigit(current[i]))
  }

  function SpunCounters(current: seq<byte>, stopped: seq<bool>, spins: seq<int>): (n: seq<int>)
    requires |current| == 4 && |stopped| == 4 && |spins| == 4
    ensures |n| == 4
  {
    seq(4, i requires 0 <= i < 4 =>
      if !stopped[i] && Wraps(current[i]) then spins[i] + 1 else spins[i])
  }

  /** True when every tube has stopped. */
  predicate AllStopped(stopped: seq<bool>)
    requires |stopped| == 4
  {
    stopped[0] && stopped[1] && stopped[2] && stopped[3]
  }

  /**
   * One step of the animation: advance the tubes still spinning, then look
   * at the one tube whose turn it is and stop it if it has made enough full
   * rotations and shows its target; the cycle ends when all four stopped.
   */
  function Spin(s: PoisonState): (t: PoisonState)
    requires WellFormed(s)
    ensures WellFormed(t)
  {
    var current := SpunDigits(s.current, s.stopped);
    var spins := SpunCounters(s.current, s.stopped, s.spins);
    var idx := if s.stopIndex < 4 then StopOrder[s.stopIndex] else 0;
    var stops := s.stopIndex < 4 && spins[idx] >= s.fullSpins && current[idx] == s.target[idx];
    var stopped := if stops then s.stopped[idx := true] else s.stopped;
    s.(current := current, spins := spins, stopped := stopped,
       stopIndex := if stops then s.stopIndex + 1 else s.stopIndex,
       active := !AllStopped(stopped))
  }

  /** Whether a call at `now` advances the animation (after any start it makes). */
  predicate Steps(s: PoisonState, now: u32, long: bool)
  {
    !Triggered(s, now, long) && s.active && Elapsed(now, s.lastStep, s.stepInterval)
  }

  /** One call of the sequencer at time `now`, with clock reading `r` and the long-cycle flag. */
  function Step(s: PoisonState, now: u32, r: Reading, long: bool): (t: PoisonState)
    requires WellFormed(s)
    ensures WellFormed(t)
  {
    var s1 := if Triggered(s, now, long) then Start(s, now, r, long) else s;
    if s1.active && Elapsed(now, s1.lastStep, s1.stepInterval) then Spin(s1.(lastStep := now))
    else s1
  }

  /**
   * The state invariant: digits in 0..9, the stopped tubes are exactly the
   * first `stopIndex` of the stop order and show their targets, and an
   * active cycle has a tube left to stop.
   */
  predicate Inv(s: PoisonState)
  {
    WellFormed(s) &&
    (forall i :: 0 <= i < 4 ==> s.current[i] <= 9 && s.target[i] <= 9 && s.spins[i] >= 0) &&
    (forall k :: 0 <= k < 4 ==> (s.stopped[StopOrder[k]] <==> k < s.stopIndex)) &&
    (forall i :: 0 <= i < 4 && s.stopped[i] ==> s.current[i] == s.target[i]) &&
    (s.active ==> s.stopIndex < 4) &&
    (s.fullSpins == RoutineSpins || s.fullSpins == LongSpins)
  }

  lemma InitialInv()
    ensures Inv(Initial())
  {
  }

  /** Every tube appears exactly once in the stop order. */
  lemma StopOrderIsPermutation(i: int)
    requires 0 <= i < 4
    ensures exists k :: 0 <= k < 4 && StopOrder[k] == i && forall j :: 0 <= j < 4 && StopOrder[j] == i ==> j == k
  {
    if i == 0 { assert StopOrder[1] == 0; }
    else if i == 1 { assert StopOrder[0] == 1; }
    else if i == 2 { assert StopOrder[3] == 2; }
    else { assert StopOrder[2] == 3; }
  }

  /**
   * The trigger rule: a call that meets the start condition leaves exactly
   * the start state (no step happens on the starting call), with the slow
   * 1000 ms / one-spin timing for the long cycle and 200 ms / two spins for
   * the routine one, and the normal-time frame as the target. A routine
   * trigger cannot fire while a cycle is active; the long flag always does.
   */
  lemma TriggerRule(s: PoisonState, now: u32, r: Reading, long: bool)
    requires WellFormed(s)
    ensures Triggered(s, now, long) <==> long || (!s.active && Elapsed(now, s.lastCycle, PoisonInterval))
    ensures Triggered(s, now, long) ==> Step(s, now, r, long) == Start(s, now, r, long)
    ensures Triggered(s, now, long) ==>
      var t := Step(s, now, r, long);
      t.active && t.stopIndex == 0 && t.target == TimeFrame(r) &&
      t.current == [0, 0, 0, 0] && t.spins == [0, 0, 0, 0] &&
      t.stopped == [false, false, false, false] &&
      t.lastCycle == now && t.lastStep == now &&
      (long ==> t.stepInterval == 1000 && t.fullSpins == 1) &&
      (!long ==> t.stepInterval == 200 && t.fullSpins == 2)
    ensures s.active && !long ==> !Triggered(s, now, long)
  {
    if Triggered(s, now, long) {
      var st := Start(s, now, r, long);
      assert Since(now, now) == 0;
      assert !Elapsed(now, st.lastStep, st.stepInterval);
    }
  }

  /**
   * Without a trigger, a call is a no-op unless the sequencer is active and
   * its step interval has elapsed; the target and timing never change mid-cycle.
   */
  lemma NoTriggerKeepsCycle(s: PoisonState, now: u32, r: Reading, long: bool)
    requires WellFormed(s)
    requires !Triggered(s, now, long)
    ensures !Steps(s, now, long) ==> Step(s, now, r, long) == s
    ensures var t := Step(s, now, r, long);
      t.target == s.target && t.stepInterval == s.stepInterval && t.fullSpins == s.fullSpins &&
      t.lastCycle == s.lastCycle && (t.lastStep == now || t.lastStep == s.lastStep)
  {
  }

  /**
   * A step advances exactly the tubes not yet stopped, by one, wrapping 9 to
   * 0 and counting a rotation on the wrap; stopped tubes and their counters
   * keep their values, and every tube still shows a digit 0..9.
   */
  lemma SpinStep(s: PoisonState, now: u32, r: Reading, long: bool)
    requires Inv(s) && Steps(s, now, long)
    ensures var t := Step(s, now, r, long);
      t.lastStep == now &&
      forall i :: 0 <= i < 4 ==>
        t.current[i] <= 9 &&
        (s.stopped[i] ==> t.current[i] == s.current[i] && t.spins[i] == s.spins[i]) &&
        (!s.stopped[i] ==> t.current[i] as int == (s.current[i] as int + 1) % 10 &&
                           t.spins[i] == s.spins[i] + (if s.current[i] == 9 then 1 else 0))
  {
  }

  /**
   * The stop order: a step stops at most one tube, only `StopOrder[stopIndex]`,
   * and exactly when that tube has made enough rotations and shows its
   * target; `stopIndex` grows by one when it does and stays otherwise.
   */
  lemma StopRule(s: PoisonState, now: u32, r: Reading, long: bool)
    requires Inv(s) && Steps(s, now, long)
    ensures var t := Step(s, now, r, long);
      var idx := StopOrder[s.stopIndex];
      var due := t.spins[idx] >= s.fullSpins && t.current[idx] == s.target[idx];
      t.stopIndex == (if due then s.stopIndex + 1 else s.stopIndex) &&
      (forall i :: 0 <= i < 4 ==> (t.stopped[i] <==> s.stopped[i] || (due && i == idx))) &&
      (due ==> !s.stopped[idx])
  {
  }

  /** A step of an active cycle keeps the invariant. */
  lemma SpinInv(s: PoisonState)
    requires Inv(s) && s.active
    ensures Inv(Spin(s))
  {
    var t := Spin(s);
    var idx := StopOrder[s.stopIndex];
    forall k | 0 <= k < 4
      ensures t.stopped[StopOrder[k]] <==> k < t.stopIndex
    {
      assert StopOrder[k] == idx <==> k == s.stopIndex;
    }
    forall i | 0 <= i < 4 && !t.stopped[i]
      ensures t.stopIndex < 4
    {
      StopOrderIsPermutation(i);
    }
  }

  /** Every call keeps the invariant, given a reading the clock can produce. */
  lemma StepInv(s: PoisonState, now: u32, r: Reading, long: bool)
    requires Inv(s) && ValidReading(r)
    ensures Inv(Step(s, now, r, long))
  {
    var s1 := if Triggered(s, now, long) then Start(s, now, r, long) else s;
    if Triggered(s, now, long) {
      TimeFrameDigits(r);
    }
    assert Inv(s1);
    if s1.active && Elapsed(now, s1.lastStep, s1.stepInterval) {
      SpinInv(s1.(lastStep := now));
    }
  }

  /**
   * Completion: a step of an active cycle ends it exactly when all four
   * tubes have stopped, and then every tube shows its target.
   */
  lemma Completion(s: PoisonState, now: u32, r: Reading, long: bool)
    requires Inv(s) && ValidReading(r) && Steps(s, now, long)
    ensures var t := Step(s, now, r, long);
      (!t.active <==> AllStopped(t.stopped)) &&
      (!t.active ==> t.current == t.target && t.stopIndex == 4)
  {
    var t := Step(s, now, r, long);
    StepInv(s, now, r, long);
    if !t.active {
      forall i | 0 <= i < 4 ensures t.current[i] == t.target[i] {
      }
      assert t.current == t.target;
      assert t.stopped[StopOrder[3]];
    }
  }

  /**
   * The sequencer's storage: the global arrays of the firmware, updated in
   * place, with the scalar variables beside them.
   */
  class Sequencer {
    var active: bool
    const currentDigit: array<byte>
    const digitStopped: array<bool>
    const spinCounter: array<int>
    var stopIndex: int
    const targetDigit: array<byte>
    var stepInterval: u32
    var fullSpinsBeforeStop: int
    var lastStepTime: u32
    var lastPoisonCycle: u32

    ghost predicate Valid()
      reads this
    {
      currentDigit.Length == 4 && digitStopped.Length == 4 && spinCounter.Length == 4 &&
      targetDigit.Length == 4 && currentDigit != targetDigit && 0 <= stopIndex <= 4
    }

    ghost function State(): (s: PoisonState)
      reads this, currentDigit, digitStopped, spinCounter, targetDigit
      requires Valid()
      ensures WellFormed(s)
    {
      PoisonState(active, currentDigit[..], digitStopped[..], spinCounter[..], stopIndex,
                  targetDigit[..], stepInterval, fullSpinsBeforeStop, lastStepTime, lastPoisonCycle)
    }

    constructor ()
      ensures Valid() && State() == Initial()
      ensures fresh(currentDigit) && fresh(digitStopped) && fresh(spinCounter) && fresh(targetDigit)
    {
      active := false;
      currentDigit := new byte[4](_ => 0);
      digitStopped := new bool[4](_ => false);
      spinCounter := new int[4](_ => 0);
      stopIndex := 0;
      targetDigit := new byte[4](_ => 0);
      stepInterval := RoutineStepInterval;
      fullSpinsBeforeStop := RoutineSpins;
      lastStepTime := 0;
      lastPoisonCycle := 0;
      new;
      assert currentDigit[..] == [0, 0, 0, 0];
      assert digitStopped[..] == [false, false, false, false];
      assert spinCounter[..] == [0, 0, 0, 0];
      assert targetDigit[..] == [0, 0, 0, 0];
    }

    /**
     * `Nixie_Poisoning_Prevention` at time `now`. Returns the serial stream
     * it shifts out when it steps (the spinning digits), or nothing.
     */
    method Run(now: u32, reading: Reading, longPoison: bool) returns (wire: seq<bool>)
      requires Valid()
      modifies this, currentDigit, digitStopped, spinCounter, targetDigit
      ensures Valid()
      ensures State() == Step(old(State()), now, reading, longPoison)
      ensures wire == if Steps(old(State()), now, longPoison) then Display.Stream(State().current) else []
    {
      wire := [];
      if (!active && Elapsed(now, lastPoisonCycle, PoisonInterval)) || longPoison {
        StartCycle(now, reading, longPoison);
      }
      if !active {
        return;
      }
      if Elapsed(now, lastStepTime, stepInterval) {
        wire := Advance(now);
      }
    }

    /** The start branch: timing for the cycle kind, the target from the clock, all tubes reset. */
    method StartCycle(now: u32, reading: Reading, longPoison: bool)
      requires Valid()
      modifies this, currentDigit, digitStopped, spinCounter, targetDigit
      ensures Valid()
      ensures State() == Start(old(State()), now, reading, longPoison)
    {
      if longPoison {
        stepInterval := 1000;
        fullSpinsBeforeStop := 1;
      } else {
        stepInterval := 200;
        fullSpinsBeforeStop := 2;
      }
      active := true;
      lastStepTime := now;
      lastPoisonCycle := now;

      var hour12 := reading.hour as int % 12;
      if hour12 == 0 {
        hour12 := 12;
      }
      targetDigit[0] := reading.minute / 10;
      targetDigit[1] := reading.minute % 10;
      targetDigit[2] := (hour12 / 10) as byte;
      targetDigit[3] := (hour12 % 10) as byte;
      assert targetDigit[..] == TimeFrame(reading);

      var i := 0;
      while i < 4
        invariant 0 <= i <= 4
        modifies currentDigit, digitStopped, spinCounter
        invariant forall k :: 0 <= k < i ==> currentDigit[k] == 0 && !digitStopped[k] && spinCounter[k] == 0
        invariant targetDigit[..] == TimeFrame(reading)
      {
        currentDigit[i] := 0;
        digitStopped[i] := false;
        spinCounter[i] := 0;
        i := i + 1;
      }
      stopIndex := 0;
      assert currentDigit[..] == [0, 0, 0, 0];
      assert digitStopped[..] == [false, false, false, false];
      assert spinCounter[..] == [0, 0, 0, 0];
      assert active && stopIndex == 0 && lastStepTime == now && lastPoisonCycle == now;
      assert targetDigit[..] == TimeFrame(reading);
      assert stepInterval == if longPoison then LongStepInterval else RoutineStepInterval;
      assert fullSpinsBeforeStop == if longPoison then LongSpins else RoutineSpins;
    }

    /** The step branch: spin, maybe stop the tube whose turn it is, show, and detect the end. */
    method Advance(now: u32) returns (wire: seq<bool>)
      requires Valid() && active
      modifies this, currentDigit, digitStopped, spinCounter
      ensures Valid()
      ensures State() == Spin(old(State()).(lastStep := now))
      ensures wire == Display.Stream(State().current)
    {
      ghost var t := Spin(State().(lastStep := now));
      ghost var s1 := State();
      lastStepTime := now;
      SpinTubes();
      assert currentDigit[..] == t.current && spinCounter[..] == t.spins;

      TryStop();
      assert digitStopped[..] == t.stopped && stopIndex == t.stopIndex;

      wire := Display.DisplayDigit(currentDigit);

      var allStopped := AllTubesStopped();
      if allStopped {
        active := false;
      }
      assert active == t.active;
    }

    /** Stops the tube whose turn it is when it has spun enough and shows its target. */
    method TryStop()
      requires Valid()
      modifies this`stopIndex, digitStopped
      ensures Valid()
      ensures var s := old(State());
        var idx := if s.stopIndex < 4 then StopOrder[s.stopIndex] else 0;
        var stops := s.stopIndex < 4 && s.spins[idx] >= s.fullSpins && s.current[idx] == s.target[idx];
        digitStopped[..] == (if stops then s.stopped[idx := true] else s.stopped) &&
        stopIndex == (if stops then s.stopIndex + 1 else s.stopIndex)
    {
      if stopIndex < 4 {
        var idx := StopOrder[stopIndex];
        if spinCounter[idx] >= fullSpinsBeforeStop && currentDigit[idx] == targetDigit[idx] {
          digitStopped[idx] := true;
          stopIndex := stopIndex + 1;
        }
      }
    }

    /** The loop that decides whether the cycle is over: true exactly when every tube has stopped. */
    method AllTubesStopped() returns (allStopped: bool)
      requires Valid()
      ensures allStopped == AllStopped(digitStopped[..])
    {
      allStopped := true;
      var j := 0;
      while j < 4
        invariant 0 <= j <= 4
        invariant allStopped <==> forall k :: 0 <= k < j ==> digitStopped[k]
      {
        if !digitStopped[j] {
          allStopped := false;
        }
        j := j + 1;
      }
    }

    /** The loop that advances every tube not yet stopped. */
    method SpinTubes()
      requires Valid()
      modifies currentDigit, spinCounter
      ensures currentDigit[..] == SpunDigits(old(currentDigit[..]), digitStopped[..])
      ensures spinCounter[..] == SpunCounters(old(currentDigit[..]), digitStopped[..], old(spinCounter[..]))
    {
      var i := 0;
      while i < 4
        invariant 0 <= i <= 4
        invariant forall k :: 0 <= k < i ==> currentDigit[k] == SpunDigits(old(currentDigit[..]), digitStopped[..])[k]
        invariant forall k :: 0 <= k < i ==> spinCounter[k] == SpunCounters(old(currentDigit[..]), digitStopped[..], old(spinCounter[..]))[k]
        invariant forall k :: i <= k < 4 ==> currentDigit[k] == old(currentDigit[k]) && spinCounter[k] == old(spinCounter[k])
      {
        if !digitStopped[i] {
          currentDigit[i] := ((currentDigit[i] as int + 1) % 256) as byte;
          if currentDigit[i] > 9 {
            currentDigit[i] := 0;
            spinCounter[i] := spinCounter[i] + 1;
          }
        }
        i := i + 1;
      }
    }
  }
}
