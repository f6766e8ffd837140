/**
 * One pass of the main loop (`loop`): read the clock, choose what the tubes
 * show (the date window over an active anti-poisoning cycle over the normal
 * time), advance the colon fader, call the sequencer (and call it again
 * with the long-cycle flag at 03:00), and handle at most one remote code.
 * The frame shown is chosen before the sequencer runs, so it reflects the
 * sequencer and date state left by the previous pass.
 */
module Scheduler {
  import opened Units
  import opened Timer
  import opened ClockFace
  import opened Display
  import opened Poison
  import opened Colon
  import opened Remote

  /** One latch of the shift registers: a defined serial stream, or the uninitialised frame. */
  datatype Latch = Frame(wire: seq<bool>) | Undefined

  /** Everything a pass leaves observable outside its own variables. */
  datatype Output = Output(latches: seq<Latch>, colon: Option<int>, effect: Effect)

  /** The loop's variables as values. */
  datatype ClockState = ClockState(
    poison: PoisonState, fade: Fade, lastColon: u32, controls: Controls, longPoison: bool)

  predicate WellFormedState(st: ClockState)
  {
    WellFormed(st.poison) && |st.controls.dateDigits| == 4
  }

  /** The 03:00 condition that raises the long-cycle flag. */
  predicate LongMinute(r: Reading)
  {
    r.hour == 3 && r.minute == 0
  }

  /** What the display stage of a pass latches, given the previous pass's state. */
  function DisplayStage(st: ClockState, now: u32, r: Reading): (ls: seq<Latch>)
    requires WellFormedState(st)
  {
    if st.controls.showingDate then
      [Frame(Stream(st.controls.dateDigits))] +
      (if DateExpired(st.controls, now) then [Undefined] else [Frame(Stream(st.controls.dateDigits))])
    else if st.poison.active then [Frame(Stream(st.poison.current))]
    else [Frame(Stream(TimeFrame(r)))]
  }

  /** The sequencer calls of a pass: once with the flag left by the previous pass, again at 03:00. */
  function SequencerStage(p: PoisonState, now: u32, r: Reading, long: bool): (res: (PoisonState, seq<Latch>))
    requires WellFormed(p)
    ensures WellFormed(res.0)
  {
    var p1 := Step(p, now, r, long);
    var spun := if Steps(p, now, long) then [Frame(Stream(p1.current))] else [];
    (if LongMinute(r) then Step(p1, now, r, true) else p1, spun)
  }

  /** The remote stage of a pass: the received code, if any, dispatched. */
  function RemoteStage(c: Controls, code: Option<u32>, r: Reading, now: u32): (res: (Controls, Effect))
    ensures |c.dateDigits| == 4 ==> |res.0.dateDigits| == 4
  {
    if code.Some? then Dispatch(c, code.value, r, now) else (c, Effect([], 0))
  }

  /** One pass at time `now`, clock reading `r`, and the remote code received, if any. */
  function Pass(st: ClockState, now: u32, r: Reading, code: Option<u32>): (res: (ClockState, Output))
    requires WellFormedState(st)
    ensures WellFormedState(res.0)
  {
    var shown := DisplayStage(st, now, r);
    var c1 := st.controls.(showingDate := st.controls.showingDate && !DateExpired(st.controls, now));
    var ticks := Elapsed(now, st.lastColon, ColonInterval);
    var fade := if ticks then Tick(st.fade) else st.fade;
    var (p2, spun) := SequencerStage(st.poison, now, r, st.longPoison);
    var (c2, effect) := RemoteStage(c1, code, r, now);
    (ClockState(p2, fade, if ticks then now else st.lastColon, c2, LongMinute(r)),
     Output(shown + spun, if ticks then Some(fade.brightness) else None, effect))
  }

  /**
   * Display priority: the first latch of a pass is the date while the date
   * window is open, else the spinning digits while a cycle is active, else
   * the time; all from the state the previous pass left. The uninitialised
   * frame is latched exactly on the pass where the date window runs out.
   */
  lemma DisplayPriority(st: ClockState, now: u32, r: Reading, code: Option<u32>)
    requires WellFormedState(st)
    ensures var out := Pass(st, now, r, code).1;
      |out.latches| >= 1 &&
      out.latches[0] == Frame(Stream(
        if st.controls.showingDate then st.controls.dateDigits
        else if st.poison.active then st.poison.current
        else TimeFrame(r))) &&
      (Undefined in out.latches <==> st.controls.showingDate && DateExpired(st.controls, now))
  {
    var out := Pass(st, now, r, code).1;
    var shown := DisplayStage(st, now, r);
    assert out.latches[..|shown|] == shown;
  }

  /**
   * The date window: once it runs out the flag is cleared (unless `#` is
   * pressed again on that pass), so the next pass shows the sequencer or
   * the time; while it lasts the date is latched twice.
   */
  lemma DateWindow(st: ClockState, now: u32, r: Reading, code: Option<u32>)
    requires WellFormedState(st) && st.controls.showingDate
    ensures var (st', out) := Pass(st, now, r, code);
      (DateExpired(st.controls, now) && code != Some(BtnPound) ==> !st'.controls.showingDate) &&
      (!DateExpired(st.controls, now) ==>
         st'.controls.showingDate &&
         out.latches[..2] == [Frame(Stream(st.controls.dateDigits)), Frame(Stream(st.controls.dateDigits))])
  {
    var (st', out) := Pass(st, now, r, code);
    var shown := DisplayStage(st, now, r);
    assert out.latches[..|shown|] == shown;
    if code.Some? && code.value != BtnPound {
      var c1 := st.controls.(showingDate := st.controls.showingDate && !DateExpired(st.controls, now));
      assert Dispatch(c1, code.value, r, now).0.showingDate == c1.showingDate;
    }
  }

  /**
   * At 03:00 every pass ends at the start of a long cycle: the second
   * sequencer call of each pass runs with the flag set. From the second call
   * of the minute on, every call restarts the long cycle, so the tubes do not
   * step. The first call of the first 03:00 pass still sees the flag clear
   * from 02:59 and may step a running cycle; once the flag is set from the
   * previous pass, the sequencer writes nothing.
   */
  lemma LongMinuteRestarts(st: ClockState, now: u32, r: Reading, code: Option<u32>)
    requires WellFormedState(st) && LongMinute(r)
    ensures var (st', out) := Pass(st, now, r, code);
      st'.longPoison &&
      st'.poison.active && st'.poison.current == [0, 0, 0, 0] && st'.poison.stopIndex == 0 &&
      st'.poison.stepInterval == 1000 && st'.poison.fullSpins == 1 && st'.poison.lastStep == now &&
      st'.poison.target == TimeFrame(r)
    ensures st.longPoison ==> |Pass(st, now, r, code).1.latches| == |DisplayStage(st, now, r)|
  {
    var p1 := Step(st.poison, now, r, st.longPoison);
    TriggerRule(p1, now, r, true);
    TriggerRule(st.poison, now, r, st.longPoison);
  }

  /**
   * The first pass after 03:00 still sees the flag and restarts the long
   * cycle once more; from then on the flag is clear and the cycle runs.
   */
  lemma FirstPassAfterLongMinute(st: ClockState, now: u32, r: Reading, code: Option<u32>)
    requires WellFormedState(st) && st.longPoison && !LongMinute(r)
    ensures var (st', out) := Pass(st, now, r, code);
      !st'.longPoison && st'.poison == Start(st.poison, now, r, true)
  {
    TriggerRule(st.poison, now, r, true);
  }

  /** The loop's invariants: the sequencer's and the fader's, and a displayable date. */
  predicate ClockInv(st: ClockState)
  {
    WellFormedState(st) && Inv(st.poison) && FadeInv(st.fade) &&
    forall k :: 0 <= k < 4 ==> st.controls.dateDigits[k] <= 9
  }

  /** The state `NixieClock`'s constructor builds from the settings loaded at boot. */
  function PowerOn(brightness: int, preset: int, dst: bool): ClockState
  {
    ClockState(Initial(), Rest, 0, Controls(brightness, preset, false, [0, 0, 0, 0], 0, dst, map[]), false)
  }

  /** The power-on state satisfies the loop's invariants, whatever settings were loaded. */
  lemma PowerOnInv(brightness: int, preset: int, dst: bool)
    ensures ClockInv(PowerOn(brightness, preset, dst))
  {
    InitialInv();
    TicksAreTriangle(0);
  }

  /** The remote stage leaves displayable date digits: either those it had, or the date frame of `#`. */
  lemma RemoteStageKeepsDate(c: Controls, code: Option<u32>, r: Reading, now: u32)
    requires |c.dateDigits| == 4 && ValidReading(r)
    requires forall k :: 0 <= k < 4 ==> c.dateDigits[k] <= 9
    ensures var c' := RemoteStage(c, code, r, now).0;
      c'.dateDigits == (if code == Some(BtnPound) then DateFrame(r) else c.dateDigits) &&
      forall k :: 0 <= k < 4 ==> c'.dateDigits[k] <= 9
  {
    DateFrameDigits(r);
  }

  /** A pass keeps the loop's invariants, for any code and any valid clock reading. */
  lemma PassInv(st: ClockState, now: u32, r: Reading, code: Option<u32>)
    requires ClockInv(st) && ValidReading(r)
    ensures ClockInv(Pass(st, now, r, code).0)
  {
    var p1 := Step(st.poison, now, r, st.longPoison);
    StepInv(st.poison, now, r, st.longPoison);
    StepInv(p1, now, r, true);
    TickInv(st.fade);
    var c1 := st.controls.(showingDate := st.controls.showingDate && !DateExpired(st.controls, now));
    RemoteStageKeepsDate(c1, code, r, now);
  }

  /** The firmware's variables, wired together as in `loop`. */
  class NixieClock {
    const sequencer: Sequencer
    const fader: ColonFader
    const remote: Dispatcher
    var longPoison: bool

    ghost predicate Valid()
      reads this, sequencer, remote
    {
      sequencer.Valid() && remote.Valid() &&
      remote.dateDigits != sequencer.currentDigit && remote.dateDigits != sequencer.targetDigit
    }

    ghost function State(): (st: ClockState)
      reads this, sequencer, sequencer.currentDigit, sequencer.digitStopped, sequencer.spinCounter,
            sequencer.targetDigit, fader, remote, remote.dateDigits
      requires Valid()
      ensures WellFormedState(st)
    {
      ClockState(sequencer.State(), fader.Current(), fader.lastColonUpdate, remote.Snapshot(), longPoison)
    }

    /** Power-on with the settings loaded from the store. */
    constructor (brightness: int, preset: int, dst: bool)
      ensures Valid() && fresh(sequencer) && fresh(fader) && fresh(remote)
      ensures State() == PowerOn(brightness, preset, dst)
    {
      sequencer := new Sequencer();
      fader := new ColonFader();
      remote := new Dispatcher(brightness, preset, dst);
      longPoison := false;
    }

    /** One pass of `loop`. */
    method RunPass(now: u32, r: Reading, code: Option<u32>) returns (out: Output)
      requires Valid()
      modifies this, sequencer, sequencer.currentDigit, sequencer.digitStopped, sequencer.spinCounter,
               sequencer.targetDigit, fader, remote, remote.dateDigits
      ensures Valid()
      ensures (State(), out) == Pass(old(State()), now, r, code)
    {
      ghost var st := State();
      var latches := DisplayPass(now, r);
      ghost var c1 := remote.Snapshot();
      assert c1 == st.controls.(showingDate := st.controls.showingDate && !DateExpired(st.controls, now));

      var colon := fader.Update(now);

      var spun := SequencerCalls(now, r);
      assert sequencer.State() == SequencerStage(st.poison, now, r, st.longPoison).0;

      var effect := Effect([], 0);
      if code.Some? {
        effect := remote.Handle(code.value, r, now);
      }
      assert (remote.Snapshot(), effect) == RemoteStage(c1, code, r, now);
      out := Output(latches + spun, colon, effect);
    }

    /** The two sequencer calls of `loop` and the long-cycle flag between them. */
    method SequencerCalls(now: u32, r: Reading) returns (spun: seq<Latch>)
      requires Valid()
      modifies this`longPoison, sequencer, sequencer.currentDigit, sequencer.digitStopped,
               sequencer.spinCounter, sequencer.targetDigit
      ensures Valid()
      ensures (sequencer.State(), spun) == SequencerStage(old(sequencer.State()), now, r, old(longPoison))
      ensures longPoison == LongMinute(r)
    {
      ghost var p := sequencer.State();
      var wire := sequencer.Run(now, r, longPoison);
      spun := if wire != [] then [Frame(wire)] else [];
      longPoison := false;
      if r.hour == 3 && r.minute == 0 {
        longPoison := true;
        var wire2 := sequencer.Run(now, r, longPoison);
      }
    }

    /** The display stage of `loop`: the source choice and the latches. */
    method DisplayPass(now: u32, r: Reading) returns (latches: seq<Latch>)
      requires Valid()
      modifies remote`showingDate
      ensures Valid()
      ensures latches == DisplayStage(old(State()), now, r)
      ensures remote.showingDate == (old(remote.showingDate) && !DateExpired(old(remote.Snapshot()), now))
    {
      var digits := TimeDigits(r);
      latches := [];
      var digitsToShow := new byte[4];
      var initialised := false;
      if remote.showingDate {
        var w := remote.DisplayDate(now);
        latches := [Frame(w)];
      } else if sequencer.active {
        CopyDigits(sequencer.currentDigit, digitsToShow);
        initialised := true;
      } else {
        CopyDigits(digits, digitsToShow);
        initialised := true;
      }
      var second := ShowSelected(digitsToShow, initialised);
      latches := latches + [second];
    }

    /** The second `displayDigit` of `loop`: the date if the window is still open, else the chosen digits. */
    method ShowSelected(digitsToShow: array<byte>, initialised: bool) returns (latch: Latch)
      requires Valid() && digitsToShow.Length == 4
      ensures latch == if remote.showingDate then Frame(Stream(remote.dateDigits[..]))
                       else if initialised then Frame(Stream(digitsToShow[..])) else Undefined
    {
      if remote.showingDate {
        var w := DisplayDigit(remote.dateDigits);
        latch := Frame(w);
      } else if initialised {
        var w := DisplayDigit(digitsToShow);
        latch := Frame(w);
      } else {
        latch := Undefined;
      }
    }
  }

  /** The normal-time digits of `loop`: minute tens and ones, then 12-hour hour tens and ones. */
  method TimeDigits(r: Reading) returns (digits: array<byte>)
    ensures fresh(digits) && digits.Length == 4 && digits[..] == TimeFrame(r)
  {
    var hour12 := r.hour as int % 12;
    if hour12 == 0 {
      hour12 := 12;
    }
    digits := new byte[4];
    digits[0], digits[1], digits[2], digits[3] :=
      r.minute / 10, r.minute % 10, (hour12 / 10) as byte, (hour12 % 10) as byte;
  }

  /** The `for` loop copying one frame into `digitsToShow`. */
  method CopyDigits(src: array<byte>, dst: array<byte>)
    requires src.Length == 4 && dst.Length == 4 && src != dst
    modifies dst
    ensures dst[..] == src[..]
  {
    var i := 0;
    while i < 4
      invariant 0 <= i <= 4
      invariant forall k :: 0 <= k < i ==> dst[k] == src[k]
    {
      dst[i] := src[i];
      i := i + 1;
    }
  }
}
