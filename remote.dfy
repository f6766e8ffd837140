/**
 * The infrared command dispatcher (the `switch (code)` of the main loop,
 * with `Daylight_Savings` and `Display_Date`): a decoded 32-bit remote code
 * adjusts the lighting brightness, selects a lighting preset, opens the
 * five-second date window or toggles daylight-saving time, persisting the
 * settings it changes. Unrecognised codes change nothing.
 */
module Remote {
  import opened Units
  import opened Timer
  import opened ClockFace
  import Display

  const BtnUp: u32 := 0xE718FF00
  const BtnDown: u32 := 0xAD52FF00
  const BtnPound: u32 := 0xF20DFF00
  const BtnAsterisk: u32 := 0xE916FF00
  const Btn0: u32 := 0xE619FF00
  const Btn1: u32 := 0xBA45FF00
  const Btn2: u32 := 0xB946FF00
  const Btn3: u32 := 0xB847FF00
  const Btn4: u32 := 0xBB44FF00
  const Btn5: u32 := 0xBF40FF00
  const Btn6: u32 := 0xBC43FF00
  const Btn7: u32 := 0xF807FF00
  const Btn8: u32 := 0xEA15FF00
  const Btn9: u32 := 0xF609FF00

  /** The digit buttons in order: `DigitButtons[k]` is button k. */
  const DigitButtons: seq<u32> := [Btn0, Btn1, Btn2, Btn3, Btn4, Btn5, Btn6, Btn7, Btn8, Btn9]

  /** Preset numbers the model uses: Off (0) and Red (1). */
  const PresetOff: int := 0
  const PresetRed: int := 1

  const BrightnessStep: int := 200
  const MinBrightness: int := 100
  const MaxBrightness: int := 4095
  const DateDisplayDuration: u32 := 5000

  /** The twelve lighting channels, three per lamp. */
  const RgbChannels: seq<seq<int>> := [[0, 1, 2], [3, 4, 5], [6, 7, 8], [9, 10, 11]]

  /** What a code asks for. */
  datatype Command = Brighter | Dimmer | ShowDate | ToggleDst | SelectPreset(k: int) | Ignored

  /** The settings the store keeps, at their own keys. */
  datatype Key = BrightnessKey | PresetKey | DstKey
  datatype Stored = IntValue(i: int) | FlagValue(b: bool)

  /** One `pwm.setPWM(channel, on, off)` call. */
  datatype ChannelWrite = ChannelWrite(channel: int, on: int, off: int)

  /**
   * The dispatcher's variables as values. `store` holds, key by key, the
   * settings written to the persistent store since boot (empty at boot).
   */
  datatype Controls = Controls(
    brightness: int, preset: int, showingDate: bool, dateDigits: seq<byte>,
    dateStart: u32, isDst: bool, store: map<Key, Stored>)

  /** What a command does beyond the variables: lighting writes and the hour shift asked of the clock. */
  datatype Effect = Effect(writes: seq<ChannelWrite>, clockShift: int)

  /** The code table of the remote. */
  function Decode(code: u32): (cmd: Command)
    ensures cmd.SelectPreset? ==> 0 <= cmd.k <= 9 && DigitButtons[cmd.k] == code
  {
    if code == BtnUp then Brighter
    else if code == BtnDown then Dimmer
    else if code == BtnPound then ShowDate
    else if code == BtnAsterisk then ToggleDst
    else if code == Btn0 then SelectPreset(0)
    else if code == Btn1 then SelectPreset(1)
    else if code == Btn2 then SelectPreset(2)
    else if code == Btn3 then SelectPreset(3)
    else if code == Btn4 then SelectPreset(4)
    else if code == Btn5 then SelectPreset(5)
    else if code == Btn6 then SelectPreset(6)
    else if code == Btn7 then SelectPreset(7)
    else if code == Btn8 then SelectPreset(8)
    else if code == Btn9 then SelectPreset(9)
    else Ignored
  }

  /** The codes the dispatcher acts on. */
  predicate Known(code: u32)
  {
    code == BtnUp || code == BtnDown || code == BtnPound || code == BtnAsterisk || code in DigitButtons
  }

  /** Digit button k selects preset k, and a code is ignored exactly when it is not on the remote's table. */
  lemma DecodeTable(code: u32)
    ensures Decode(code) == Ignored <==> !Known(code)
    ensures forall k :: 0 <= k < 10 ==> Decode(DigitButtons[k]) == SelectPreset(k)
  {
  }

  /** `constrain(x, lo, hi)`. */
  function Constrain(x: int, lo: int, hi: int): (r: int)
    requires lo <= hi
    ensures lo <= r <= hi
    ensures lo <= x <= hi ==> r == x
    ensures x < lo ==> r == lo
    ensures x > hi ==> r == hi
  {
    if x < lo then lo else if x > hi then hi else x
  }

  /** The twelve writes of `Btn_0`: every channel of every lamp set to 0. */
  function AllOff(): seq<ChannelWrite>
  {
    seq(12, i requires 0 <= i < 12 => ChannelWrite(RgbChannels[i / 3][i % 3], 0, 0))
  }

  /** The new brightness after a press, persisted at once. */
  function Adjust(c: Controls, delta: int): Controls
  {
    var b := Constrain(c.brightness + delta, MinBrightness, MaxBrightness);
    c.(brightness := b, store := c.store[BrightnessKey := IntValue(b)])
  }

  /** One command applied to the dispatcher's variables, with clock reading `r` and time `now`. */
  function Apply(c: Controls, cmd: Command, r: Reading, now: u32): (Controls, Effect)
  {
    match cmd
    case Brighter => (Adjust(c, BrightnessStep), Effect([], 0))
    case Dimmer => (Adjust(c, -BrightnessStep), Effect([], 0))
    case ShowDate =>
      (c.(dateDigits := DateFrame(r), dateStart := now, showingDate := true), Effect([], 0))
    case ToggleDst =>
      (c.(isDst := !c.isDst, store := c.store[DstKey := FlagValue(!c.isDst)]),
       Effect([], if c.isDst then -1 else 1))
    case SelectPreset(k) =>
      (c.(preset := k, store := c.store[PresetKey := IntValue(k)]),
       Effect(if k == PresetOff then AllOff() else [], 0))
    case Ignored => (c, Effect([], 0))
  }

  /** A received code, dispatched. */
  function Dispatch(c: Controls, code: u32, r: Reading, now: u32): (Controls, Effect)
  {
    Apply(c, Decode(code), r, now)
  }

  /**
   * Up and Down: brightness becomes `constrain(b +/- 200, 100, 4095)`, from any
   * starting value (the value loaded at boot is not clamped), and that value
   * is what the store holds; nothing else changes.
   */
  lemma BrightnessPress(c: Controls, code: u32, r: Reading, now: u32)
    requires code == BtnUp || code == BtnDown
    ensures var (c', e) := Dispatch(c, code, r, now);
      var delta := if code == BtnUp then 200 else -200;
      MinBrightness <= c'.brightness <= MaxBrightness &&
      c'.brightness == Constrain(c.brightness + delta, 100, 4095) &&
      c'.store == c.store[BrightnessKey := IntValue(c'.brightness)] &&
      c' == c.(brightness := c'.brightness, store := c'.store) && e == Effect([], 0)
  {
  }

  /** Runs a sequence of codes through the dispatcher at one reading and time. */
  function DispatchAll(c: Controls, codes: seq<u32>, r: Reading, now: u32): Controls
    decreases |codes|
  {
    if codes == [] then c else DispatchAll(Dispatch(c, codes[0], r, now).0, codes[1..], r, now)
  }

  /** Brightness after a sequence of presses: each press clamped in turn. */
  function PressAll(b: int, codes: seq<u32>): int
    decreases |codes|
  {
    if codes == [] then b
    else PressAll(Constrain(b + (if codes[0] == BtnUp then 200 else -200), MinBrightness, MaxBrightness), codes[1..])
  }

  /**
   * Any non-empty sequence of Up/Down presses leaves the brightness in
   * [100, 4095], equal to the clamped result of every delta applied in
   * order, and that is the persisted value.
   */
  lemma {:induction false} Presses(c: Controls, codes: seq<u32>, r: Reading, now: u32)
    requires codes != []
    requires forall i :: 0 <= i < |codes| ==> codes[i] == BtnUp || codes[i] == BtnDown
    ensures var c' := DispatchAll(c, codes, r, now);
      MinBrightness <= c'.brightness <= MaxBrightness &&
      c'.brightness == PressAll(c.brightness, codes) &&
      BrightnessKey in c'.store && c'.store[BrightnessKey] == IntValue(c'.brightness)
    decreases |codes|
  {
    var c1 := Dispatch(c, codes[0], r, now).0;
    BrightnessPress(c, codes[0], r, now);
    if |codes| > 1 {
      Presses(c1, codes[1..], r, now);
    }
  }

  /** Digit button k selects and persists preset k; button 0 also turns every channel off. Selecting twice is the same as once. */
  lemma PresetSelect(c: Controls, k: int, r: Reading, now: u32)
    requires 0 <= k < 10
    ensures var (c', e) := Dispatch(c, DigitButtons[k], r, now);
      c' == c.(preset := k, store := c.store[PresetKey := IntValue(k)]) &&
      (k == 0 ==> |e.writes| == 12 && forall ch :: 0 <= ch < 12 ==> e.writes[ch] == ChannelWrite(ch, 0, 0)) &&
      (k != 0 ==> e.writes == []) &&
      Dispatch(c', DigitButtons[k], r, now).0 == c'
  {
    DecodeTable(DigitButtons[k]);
    var w := AllOff();
    forall ch | 0 <= ch < 12 ensures w[ch] == ChannelWrite(ch, 0, 0) {
      assert RgbChannels[ch / 3][ch % 3] == ch;
    }
  }

  /**
   * `*` flips the daylight-saving flag, persists the new value and asks the
   * clock for +1 hour when entering and -1 hour when leaving; two presses in
   * a row restore the flag and shift the clock by zero in all.
   */
  lemma DstToggle(c: Controls, r: Reading, now: u32)
    ensures var (c1, e1) := Dispatch(c, BtnAsterisk, r, now);
      c1 == c.(isDst := !c.isDst, store := c.store[DstKey := FlagValue(!c.isDst)]) &&
      e1 == Effect([], if c1.isDst then 1 else -1) &&
      var (c2, e2) := Dispatch(c1, BtnAsterisk, r, now);
      c2.isDst == c.isDst && e1.clockShift + e2.clockShift == 0
  {
  }

  /** `#` opens the date window at `now` with the day and month digits. */
  lemma DateKey(c: Controls, r: Reading, now: u32)
    requires ValidReading(r)
    ensures var (c', e) := Dispatch(c, BtnPound, r, now);
      c' == c.(dateDigits := DateFrame(r), dateStart := now, showingDate := true) &&
      e == Effect([], 0) &&
      forall k :: 0 <= k < 4 ==> c'.dateDigits[k] <= 9
  {
    DateFrameDigits(r);
  }

  /** A code not on the table changes nothing and writes nothing. */
  lemma UnknownCode(c: Controls, code: u32, r: Reading, now: u32)
    requires !Known(code)
    ensures Dispatch(c, code, r, now) == (c, Effect([], 0))
  {
    DecodeTable(code);
  }

  /** From brightness 1000 and preset Off, Red then Up twice gives Red at 1400, both persisted. */
  lemma RedThenBrighterTwice(c: Controls, r: Reading, now: u32)
    requires c.brightness == 1000 && c.preset == PresetOff
    ensures var c' := DispatchAll(c, [Btn1, BtnUp, BtnUp], r, now);
      c'.preset == PresetRed && c'.brightness == 1400 &&
      PresetKey in c'.store && BrightnessKey in c'.store &&
      c'.store[PresetKey] == IntValue(PresetRed) && c'.store[BrightnessKey] == IntValue(1400)
  {
    var c1 := Dispatch(c, Btn1, r, now).0;
    var c2 := Dispatch(c1, BtnUp, r, now).0;
    var c3 := Dispatch(c2, BtnUp, r, now).0;
    assert DispatchAll(c, [Btn1, BtnUp, BtnUp], r, now) == DispatchAll(c1, [BtnUp, BtnUp], r, now);
    assert DispatchAll(c1, [BtnUp, BtnUp], r, now) == DispatchAll(c2, [BtnUp], r, now);
    assert DispatchAll(c2, [BtnUp], r, now) == c3;
  }

  /** Whether the date window has run out at `now` (checked only while it is open). */
  predicate DateExpired(c: Controls, now: u32)
  {
    Elapsed(now, c.dateStart, DateDisplayDuration)
  }

  /** The dispatcher's variables, updated in place. */
  class Dispatcher {
    var rgbBrightness: int
    var currentPreset: int
    var showingDate: bool
    const dateDigits: array<byte>
    var dateDisplayStart: u32
    var isDst: bool
    var store: map<Key, Stored>

    ghost predicate Valid()
      reads this
    {
      dateDigits.Length == 4
    }

    function Snapshot(): Controls
      reads this, dateDigits
    {
      Controls(rgbBrightness, currentPreset, showingDate, dateDigits[..], dateDisplayStart, isDst, store)
    }

    /** The settings as loaded at boot; the loaded brightness is not clamped. */
    constructor (brightness: int, preset: int, dst: bool)
      ensures Valid() && fresh(dateDigits)
      ensures Snapshot() == Controls(brightness, preset, false, [0, 0, 0, 0], 0, dst, map[])
    {
      rgbBrightness := brightness;
      currentPreset := preset;
      showingDate := false;
      dateDigits := new byte[4](_ => 0);
      dateDisplayStart := 0;
      isDst := dst;
      store := map[];
      new;
      assert dateDigits[..] == [0, 0, 0, 0];
    }

    /** The `switch (code)`: one received code. */
    method Handle(code: u32, r: Reading, now: u32) returns (effect: Effect)
      requires Valid()
      modifies this, dateDigits
      ensures Valid()
      ensures (Snapshot(), effect) == Dispatch(old(Snapshot()), code, r, now)
    {
      effect := Effect([], 0);
      if code == BtnUp {
        rgbBrightness := rgbBrightness + 200;
        rgbBrightness := Constrain(rgbBrightness, 100, 4095);
        store := store[BrightnessKey := IntValue(rgbBrightness)];
      } else if code == BtnDown {
        rgbBrightness := rgbBrightness - 200;
        rgbBrightness := Constrain(rgbBrightness, 100, 4095);
        store := store[BrightnessKey := IntValue(rgbBrightness)];
      } else if code == BtnPound {
        dateDigits[0] := r.day / 10;
        dateDigits[1] := r.day % 10;
        dateDigits[2] := r.month / 10;
        dateDigits[3] := r.month % 10;
        dateDisplayStart := now;
        showingDate := true;
        assert dateDigits[..] == DateFrame(r);
      } else if code == BtnAsterisk {
        var shift := DaylightSavings();
        effect := Effect([], shift);
      } else if code == Btn0 {
        currentPreset := PresetOff;
        store := store[PresetKey := IntValue(currentPreset)];
        var writes := AllChannelsOff();
        effect := Effect(writes, 0);
      } else if code in DigitButtons {
        var k := Decode(code).k;
        currentPreset := k;
        store := store[PresetKey := IntValue(currentPreset)];
      }
    }

    /** `Daylight_Savings`: flips and persists the flag; returns the hour shift asked of the clock. */
    method DaylightSavings() returns (shift: int)
      modifies this`isDst, this`store
      ensures isDst == !old(isDst) && store == old(store)[DstKey := FlagValue(isDst)]
      ensures shift == if isDst then 1 else -1
    {
      if !isDst {
        shift := 1;
        isDst := true;
      } else {
        shift := -1;
        isDst := false;
      }
      store := store[DstKey := FlagValue(isDst)];
    }

    /**
     * `Display_Date`: closes the window once 5000 ms have passed since it
     * opened, and shifts out the date digits either way.
     */
    method DisplayDate(now: u32) returns (wire: seq<bool>)
      requires Valid()
      modifies this`showingDate
      ensures showingDate == (old(showingDate) && !DateExpired(old(Snapshot()), now))
      ensures wire == Display.Stream(dateDigits[..])
    {
      if Elapsed(now, dateDisplayStart, DateDisplayDuration) {
        showingDate := false;
      }
      wire := Display.DisplayDigit(dateDigits);
    }
  }

  /** The loop of `Btn_0` over the four lamps, turning off each of their three channels. */
  method AllChannelsOff() returns (writes: seq<ChannelWrite>)
    ensures |writes| == 12
    ensures forall ch :: 0 <= ch < 12 ==> writes[ch] == ChannelWrite(ch, 0, 0)
    ensures writes == AllOff()
  {
    writes := [];
    var led := 0;
    while led < 4
      invariant 0 <= led <= 4
      invariant |writes| == 3 * led
      invariant forall ch :: 0 <= ch < 3 * led ==> writes[ch] == ChannelWrite(ch, 0, 0)
    {
      writes := writes + [ChannelWrite(RgbChannels[led][0], 0, 0),
                          ChannelWrite(RgbChannels[led][1], 0, 0),
                          ChannelWrite(RgbChannels[led][2], 0, 0)];
      led := led + 1;
    }
    forall ch | 0 <= ch < 12 ensures AllOff()[ch] == ChannelWrite(ch, 0, 0) {
      assert RgbChannels[ch / 3][ch % 3] == ch;
    }
  }
}
