# Nixie tube clock firmware — a Dafny model of its core

This project models the timing and display core of the nixie clock firmware
(`main.cpp`). The core runs as a single cooperative loop. Each pass of the
loop:

- reads the real-time clock;
- chooses what the four tubes show: the date window, else a running
  anti-poisoning animation, else the 12-hour time;
- advances the breathing colon;
- runs the anti-poisoning sequencer, and runs it a second time with the
  long-cycle flag at 03:00;
- dispatches at most one infrared remote code.

Modules, one per part of the firmware:

- `Units`: the machine integer types. `byte` is `uint8_t`. `u32` is the
  32-bit `unsigned long` returned by `millis()`.
- `Timer`: the wrap-around interval test `now - last >= interval` that
  every periodic task uses.
- `Display`: `displayDigit`. It packs four digits as BCD nibbles, turns any
  digit above 9 into the blank code 0xF, and shifts the data out most
  significant bit first. `Unpack` is the independent reference for what the
  decoders latch.
- `ClockFace`: the 24-to-12-hour conversion, and the time and date digit
  frames.
- `Poison`: `Nixie_Poisoning_Prevention`. The sequencer's variables are the
  class `Sequencer`; its arrays are updated in place, as in the firmware.
  Each method is proved against the specification function `Step`, which
  works on values of type `PoisonState`. The lemmas state the trigger rule,
  the spin step, the stop order, the state invariant and completion.
- `PoisonProgress`: termination of a cycle. The tubes still spinning move in
  lockstep. After a start, a cycle ends on the time's digits within a
  bounded number of steps.
- `Colon`: `colonFade`, proved to follow a triangle wave of period 102
  ticks.
- `Remote`: the `switch (code)` of the loop, with `Daylight_Savings` and
  `Display_Date`. The class `Dispatcher` is proved against `Dispatch`. The
  writes to the persistent store made since boot are recorded key by key.
- `Eeprom`: the byte image behind that store, and the address overlap
  reported under Findings.
- `Scheduler`: one pass of `loop`. `Pass` is the specification function;
  `NixieClock.RunPass` is proved against it.

The specification functions (`Step`, `Spin`, `Tick`, `Dispatch`, `Pass`)
compute the new state. The rows below name the lemmas and methods whose
contracts state what those functions mean.

Only the four-hour trigger is blocked while a cycle runs (`!poisonPrevention`,
`main.cpp:172`). The 03:00 long-cycle flag restarts the sequencer on every
call where it is set, whether a cycle is running or not.

The flag is cleared only after the first sequencer call of a pass
(`main.cpp:556-560`), so that call sees the flag left by the previous pass.
The first call of minute 03:00 still sees the flag clear from 02:59, and a
running cycle may take one last step there. After that first call, the
sequencer is re-initialised on every call for the rest of the minute, and
the tubes do not step. The first pass of 03:01 restarts the long cycle once
more, and the cycle then runs. `Scheduler.LongMinuteRestarts` and
`Scheduler.FirstPassAfterLongMinute` state this behaviour as it is.

## Model

| member | source | states |
|---|---|---|
| Timer.Since | main.cpp:128 | `now - last` on `unsigned long` is the distance modulo 2^32, and the plain difference when no wrap occurred |
| Timer.ElapsedIsWrapSafe | main.cpp:213 | if the true time since `last` is below 2^32 ms, the interval test fires exactly when that time reaches the interval, across a counter wrap too |
| Timer.WrapExample | main.cpp:501-504 | with the colon's 30 ms interval and the last update 16 ms before the wrap, the test fires exactly 30 ms later and not 29 ms later |
| Display.Coerce | main.cpp:107-110 | digits 0..9 pass unchanged; anything above 9 becomes the blank nibble 0xF |
| Display.PackByteNibbles | main.cpp:112 | the packed byte holds the first digit (coerced) in its low nibble and the second in its high nibble |
| Display.MsbFirstRoundTrip | main.cpp:117 | the eight bits shifted out MSB first reassemble into the byte |
| Display.UnpackBytes | main.cpp:115-119 | the 16-bit stream `data[1]` then `data[0]` splits back into the four nibbles, `data[0]` low first |
| Display.StreamRoundTrip | main.cpp:100-119 | tube k latches exactly the coerced digit k; a frame of digits 0..9 arrives unchanged |
| Display.DisplayDigit | main.cpp:100-119 | the packing loop and the shift-out loop emit exactly `Stream(digits)` |
| ClockFace.Hour12 | main.cpp:524-527 | the 12-hour hour is in 1..12 and congruent to the 24-hour hour modulo 12 |
| ClockFace.TwoDigits | main.cpp:529-534 | `v/10`, `v%10`: the ones digit is below 10, the tens digit is below 10 exactly when v < 100, and 10*tens + ones = v |
| ClockFace.Hour12Cases | main.cpp:193-194 | hours 0 and 12 show 12, and only they do; other hours show hour mod 12; h and h+12 show the same |
| ClockFace.TimeFrameDigits | main.cpp:529-534 | every time digit is displayable, minute tens ≤ 5, hour tens ≤ 1, and the frame reads back as minute and 12-hour hour |
| ClockFace.DateFrameDigits | main.cpp:634-637 | every date digit is displayable, day tens ≤ 3, month tens ≤ 1, and the frame reads back as day and month |
| ClockFace.TimeFrameInjective | main.cpp:196-199 | two valid readings show the same frame if and only if they agree on the minute and on the hour modulo 12 |
| ClockFace.AfternoonExample | main.cpp:523-534 | 14:32 shows [3, 2, 0, 2] |
| Poison.InitialInv | main.cpp:153-167 | the power-on values satisfy the sequencer invariant |
| Poison.StopOrderIsPermutation | main.cpp:162 | every tube position occurs exactly once in the stop order |
| Poison.TriggerRule | main.cpp:172-207 | the start condition is "idle and four hours elapsed, or the long flag"; a start leaves exactly the start state (1000 ms / 1 spin long, 200 ms / 2 spins routine, target = current time, tubes reset, no step on that call); a routine trigger cannot fire while active |
| Poison.NoTriggerKeepsCycle | main.cpp:210-214 | without a trigger a call changes nothing unless active and the step interval elapsed; target, timing and cycle start never change mid-cycle |
| Poison.SpinStep | main.cpp:216-225 | a step advances exactly the tubes not stopped by one modulo 10, counting a rotation when passing 9; stopped tubes keep digit and counter |
| Poison.StopRule | main.cpp:227-234 | a step stops at most the tube `stopOrder[stopIndex]`, exactly when its rotations suffice and it shows its target, and then advances `stopIndex` |
| Poison.SpinInv | main.cpp:213-247 | a step of an active cycle keeps the invariant (digits 0..9, stopped tubes are the first `stopIndex` in stop order and show their targets) |
| Poison.StepInv | main.cpp:168-248 | every call keeps the invariant, for any valid clock reading |
| Poison.Completion | main.cpp:239-246 | a step ends the cycle if and only if all four tubes have stopped, and then every tube shows its target |
| Poison.Sequencer.constructor | main.cpp:153-167 | the zero-initialised globals, with 200 ms steps and two spins |
| Poison.Sequencer.Run | main.cpp:168-248 | the in-place update equals `Step` of the old state, and the stream shifted out is the spun digits exactly when a step happens |
| Poison.Sequencer.StartCycle | main.cpp:172-208 | the start branch leaves exactly `Start` of the old state |
| Poison.Sequencer.Advance | main.cpp:213-247 | the step branch leaves exactly `Spin` of the old state and shows the new digits |
| Poison.Sequencer.TryStop | main.cpp:228-234 | stops the due tube and advances `stopIndex`, and nothing else |
| Poison.Sequencer.AllTubesStopped | main.cpp:240-243 | the loop's result is true exactly when all four tubes have stopped |
| Poison.Sequencer.SpinTubes | main.cpp:217-225 | the loop advances each unstopped tube with the `uint8_t` increment and the reset past 9, counting rotations |
| PoisonProgress.StepsToStop | main.cpp:228-234 | a tube needs at least one step before it can stop |
| PoisonProgress.StepsWhenSpun | main.cpp:230 | once enough rotations are made, a tube stops on digit d from c in `(d - c - 1) mod 10 + 1` steps |
| PoisonProgress.StepsBeforeSpun | main.cpp:166 | p rotations short of f, a tube stops within `10 * (f - p) - c + 10` steps |
| PoisonProgress.SpinLockstep | main.cpp:217-225 | in a running cycle every tube still spinning takes the same step as the tube whose turn it is |
| PoisonProgress.FinishedOnTarget | main.cpp:239-246 | when all tubes have stopped, the frame shown is the target frame |
| PoisonProgress.SpinProgress | main.cpp:213-247 | each step ends the cycle on its targets or keeps it running with strictly fewer steps left |
| PoisonProgress.StepIsSpin | main.cpp:210-247 | a call that steps without a start is exactly one animation step with `lastStep` set to now, so `Cycle` counts consecutive stepping calls |
| PoisonProgress.Cycle | main.cpp:213-247 | consecutive steps never change the target, the spin count or the step interval |
| PoisonProgress.CycleEnds | main.cpp:239-246 | a running cycle has ended, showing its targets, after `StepsLeft` steps or more |
| PoisonProgress.StoppedCycleStays | main.cpp:210 | an ended cycle stays ended with the same state |
| PoisonProgress.CycleBound | main.cpp:168-248 | after any start, the cycle ends showing the time's digits within `10 * fullSpins + 40` steps |
| Colon.TickInv | main.cpp:506-514 | a tick keeps brightness in [0, 255] on multiples of 5, moves it by the step, and flips the step exactly when it reaches 255 or 0 |
| Colon.Triangle | main.cpp:499-514 | the reference wave stays in [0, 255] on multiples of 5 |
| Colon.TicksAreTriangle | main.cpp:502-518 | after n ticks from power-on the fader equals the triangle wave of period 102 ticks, with +5 rising and -5 falling |
| Colon.ColonFader.constructor | main.cpp:498-500 | power-on: brightness 0, step +5, last update 0 |
| Colon.ColonFader.Update | main.cpp:502-518 | after 30 ms a tick happens and the new brightness is written; otherwise nothing changes and nothing is written |
| Remote.Decode | main.cpp:26-43 | a digit code selects the preset numbered by its button |
| Remote.DecodeTable | main.cpp:620-692 | a code is ignored if and only if it is not on the remote's table; digit button k selects preset k |
| Remote.Constrain | main.cpp:623 | `constrain` returns a value in [lo, hi]: x itself inside, the nearer bound outside |
| Remote.BrightnessPress | main.cpp:621-631 | Up/Down set brightness to `constrain(b ± 200, 100, 4095)` from any start, persist it, and change nothing else |
| Remote.Presses | main.cpp:621-631 | any sequence of Up/Down presses leaves brightness in [100, 4095], equal to the deltas clamped in order, and persisted |
| Remote.PresetSelect | main.cpp:646-691 | digit k selects and persists preset k; 0 also writes 0 to all twelve channels; selecting twice equals once |
| Remote.DstToggle | main.cpp:134-150 | `*` flips and persists the DST flag and changes nothing else, asking +1 h on entry and -1 h on exit with no channel writes; two presses restore the flag with a zero total shift |
| Remote.DateKey | main.cpp:633-640 | `#` stores the day/month digits (all displayable) and `now`, opens the window, and changes nothing else, with no effect |
| Remote.UnknownCode | main.cpp:620-692 | a code off the table changes nothing and writes nothing |
| Remote.RedThenBrighterTwice | main.cpp:656-659 | from 1000 and Off, Red then Up twice gives Red at 1400, both persisted |
| Remote.Dispatcher.constructor | main.cpp:268-271 | the settings as loaded at boot, unclamped |
| Remote.Dispatcher.Handle | main.cpp:620-692 | the in-place update and effects equal `Dispatch` of the old variables |
| Remote.Dispatcher.DaylightSavings | main.cpp:135-150 | flips and persists the flag and returns the hour shift asked of the clock |
| Remote.Dispatcher.DisplayDate | main.cpp:127-131 | closes the window once 5000 ms have passed and shifts out the date digits either way |
| Remote.AllChannelsOff | main.cpp:650-654 | the loop over four lamps writes 0 to channels 0..11, in order |
| Eeprom.IntRoundTrip | main.cpp:624 | an `int` put at an address reads back unchanged |
| Eeprom.AsWrittenLayoutClobbers | main.cpp:68-70 | under addresses 0, 1, 2 the brightness and preset share a byte: preset 1 then brightness 1400 reads preset 5, preset 1 then DST true reads preset 257, brightness 1400 then preset 1 reads brightness 376 |
| Eeprom.SpacedIsDisjoint | main.cpp:68-70 | with addresses spaced by `sizeof(int)` no two settings share a byte |
| Eeprom.SpacedWrite | main.cpp:648 | under the spaced layout a write reads back and leaves every other setting's bytes alone |
| Eeprom.SpacedLayoutKeepsEveryKey | main.cpp:269-271 | under the spaced layout, after any sequence of writes, each setting reads back as the last value written to it |
| Scheduler.DisplayPriority | main.cpp:536-552 | the first latch of a pass is the date if its window is open, else the spinning digits if a cycle is active, else the time; the undefined frame is latched exactly on the pass where the window runs out |
| Scheduler.DateWindow | main.cpp:537-552 | an expired window is closed by the pass unless `#` is pressed again; an open window latches the date twice and stays open |
| Scheduler.LongMinuteRestarts | main.cpp:558-562 | during 03:00 every pass ends with a freshly started long cycle on the current time, and with the flag set |
| Scheduler.FirstPassAfterLongMinute | main.cpp:556-562 | the first pass after 03:00 restarts the long cycle once more and clears the flag |
| Scheduler.RemoteStageKeepsDate | main.cpp:633-640 | the remote stage replaces the date digits only on `#`, with the date frame, so they stay displayable |
| Scheduler.PassInv | main.cpp:520-562 | a pass keeps the sequencer's and the fader's invariants and displayable date digits, for any code and valid reading |
| Scheduler.PowerOnInv | main.cpp:153-167 | the power-on state (zeroed sequencer, dark colon rising by 5, zeroed date digits) satisfies the loop's invariants for any loaded settings |
| Scheduler.NixieClock.constructor | main.cpp:250-278 | power-on state with the loaded settings |
| Scheduler.NixieClock.RunPass | main.cpp:520-694 | one pass of `loop` updates all variables in place to exactly `Pass` of the old state, with the same latches, colon write and effects |
| Scheduler.NixieClock.SequencerCalls | main.cpp:556-562 | the sequencer runs once with the previous flag, the flag is recomputed, and at 03:00 it runs again |
| Scheduler.NixieClock.DisplayPass | main.cpp:536-552 | the display stage latches exactly `DisplayStage` and closes an expired date window |
| Scheduler.NixieClock.ShowSelected | main.cpp:549-552 | the second latch is the date while open, else the chosen digits, else the undefined frame |
| Scheduler.TimeDigits | main.cpp:523-534 | the local digit array equals the time frame |
| Scheduler.CopyDigits | main.cpp:541-546 | the copy loop leaves the destination equal to the source |

## Left out

- The lighting presets and their animations (`RGB_red` … `Rainbow`, `gammaLUT`, `rgbToPwm`, main.cpp:84-97 and 280-495) are left out. They are floating-point colour arithmetic and hardware writes. The model records only the selected preset number and the channel writes of button 0.
- Hardware calls are not modelled: pin modes, `shiftOut` timing, `analogWrite`, `pwm.setPWM`, the serial prints and the IR receiver. Their values appear as outputs instead: the bit stream, the colon write and the channel writes.
- `millis()` and `rtc.now()` become parameters, one time and one clock reading per pass. The firmware calls them several times within a pass, a few milliseconds apart.
- Remote.DstToggle: `rtc.adjust` with hour ± 1 is recorded only as the shift asked of the clock (+1 or -1). The DateTime arithmetic of the clock library is not part of this model.
- `setup`'s halt loop when the clock is missing, and the gamma-table initialisation, are left out. `NixieClock.constructor` takes the settings loaded from the store as parameters.
- `activeEffect` is left out. It is compared with `currentPreset` and then set to it (main.cpp:565-567), but its value affects nothing else.
- Remote.Dispatcher.Handle: brightness is an unbounded integer, so 16-bit overflow is not modelled. The first press after boot works on the unclamped value loaded from the store. A loaded value above 32567 (Up) or below -32568 (Down) overflows the 16-bit `int` at main.cpp:622 or main.cpp:628. That is undefined behaviour in C, while the model clamps the result to 4095 or 100. After any press the value lies in [100, 4095] (`Remote.Presses`), so no later press can overflow.
- Poison.Sequencer.SpinTubes: `spinCounter` is an unbounded integer. A 16-bit `int` counter could overflow only after 32767 rotations, and a cycle ends within a few rotations (`PoisonProgress.CycleBound`).
- Scheduler.NixieClock.ShowSelected: the undefined contents of the uninitialised local `digitsToShow` are modelled as the `Undefined` latch, not as particular bytes.
- The IR decoding library is not part of this model. Only the decoded 32-bit code enters the model.

## Findings

| source | as written | input that shows it | evidently intended | confidence | as-written member | corrected member |
|---|---|---|---|---|---|---|
| main.cpp:68-70 | brightness, preset and DST flag stored at EEPROM addresses 0, 1 and 2, although `EEPROM.put` of an `int` writes two bytes | select Red (preset 1), then press Up until brightness is 1400: the stored preset reads back as 5 (Cyan) at the next boot | each setting at its own bytes (addresses spaced by `sizeof(int)`), so every setting reads back as last written | not executed | Eeprom.AsWrittenLayoutClobbers | Eeprom.SpacedLayoutKeepsEveryKey |
