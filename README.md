# A-RYTH-MATIK output engines in Dafny

This project models three per-channel output classes of the A-RYTH-MATIK
Eurorack firmware and proves properties of them.

- **`ProbablisticOutput`** (UncertaintyRMX), in `uncertainty.dfy`. It reacts to
  the rising edge (`On(c, prev)`) and the falling edge (`Off(c, prev)`) of clock
  line A or B. What it does depends on one of twelve modes:
  - coin tosses against a probability `prob`;
  - a modular division counter over the table `divisions`;
  - copying or inverting the level `prev` handed in by the preceding channel;
  - OFF, which drives low and passes `prev` on.

  `prob` and `div` are set through `SetProb`/`IncProb`/`DecProb`; mode and clock
  are set by numeric code.
- **The chain of channels**, in `chain.dfy`. It runs one edge down a sequence of
  channels, each channel's return value becoming the next one's `prev`.
- **`DelayedOutput`** (GateDelay), in `gatedelay.dfy`. It is a delay timer with
  an on-stage and an off-stage, each in WAIT/DELAY/GATE:
  - the edges (`On`, `Off`) arm the stages;
  - the periodic `current(t)` call advances them once `del` milliseconds have
    passed, and it is the only place the output is written;
  - `del` is clamped to [0, 5000].
- **`LogicOutput`** (Logic), in `logic.dfy`. `Update(a, b)` drives the output
  with one of eleven boolean functions of the two clock levels. The mode code is
  clamped to [0, 10].
- `arduino.dfy` holds what the three depend on from the Arduino core:
  - `byte`, `int` (16-bit) and `unsigned long` (32-bit);
  - wrapping unsigned subtraction;
  - `constrain`.

Each class is modelled twice. First, a value datatype (`Channel`, `Timer`, the
Logic `Channel`), with a function for every operation (`AfterOn`, `AfterOff`,
`AfterCurrent`, `AfterSetProb`, ...). The lemmas are stated over these values.
Second, a Dafny `class` with the source's fields, whose methods update the fields
in place as the C++ does. Each method is proved to move `Snapshot()` exactly as
the corresponding function says. Every public method also keeps the class
invariant `Valid()`, and so does `RiseAdmitted`, the mode switch of `On`.

The private helpers standing for `high`, `low` and `flip` are specified only by
their effect on `Snapshot()`. For example, GateDelay's `low()` on its own would
break `Valid()` while the gate is open. `current` calls it only as it also
closes the gate.

The hardware output driver is a boolean field `out` holding the last level
written, which is what `DigitalOutput::On()` returns. The coin toss
`random(0, 100)` is an injected parameter `draw` in [0, 100). The time handed to
`current(t)` is a parameter.

UncertaintyRMX stores the source of the last write (`prevClock_`) in a `bool`.
A write from A stores `false`; one from B or BOTH stores `true`. The model
records this as a `Clock` in {A, B} (`Writer`).
- The BOTH tie-break `prevClock_ != c` compares that `bool` with the enum.
- So a falling edge delivered with `c == BOTH` is never honoured in BOTH mode.
- The model reproduces that.

Where the comments in the firmware and its code disagree, the model follows the
code:
- A falling edge in PREV_BERNOULLI drives low; it does not copy the inverted
  level.
- The clock filter also applies to the PREV modes.
- `SetMode` and `SetClock` ignore codes out of range; they do not clamp them.

For three such channels chained under A (TRIGGER at probability 100, PREV_COPY
and PREV_BERNOULLI), the code gives:
- high, high, low on a rising edge;
- low, low, low on the following falling edge.

`DecProb` in a division mode does not clamp the counter, so it may be left at or
above the new divisor. The next division step brings it back into range
(`DecProbCanLeaveCounterAboveDivisor`).

## Model

| member | source | states |
|---|---|---|
| Uncertainty.Divisor | A-RYTH-MATIK/UncertaintyRMX/output.h:6-8 | every division index 0..18 selects a divisor between 1 and 96 |
| Uncertainty.DivisionsIncrease | A-RYTH-MATIK/UncertaintyRMX/output.h:6 | the division table is strictly increasing |
| Uncertainty.DecodeMode | A-RYTH-MATIK/UncertaintyRMX/output.h:325-364 | a byte names a mode exactly when it is below 12, and that mode's code is the byte |
| Uncertainty.ModeCodeRoundTrip | A-RYTH-MATIK/UncertaintyRMX/output.h:297-364 | decoding the code `GetMode` reports gives back the mode |
| Uncertainty.DecodeClock | A-RYTH-MATIK/UncertaintyRMX/output.h:224-236 | a byte names a clock exactly when it is below 3, and that clock's code is the byte |
| Uncertainty.ClockCodeRoundTrip | A-RYTH-MATIK/UncertaintyRMX/output.h:214-236 | decoding the code `GetClock` reports gives back the clock |
| Uncertainty.Writer | A-RYTH-MATIK/UncertaintyRMX/output.h:407-422 | the recorded writer is never BOTH: a write from A records A, one from B or BOTH records B, as the conversion to `bool` does |
| Uncertainty.AfterOn | A-RYTH-MATIK/UncertaintyRMX/output.h:83-156 | rising edge. Always: the channel stays valid and its configuration is untouched. OFF drives low, records the writer and returns `prev`, ignoring the filter. Any other mode returns its own level. A filtered edge changes nothing. The counter moves only on an admitted division step, to `(count+1) % d` below `d`, firing exactly when it reaches 0. Coin modes fire iff `draw <= prob`. Prev-gated modes ignore a low `prev`. PREV_COPY writes `prev`; both Bernoulli modes write `!prev` |
| Uncertainty.AfterOff | A-RYTH-MATIK/UncertaintyRMX/output.h:159-196 | falling edge. The counter never changes. OFF drives low and returns `prev`. Unadmitted edges, and on BOTH edges of the line that did not last write, change nothing. TRIGGER, CLOCK_DIV, PREV_FOLLOW, PREV_CLOCK_DIV and PREV_BERNOULLI drive low. The four flip modes change nothing. PREV_COPY writes `prev`; PREV_BERNOULLI_FLIP writes `!prev` |
| Uncertainty.AfterSetProb | A-RYTH-MATIK/UncertaintyRMX/output.h:396-398 | only `prob` changes, clamped to [0, 100] and equal to the argument when in range |
| Uncertainty.AfterIncProb | A-RYTH-MATIK/UncertaintyRMX/output.h:382-388 | in the four division modes only `div` moves up one step, saturating at 18; otherwise only `prob` does, saturating at 100 |
| Uncertainty.AfterDecProb | A-RYTH-MATIK/UncertaintyRMX/output.h:389-395 | in the four division modes only `div` moves down, stopping at 0; otherwise only `prob` does |
| Uncertainty.AfterSetMode | A-RYTH-MATIK/UncertaintyRMX/output.h:325-364 | a code below 12 sets only the mode, to the mode with that code; other codes leave the channel unchanged |
| Uncertainty.AfterSetClock | A-RYTH-MATIK/UncertaintyRMX/output.h:224-236 | a code below 3 sets only the clock, to the clock with that code; other codes leave the channel unchanged |
| Uncertainty.Initial | A-RYTH-MATIK/UncertaintyRMX/output.h:73-80 | `Init` leaves a valid channel: counter 0, the given division index and level, prob clamped, mode and clock decoded or left at their zero values |
| Uncertainty.CertainCoinAlwaysFires | A-RYTH-MATIK/UncertaintyRMX/output.h:92-103 | at probability 100 an admitted coin toss fires for every draw |
| Uncertainty.ZeroProbabilityFiresOnlyOnZero | A-RYTH-MATIK/UncertaintyRMX/output.h:92-103 | at probability 0 a coin toss fires exactly on draw 0 |
| Uncertainty.DivisionByOneAlwaysFires | A-RYTH-MATIK/UncertaintyRMX/output.h:104-113 | with division index 0 every admitted division step fires, counter back at 0 |
| Uncertainty.BothTieBreak | A-RYTH-MATIK/UncertaintyRMX/output.h:167-168 | on BOTH, once line `c` wrote last, a falling edge of the other line changes nothing and one of `c` is honoured |
| Uncertainty.DivideMany | A-RYTH-MATIK/UncertaintyRMX/output.h:104-113 | after `n` admitted division steps from a counter below `d`, the counter is `(count + n) % d` and the channel stays valid with its configuration |
| Uncertainty.EveryDthEdgeFires | A-RYTH-MATIK/UncertaintyRMX/output.h:104-113 | from `Reset()`, after `n` division steps the counter is `n % d` and it has come round to 0 exactly `n / d` times |
| Uncertainty.DecProbCanLeaveCounterAboveDivisor | A-RYTH-MATIK/UncertaintyRMX/output.h:389-395 | a channel whose counter is in range can be left with a counter at or above its divisor by `DecProb`, and the next step brings it back below |
| Uncertainty.ProbablisticOutput.Init | A-RYTH-MATIK/UncertaintyRMX/output.h:73-80 | the object is valid and equals `Initial` |
| Uncertainty.ProbablisticOutput.InitTrigger | A-RYTH-MATIK/UncertaintyRMX/output.h:61-63 | the object is `Initial` with mode TRIGGER, clock A, division index 0 |
| Uncertainty.ProbablisticOutput.On | A-RYTH-MATIK/UncertaintyRMX/output.h:83-156 | the new fields and the return value are exactly `AfterOn` of the old fields; validity is kept |
| Uncertainty.ProbablisticOutput.RiseAdmitted | A-RYTH-MATIK/UncertaintyRMX/output.h:91-155 | the mode switch of `On` updates the fields as `ModeRise` says and keeps validity |
| Uncertainty.ProbablisticOutput.Off | A-RYTH-MATIK/UncertaintyRMX/output.h:159-196 | the new fields and the return value are exactly `AfterOff` of the old fields; validity is kept |
| Uncertainty.ProbablisticOutput.State | A-RYTH-MATIK/UncertaintyRMX/output.h:198-200 | the level last written |
| Uncertainty.ProbablisticOutput.DisplayClock | A-RYTH-MATIK/UncertaintyRMX/output.h:202-213 | a blank exactly in mode OFF, otherwise `a`, `b` or `*` for A, B, BOTH |
| Uncertainty.ProbablisticOutput.GetClock | A-RYTH-MATIK/UncertaintyRMX/output.h:214-223 | a code below 3 that decodes to the current clock |
| Uncertainty.ProbablisticOutput.SetClock | A-RYTH-MATIK/UncertaintyRMX/output.h:224-236 | the fields move as `AfterSetClock` says; validity is kept |
| Uncertainty.ProbablisticOutput.GetMode | A-RYTH-MATIK/UncertaintyRMX/output.h:297-324 | a code below 12 that decodes to the current mode |
| Uncertainty.ProbablisticOutput.SetMode | A-RYTH-MATIK/UncertaintyRMX/output.h:325-364 | the fields move as `AfterSetMode` says; validity is kept |
| Uncertainty.ProbablisticOutput.Reset | A-RYTH-MATIK/UncertaintyRMX/output.h:365-367 | only the counter changes, to 0; validity is kept |
| Uncertainty.ProbablisticOutput.DisplayDivision | A-RYTH-MATIK/UncertaintyRMX/output.h:368-370 | the divisor selected by the division index, between 1 and 96 |
| Uncertainty.ProbablisticOutput.GetDivision | A-RYTH-MATIK/UncertaintyRMX/output.h:371-373 | the division index, at most 18 |
| Uncertainty.ProbablisticOutput.GetProbInt | A-RYTH-MATIK/UncertaintyRMX/output.h:379-381 | the probability, at most 100 |
| Uncertainty.ProbablisticOutput.IncProb | A-RYTH-MATIK/UncertaintyRMX/output.h:382-388 | the fields move as `AfterIncProb` says; validity is kept |
| Uncertainty.ProbablisticOutput.DecProb | A-RYTH-MATIK/UncertaintyRMX/output.h:389-395 | the fields move as `AfterDecProb` says; validity is kept |
| Uncertainty.ProbablisticOutput.SetProb | A-RYTH-MATIK/UncertaintyRMX/output.h:396-398 | the fields move as `AfterSetProb` says; validity is kept |
| Uncertainty.ProbablisticOutput.Toggle | A-RYTH-MATIK/UncertaintyRMX/output.h:409-412 | `flip(c)`: the level inverted and `c` recorded as writer, nothing else changed |
| Uncertainty.ProbablisticOutput.DriveHigh | A-RYTH-MATIK/UncertaintyRMX/output.h:414-417 | `high(c)`: the level high and `c` recorded as writer, nothing else changed |
| Uncertainty.ProbablisticOutput.DriveLow | A-RYTH-MATIK/UncertaintyRMX/output.h:419-422 | `low(c)`: the level low and `c` recorded as writer, nothing else changed |
| Chain.Handle | A-RYTH-MATIK/UncertaintyRMX/output.h:83-196 | the handler of an edge keeps a channel valid and, in mode OFF, returns `prev` |
| Chain.Propagate | A-RYTH-MATIK/UncertaintyRMX/output.h:83-87 | one edge down the chain yields one channel and one returned level per channel |
| Chain.PropagateAt | A-RYTH-MATIK/UncertaintyRMX/output.h:83-196 | channel `i` handles the edge with the seed (first) or channel `i-1`'s returned level as `prev`, and stays valid |
| Chain.PropagateValid | A-RYTH-MATIK/UncertaintyRMX/output.h:83-196 | every channel of the chain stays valid |
| Chain.PropagateSplit | A-RYTH-MATIK/UncertaintyRMX/output.h:83-196 | running an edge down `p + q` is running it down `p`, then down `q` seeded with the last level `p` returned |
| Chain.OffChannelIsTransparent | A-RYTH-MATIK/UncertaintyRMX/output.h:159-163 | inserting a channel in mode OFF leaves the levels returned by all later channels unchanged |
| Chain.ThreeChannelScenario | A-RYTH-MATIK/UncertaintyRMX/output.h:114-128 | TRIGGER at 100, PREV_COPY, PREV_BERNOULLI under A give high, high, low on rising and low, low, low on the following falling edge |
| GateDelay.NextClock | A-RYTH-MATIK/GateDelay/output.h:145-157 | `IncClock` always moves to a different clock |
| GateDelay.PrevClock | A-RYTH-MATIK/GateDelay/output.h:158-170 | `DecClock` is undone by `IncClock` |
| GateDelay.PrevClockUndoesNextClock | A-RYTH-MATIK/GateDelay/output.h:145-170 | `DecClock` undoes `IncClock` |
| GateDelay.ThreeIncrementsAreIdentity | A-RYTH-MATIK/GateDelay/output.h:145-157 | three `IncClock` calls are the identity |
| GateDelay.CycledModThree | A-RYTH-MATIK/GateDelay/output.h:145-157 | `n` `IncClock` calls equal `n % 3` of them |
| GateDelay.ElapsedAcrossWrap | A-RYTH-MATIK/GateDelay/output.h:74 | the unsigned difference `now - start` is the true elapsed time `k`, also when the millisecond clock wrapped |
| GateDelay.AfterOn | A-RYTH-MATIK/GateDelay/output.h:48-54 | only in WAIT: on-stage to DELAY with start time the current time; never writes the output; keeps the stage invariant |
| GateDelay.AfterOff | A-RYTH-MATIK/GateDelay/output.h:57-65 | only with the gate open and the off-stage waiting: off-stage to DELAY with stop time the current time; never writes the output; keeps the invariant |
| GateDelay.AfterCurrent | A-RYTH-MATIK/GateDelay/output.h:67-103 | time becomes `t`. An expired on-delay opens the gate (GATE, high, start `t`). An expired off-delay closes it (both WAIT, low). Otherwise only the time changes. Keeps the invariant: off-stage never GATE, off-stage DELAY only with the gate open, gate open only with the output high |
| GateDelay.DelayMovedBy | A-RYTH-MATIK/GateDelay/output.h:114-125 | the delay setters change only `del`: moved by the step, saturating at 0 and 5000 |
| GateDelay.AfterSetDelay | A-RYTH-MATIK/GateDelay/output.h:126-128 | only `del` changes: the argument clamped to [0, 5000] |
| GateDelay.StepUpThenDown | A-RYTH-MATIK/GateDelay/output.h:114-119 | a step down undoes a step up that did not saturate |
| GateDelay.Initial | A-RYTH-MATIK/GateDelay/output.h:41-45 | `Init` leaves a valid, idle timer with the given clock and level and the clamped delay |
| GateDelay.ZeroFilledTimerSettles | A-RYTH-MATIK/GateDelay/output.h:176-181 | a zero-filled timer (both stages DELAY) settles to idle and low on its first tick at or after `del`, and is untouched before |
| GateDelay.RepeatedRisingEdgeKeepsStart | A-RYTH-MATIK/GateDelay/output.h:48-54 | a second rising edge before the delay ends changes nothing; the start time stays the first edge's |
| GateDelay.GateOpensExactlyAfterDelay | A-RYTH-MATIK/GateDelay/output.h:73-79 | a tick `k` ms after the rising edge opens the gate exactly when `k >= del`, across the wrap-around |
| GateDelay.Ticks | A-RYTH-MATIK/GateDelay/output.h:67-103 | a sequence of `current` calls keeps the stage invariant |
| GateDelay.GateHeldThroughTicks | A-RYTH-MATIK/GateDelay/output.h:80-86 | an open gate with no off-delay armed stays open and high through any ticks; only the time moves, to the last tick |
| GateDelay.GateCycle | A-RYTH-MATIK/GateDelay/output.h:48-103 | rising edge, then a tick at least `del` later opens the gate. It stays open and high through any sequence of further ticks. A falling edge then arms the off-delay at the last tick's time. A tick at least `del` after that closes the gate, back to the idle state, low |
| GateDelay.DelayedOutput.Init | A-RYTH-MATIK/GateDelay/output.h:41-45 | the object is valid and equals `Initial` |
| GateDelay.DelayedOutput.On | A-RYTH-MATIK/GateDelay/output.h:48-54 | the fields move as `AfterOn` says; validity is kept |
| GateDelay.DelayedOutput.Off | A-RYTH-MATIK/GateDelay/output.h:57-65 | the fields move as `AfterOff` says; validity is kept |
| GateDelay.DelayedOutput.Current | A-RYTH-MATIK/GateDelay/output.h:67-103 | the fields move as `AfterCurrent` says; validity is kept |
| GateDelay.DelayedOutput.State | A-RYTH-MATIK/GateDelay/output.h:105-107 | the level last written |
| GateDelay.DelayedOutput.GetDelay | A-RYTH-MATIK/GateDelay/output.h:108-110 | the delay, within [0, 5000] |
| GateDelay.DelayedOutput.IncDelay | A-RYTH-MATIK/GateDelay/output.h:114-116 | `DelayMovedBy` with step +50; validity is kept |
| GateDelay.DelayedOutput.DecDelay | A-RYTH-MATIK/GateDelay/output.h:117-119 | `DelayMovedBy` with step -50; validity is kept |
| GateDelay.DelayedOutput.IncDelay2 | A-RYTH-MATIK/GateDelay/output.h:120-122 | `DelayMovedBy` with step +5; validity is kept |
| GateDelay.DelayedOutput.DecDelay2 | A-RYTH-MATIK/GateDelay/output.h:123-125 | `DelayMovedBy` with step -5; validity is kept |
| GateDelay.DelayedOutput.SetDelay | A-RYTH-MATIK/GateDelay/output.h:126-128 | the fields move as `AfterSetDelay` says; validity is kept |
| GateDelay.DelayedOutput.GetClock | A-RYTH-MATIK/GateDelay/output.h:129-131 | the selected clock |
| GateDelay.DelayedOutput.SetClock | A-RYTH-MATIK/GateDelay/output.h:142-144 | only the clock changes, to the argument; validity is kept |
| GateDelay.DelayedOutput.IncClock | A-RYTH-MATIK/GateDelay/output.h:145-157 | only the clock changes, to `NextClock` of the old one; validity is kept |
| GateDelay.DelayedOutput.DecClock | A-RYTH-MATIK/GateDelay/output.h:158-170 | only the clock changes, to `PrevClock` of the old one; validity is kept |
| GateDelay.DelayedOutput.DriveHigh | A-RYTH-MATIK/GateDelay/output.h:183-185 | only the level changes, to high |
| GateDelay.DelayedOutput.DriveLow | A-RYTH-MATIK/GateDelay/output.h:187-189 | only the level changes, to low |
| Logic.Select | A-RYTH-MATIK/Logic/output.h:32-98 | OFF gives false, A gives `a`, B gives `b`, AND `a && b`, OR `a \|\| b`, XOR `a != b` |
| Logic.EvenModesNegateOddModes | A-RYTH-MATIK/Logic/output.h:4-14 | each of NOT A, NOT B, NAND, NOR, XNOR is the negation of the mode before it, for all inputs |
| Logic.TruthTable | A-RYTH-MATIK/Logic/output.h:32-98 | the four entries are the mode's outputs for (a, b) = 00, 01, 10, 11 |
| Logic.ModesAreDistinct | A-RYTH-MATIK/Logic/output.h:4-15 | two different mode codes 0..10 have different truth tables |
| Logic.AfterUpdate | A-RYTH-MATIK/Logic/output.h:32-98 | the mode is unchanged and the level is the selected function of `a` and `b` |
| Logic.UpdateIsIdempotent | A-RYTH-MATIK/Logic/output.h:32-98 | a repeated `Update` with the same levels changes nothing, and the result does not depend on the previous level |
| Logic.ClampedMode | A-RYTH-MATIK/Logic/output.h:140-148 | the mode code pulled into [0, 10]: kept when in range, 0 below, 10 above |
| Logic.LogicOutput.Init | A-RYTH-MATIK/Logic/output.h:27-30 | the mode is the clamped argument and the level is the given one |
| Logic.LogicOutput.Update | A-RYTH-MATIK/Logic/output.h:32-98 | the fields move as `AfterUpdate` says; validity is kept |
| Logic.LogicOutput.On | A-RYTH-MATIK/Logic/output.h:100-102 | only the level changes, to high; validity is kept |
| Logic.LogicOutput.Off | A-RYTH-MATIK/Logic/output.h:104-106 | only the level changes, to low; validity is kept |
| Logic.LogicOutput.State | A-RYTH-MATIK/Logic/output.h:108-110 | the level last written |
| Logic.LogicOutput.GetMode | A-RYTH-MATIK/Logic/output.h:111-113 | the mode code, at most 10 |
| Logic.LogicOutput.IncMode | A-RYTH-MATIK/Logic/output.h:140-142 | only the mode changes, one up, staying at 10 |
| Logic.LogicOutput.DecMode | A-RYTH-MATIK/Logic/output.h:143-145 | only the mode changes, one down, staying at 0 |
| Logic.LogicOutput.SetMode | A-RYTH-MATIK/Logic/output.h:146-148 | only the mode changes, to the argument clamped to [0, 10], i.e. `min(b, 10)` |

## Left out

- **The hardware.** `DigitalOutput`, pins, LEDs and the modulove library are outside the model. The driver is the boolean field `out`, and its level at `Init` is a constructor argument.
- **The coin toss.** `random(0, MaxRandRange)` is the parameter `draw` in [0, 100). Its distribution is not modelled.
- **Floating-point getters.** `GetProb` (`A-RYTH-MATIK/UncertaintyRMX/output.h`, lines 374-378) and `GetDelayF` (`A-RYTH-MATIK/GateDelay/output.h`, lines 111-113) are left out, because the model has no floating point. The integer `divisions[div_]` part of `GetProb` is `DisplayDivision`.
- **Display strings.** These are UI text built with the Arduino `String`/`F()` facilities:
  - `DisplayMode` and `DisplayModeShort` (`A-RYTH-MATIK/UncertaintyRMX/output.h`, lines 241-296);
  - GateDelay's `DisplayClock` (`A-RYTH-MATIK/GateDelay/output.h`, lines 132-141);
  - Logic's `GetModeName` (`A-RYTH-MATIK/Logic/output.h`, lines 114-139).
- **Inactive GateDelay code.** GateDelay's 1000 ms `duration` and its commented-out gate timeout (`A-RYTH-MATIK/GateDelay/output.h`, lines 12, 82-85) are not part of the behaviour.
- **The driving loop.** The main sketch is not part of this model: edge detection, the millisecond clock, the order of the channels, and the value fed as `prev` to the first channel. Instead:
  - the chain takes a sequence of channels, a seed and the draws as parameters;
  - `current` takes the time as a parameter.

  The chain fold itself is not code of the firmware.
- **Initial values the firmware leaves to static zero-initialisation.**
  - UncertaintyRMX: the fields `Init` does not write start at mode TRIGGER, clock A, writer A.
  - GateDelay: the model chooses both stages WAIT and all times 0. Zero-filled storage would give DELAY/DELAY; `ZeroFilledTimerSettles` shows that such a timer settles to idle and low on its first tick.
- Uncertainty.ProbablisticOutput.Init: requires a division index of at most 18, because the firmware stores it unchecked and an index above 18 would make `divisions[div_]` read out of bounds.
- **Integer widths.**
  - `unsigned long` time is modelled exactly, with wrap-around.
  - The `int`/`byte` arithmetic inside `constrain` cannot overflow for the values reachable here. It is therefore done on unbounded integers.
- **Out-of-range modes in `LogicOutput.Update`.** A `mode_` above 10 (on which `Update` does nothing) cannot arise, because every setter clamps. `Update` therefore requires the class invariant.
- **Aliasing.** Aliasing between channel objects is irrelevant: the channel objects share no state.
