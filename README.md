# Useless machine: a verified model

`useless_machine.py` drives a "useless box": a lid, an arm and a flag, each a
hobby servo on a PCA9685 16-channel PWM expander reached over I2C. At start-up
the script resets the chip, programs a 50 Hz PWM frequency and moves all three
servos to their closed positions. Then, every time the toggle button reads
pressed, it draws a number from 1 to 50 and runs the matching `actionN`: a
fixed choreography of servo pulses and sleeps that opens the lid, pushes the
switch back with the arm, and closes everything again.

The model has six modules:

- `Driver` (driver.dfy): the `PCA9685` class as a Dafny class whose I2C bus is
  the log of `(register, value)` writes it has issued, with the pure arithmetic
  it uses: byte splitting, pulse-to-tick conversion, the prescale formula and
  the MODE1 sleep/restart bit masks. Lemmas prove that the four channel writes
  decode back to the channel and counts, that PRESCALE is only written while
  MODE1 has SLEEP set, and that at 50 Hz the chip gets prescale 119.
- `Choreography` (choreography.dfy): an action as data (pulses, sleeps,
  `for _ in range(n)` repeats and `for pos in range(a, b, step)` sweeps), its
  expansion into the flat trace of commands the script issues, the lid/arm
  rule stated on that trace, and a validator over the structure that is proved
  sound against the trace semantics.
- `Catalog` (catalog.dfy): the fifty actions transcribed as data, the dispatch
  from the drawn number, and the proof that every action keeps the rule and
  returns the machine to rest.
- `UselessMachine` (machine.dfy): the script as a `Machine` class. Its
  constructor performs start-up; its methods run a choreography with the
  loops the script has; `Poll` is one pass of the main loop. The invariant
  ties the bus log to the commands issued and says every command since
  start-up has kept the rule.
- `Wrappers` (wrappers.dfy): the `Option` type.
- `Arith` (arith.dfy): facts about multiplication and Euclidean division that the other modules use.

The rule of useless_machine.py:101 is read as follows. The arm may be
commanded only while the lid's last command is not a closing pulse. The lid
may be commanded to a closing pulse only while the arm's last command is
fully closed (2450). Closing pulses for the lid are 2400 and also 2300, which
actions 27-30 use instead of 2400. Those four actions therefore leave the lid
at 2300, so safety is proved from either rest pose.

A prescale of 121 is often quoted for 50 Hz; that is the value for a 25 MHz
oscillator. The code's constant is 24.5 MHz (its comment says 25 MHz), which
gives 119. `PrescaleAt50Hz` proves both figures: 119 for the constant the code
uses, and 121 for 25 MHz.

## Model

| member | source | states |
|---|---|---|
| Driver.LowByte | useless_machine.py:66-69 | `v & 0xFF` is a byte congruent to `v` modulo 256 |
| Driver.HighByte | useless_machine.py:66-69 | `v >> 8` with the low byte rebuilds `v`, and is a byte exactly when `v` is a 16-bit count |
| Driver.ServoTicks | useless_machine.py:73-76 | `int(pulse * 4096 / 20000)` is the quotient truncated towards zero, for both signs; a pulse within one period gives a 12-bit count |
| Driver.ServoTicksMonotone | useless_machine.py:73-76 | a longer pulse never gives fewer ticks |
| Driver.ServoTickValues | useless_machine.py:73-76 | the pulses 1100, 1700, 2400 and 2450 become 225, 348, 491 and 501 ticks |
| Driver.FloorDiv | useless_machine.py:52 | `math.floor` of an exact quotient, for either sign of the divisor |
| Driver.PrescaleFor | useless_machine.py:45-52 | the prescale is the floor of osc / 4096 / freq - 1 + 0.5, stated in exact real arithmetic |
| Driver.Prescale | useless_machine.py:45-52 | the same for the 24.5 MHz constant the code uses |
| Driver.PrescaleAt50Hz | useless_machine.py:45-52 | at 50 Hz the prescale is 119; with a 25 MHz oscillator it would be 121 |
| Driver.PrescaleInDeviceRange | useless_machine.py:45-52 | every frequency from 24 Hz to 1708 Hz gives a prescale the chip accepts (3-255) |
| Driver.SleepMode | useless_machine.py:56-57 | `(oldmode & 0x7F) \| 0x10` sets SLEEP, clears RESTART and keeps bits 0-3 and 5-6 |
| Driver.RestartMode | useless_machine.py:62 | `oldmode \| 0x80` sets RESTART and keeps bits 0-6 |
| Driver.PwmWrites | useless_machine.py:66-69 | the four writes of setPWM in issue order; PwmWritesDecode and PwmWritesAreBytes state their meaning |
| Driver.ServoWrites | useless_machine.py:75-76 | setServoPulse's writes, setPWM(channel, 0, ticks); ServoWritesDecode and ServoWritesRegisters state their meaning |
| Driver.FreqWrites | useless_machine.py:56-62 | setPWMFreq's four MODE1/PRESCALE writes after the read-back; FreqWritesProtocol states their meaning |
| Driver.PwmWritesDecode | useless_machine.py:64-69 | the four writes of setPWM decode back to the channel and the ON and OFF counts |
| Driver.PwmWritesAreBytes | useless_machine.py:64-69 | for 16-bit counts every value setPWM writes is a byte |
| Driver.ServoWritesDecode | useless_machine.py:73-76 | a servo pulse shorter than a period writes ON = 0 and a 12-bit OFF count, all as bytes |
| Driver.ServoWritesRegisters | useless_machine.py:64-69 | a channel-0..15 pulse writes only that channel's four LED registers, never MODE1 or PRESCALE |
| Driver.PrescaleWrittenAsleepAppend | useless_machine.py:55-62 | the sleep protocol and the last MODE1 value compose over concatenated logs |
| Driver.OtherRegistersKeepMode | useless_machine.py:64-69 | writes that avoid MODE1 and PRESCALE keep the protocol and the last MODE1 value |
| Driver.FreqWritesProtocol | useless_machine.py:55-62 | setPWMFreq writes PRESCALE only while MODE1 has SLEEP set and leaves MODE1 at the old mode with RESTART |
| Driver.Pca9685.constructor | useless_machine.py:22-28 | a new driver has written only MODE1 = 0x00 |
| Driver.Pca9685.Write | useless_machine.py:30-34 | one write appends one `(register, value)` to the bus log |
| Driver.Pca9685.SetPwmFreq | useless_machine.py:43-62 | for freq != 0 the log grows by sleep mode, PRESCALE, old mode, old mode with RESTART; freq == 0 writes nothing and reports failure |
| Driver.Pca9685.SetPwm | useless_machine.py:64-69 | the log grows by ON low, ON high, OFF low, OFF high of the channel |
| Driver.Pca9685.SetServoPulse | useless_machine.py:73-76 | the log grows by setPWM(channel, 0, ticks of the pulse) |
| Choreography.Channel | useless_machine.py:83-85 | the servos sit on channels 13-15 |
| Choreography.ChannelsDistinct | useless_machine.py:83-85 | no two servos share a channel |
| Choreography.RangeSeq | useless_machine.py:171 | Python's `range(start, stop, step)` for either sign of step; RangeSeqSpec, RangeCountIsLength and RangeLastIsLast characterise it |
| Choreography.RangeSeqSpec | useless_machine.py:171-173 | the positions of `range(start, stop, step)` are start + i * step, all in range, and the next one is not |
| Choreography.RangeCountIsLength | useless_machine.py:171-173 | the closed-form count equals the number of positions the range yields |
| Choreography.RangeLastIsLast | useless_machine.py:171-173 | the closed-form last position is the last position a non-empty range yields |
| Choreography.SweepSteps | useless_machine.py:171-173 | a sweep issues two commands per position it visits |
| Choreography.Repeated | useless_machine.py:143-147 | `for _ in range(n)` issues n times as many commands as its body |
| Choreography.RepeatedAt | useless_machine.py:143-147 | command i of n repetitions is command i mod the body's length of the body |
| Choreography.SweepStepsAt | useless_machine.py:171-173 | a sweep commands position i at index 2i and sleeps after it at 2i + 1 |
| Choreography.MoveSteps | useless_machine.py:104-105 | how one statement runs: a pulse, a sleep, or a sweep's commands; RunMove executes it |
| Choreography.MovesSteps | useless_machine.py:143-147 | how a loop body runs: its statements' commands in order; MovesStepsSnoc and RunMoves state it |
| Choreography.BlockSteps | useless_machine.py:143-147 | how a top-level statement or `for _ in range(n)` runs; RunBlock executes it |
| Choreography.Expand | useless_machine.py:103-111 | the commands an action issues, block by block; ExpandAt, ExpandSnoc, Action1Trace and RunChoreography state it |
| Choreography.MovesStepsSnoc | useless_machine.py:143-147 | the trace of a list of statements is the traces of its statements in order |
| Choreography.SweepStepsSnoc | useless_machine.py:171-173 | one more sweep position adds one pulse and one sleep at the end |
| Choreography.ExpandAt | useless_machine.py:103-111 | an action's trace is its first remaining statement's trace followed by the rest |
| Choreography.ExpandSnoc | useless_machine.py:103-111 | one more statement adds its trace at the end |
| Choreography.RuleForbids | useless_machine.py:101 | from rest the rule forbids moving the arm before the lid opens, and closing the lid while the arm is out; moving the arm once the lid is open is allowed |
| Choreography.StepSafe | useless_machine.py:101 | the rule for one command: the arm moves only while the lid is not commanded closed, and the lid closes only with the arm fully closed; RuleForbids shows what it forbids |
| Choreography.SafeFrom | useless_machine.py:101 | the rule for a whole trace, command by command; TraceAppend and Sound state its properties |
| Choreography.TraceAppend | useless_machine.py:101 | the rule holds of two traces in sequence exactly when it holds of the first and of the second from where the first ends |
| Choreography.OneStep | useless_machine.py:101 | a one-command trace keeps the rule exactly when the command does |
| Choreography.SweepSound | useless_machine.py:171-173 | an accepted sweep keeps the rule and ends at its last position |
| Choreography.MoveSound | useless_machine.py:101 | an accepted statement keeps the rule and ends where the validator predicts |
| Choreography.MovesSound | useless_machine.py:101 | the same for a list of statements |
| Choreography.RepeatSound | useless_machine.py:143-147 | a body that keeps the rule from where it starts, and again from where it ends, keeps it for any number of repetitions |
| Choreography.BlockSound | useless_machine.py:143-147 | an accepted top-level statement or repeat keeps the rule and ends where the validator predicts |
| Choreography.Sound | useless_machine.py:101 | whatever the validator accepts keeps the rule on the expanded trace and ends where the validator predicts |
| Catalog.Dispatch | useless_machine.py:689-693 | `globals()[f'action{n}']` finds an action exactly for n in 1..50 |
| Catalog.Action1 | useless_machine.py:103-111 | action1's statements, loops and sweeps in source order as data; Action1Checked states what it does |
| Catalog.Action2 | useless_machine.py:113-120 | action2's statements, loops and sweeps in source order as data; Action2Checked states what it does |
| Catalog.Action3 | useless_machine.py:122-129 | action3's statements, loops and sweeps in source order as data; Action3Checked states what it does |
| Catalog.Action4 | useless_machine.py:131-138 | action4's statements, loops and sweeps in source order as data; Action4Checked states what it does |
| Catalog.Action5 | useless_machine.py:140-152 | action5's statements, loops and sweeps in source order as data; Action5Checked states what it does |
| Catalog.Action6 | useless_machine.py:154-164 | action6's statements, loops and sweeps in source order as data; Action6Checked states what it does |
| Catalog.Action7 | useless_machine.py:166-176 | action7's statements, loops and sweeps in source order as data; Action7Checked states what it does |
| Catalog.Action8 | useless_machine.py:178-206 | action8 as data: its statements when the button still reads pressed, and nothing when it does not; ReleasedButtonIdles and Action8Checked state what it does |
| Catalog.Action9 | useless_machine.py:208-219 | action9's statements, loops and sweeps in source order as data; Action9Checked states what it does |
| Catalog.Action10 | useless_machine.py:221-228 | action10's statements, loops and sweeps in source order as data; Action10Checked states what it does |
| Catalog.Action11 | useless_machine.py:230-241 | action11's statements, loops and sweeps in source order as data; Action11Checked states what it does |
| Catalog.Action12 | useless_machine.py:243-252 | action12's statements, loops and sweeps in source order as data; Action12Checked states what it does |
| Catalog.Action13 | useless_machine.py:254-264 | action13's statements, loops and sweeps in source order as data; Action13Checked states what it does |
| Catalog.Action14 | useless_machine.py:266-277 | action14's statements, loops and sweeps in source order as data; Action14Checked states what it does |
| Catalog.Action15 | useless_machine.py:279-291 | action15's statements, loops and sweeps in source order as data; Action15Checked states what it does |
| Catalog.Action16 | useless_machine.py:293-304 | action16's statements, loops and sweeps in source order as data; Action16Checked states what it does |
| Catalog.Action17 | useless_machine.py:306-317 | action17's statements, loops and sweeps in source order as data; Action17Checked states what it does |
| Catalog.Action18 | useless_machine.py:319-327 | action18's statements, loops and sweeps in source order as data; Action18Checked states what it does |
| Catalog.Action19 | useless_machine.py:329-337 | action19's statements, loops and sweeps in source order as data; Action19Checked states what it does |
| Catalog.Action20 | useless_machine.py:339-350 | action20's statements, loops and sweeps in source order as data; Action20Checked states what it does |
| Catalog.Action21 | useless_machine.py:352-362 | action21's statements, loops and sweeps in source order as data; Action21Checked states what it does |
| Catalog.Action22 | useless_machine.py:364-373 | action22's statements, loops and sweeps in source order as data; Action22Checked states what it does |
| Catalog.Action23 | useless_machine.py:375-385 | action23's statements, loops and sweeps in source order as data; Action23Checked states what it does |
| Catalog.Action24 | useless_machine.py:387-396 | action24's statements, loops and sweeps in source order as data; Action24Checked states what it does |
| Catalog.Action25 | useless_machine.py:398-407 | action25's statements, loops and sweeps in source order as data; Action25Checked states what it does |
| Catalog.Action26 | useless_machine.py:409-419 | action26's statements, loops and sweeps in source order as data; Action26Checked states what it does |
| Catalog.Action27 | useless_machine.py:421-431 | action27's statements, loops and sweeps in source order as data; Action27Checked states what it does |
| Catalog.Action28 | useless_machine.py:433-442 | action28's statements, loops and sweeps in source order as data; Action28Checked states what it does |
| Catalog.Action29 | useless_machine.py:444-455 | action29's statements, loops and sweeps in source order as data; Action29Checked states what it does |
| Catalog.Action30 | useless_machine.py:457-467 | action30's statements, loops and sweeps in source order as data; Action30Checked states what it does |
| Catalog.Action31 | useless_machine.py:469-478 | action31's statements, loops and sweeps in source order as data; Action31Checked states what it does |
| Catalog.Action32 | useless_machine.py:480-491 | action32's statements, loops and sweeps in source order as data; Action32Checked states what it does |
| Catalog.Action33 | useless_machine.py:493-503 | action33's statements, loops and sweeps in source order as data; Action33Checked states what it does |
| Catalog.Action34 | useless_machine.py:505-512 | action34's statements, loops and sweeps in source order as data; Action34Checked states what it does |
| Catalog.Action35 | useless_machine.py:514-524 | action35's statements, loops and sweeps in source order as data; Action35Checked states what it does |
| Catalog.Action36 | useless_machine.py:526-536 | action36's statements, loops and sweeps in source order as data; Action36Checked states what it does |
| Catalog.Action37 | useless_machine.py:538-545 | action37's statements, loops and sweeps in source order as data; Action37Checked states what it does |
| Catalog.Action38 | useless_machine.py:547-558 | action38's statements, loops and sweeps in source order as data; Action38Checked states what it does |
| Catalog.Action39 | useless_machine.py:560-567 | action39's statements, loops and sweeps in source order as data; Action39Checked states what it does |
| Catalog.Action40 | useless_machine.py:569-579 | action40's statements, loops and sweeps in source order as data; Action40Checked states what it does |
| Catalog.Action41 | useless_machine.py:581-588 | action41's statements, loops and sweeps in source order as data; Action41Checked states what it does |
| Catalog.Action42 | useless_machine.py:590-599 | action42's statements, loops and sweeps in source order as data; Action42Checked states what it does |
| Catalog.Action43 | useless_machine.py:601-611 | action43's statements, loops and sweeps in source order as data; Action43Checked states what it does |
| Catalog.Action44 | useless_machine.py:613-621 | action44's statements, loops and sweeps in source order as data; Action44Checked states what it does |
| Catalog.Action45 | useless_machine.py:623-629 | action45's statements, loops and sweeps in source order as data; Action45Checked states what it does |
| Catalog.Action46 | useless_machine.py:631-638 | action46's statements, loops and sweeps in source order as data; Action46Checked states what it does |
| Catalog.Action47 | useless_machine.py:640-651 | action47's statements, loops and sweeps in source order as data; Action47Checked states what it does |
| Catalog.Action48 | useless_machine.py:653-664 | action48's statements, loops and sweeps in source order as data; Action48Checked states what it does |
| Catalog.Action49 | useless_machine.py:666-675 | action49's statements, loops and sweeps in source order as data; Action49Checked states what it does |
| Catalog.Action50 | useless_machine.py:677-686 | action50's statements, loops and sweeps in source order as data; Action50Checked states what it does |
| Catalog.ReleasedButtonIdles | useless_machine.py:178-179 | action8 with the button released issues no command |
| Catalog.Action1Trace | useless_machine.py:103-111 | action1 issues exactly its eight commands in order |
| Catalog.Action1Checked | useless_machine.py:103-111 | action1 passes the validator from either rest pose and ends with lid 2400, arm and flag 2450 |
| Catalog.Action2Checked | useless_machine.py:113-120 | action2 passes the validator from either rest pose and ends with lid 2400, arm and flag 2450 |
| Catalog.Action3Checked | useless_machine.py:122-129 | action3 passes the validator from either rest pose and ends with lid 2400, arm and flag 2450 |
| Catalog.Action4Checked | useless_machine.py:131-138 | action4 passes the validator from either rest pose and ends with lid 2400, arm and flag 2450 |
| Catalog.Action5Checked | useless_machine.py:140-152 | action5 passes the validator from either rest pose and ends with lid 2400, arm and flag 2450 |
| Catalog.Action6Checked | useless_machine.py:154-164 | action6 passes the validator from either rest pose and ends with lid 2400, arm and flag 2450 |
| Catalog.Action7Checked | useless_machine.py:166-176 | action7 passes the validator from either rest pose and ends with lid 2400, arm and flag 2450 |
| Catalog.Action8Checked | useless_machine.py:178-206 | action8 passes the validator from either rest pose and ends at rest, whether or not the button still reads pressed |
| Catalog.Action9Checked | useless_machine.py:208-219 | action9 passes the validator from either rest pose and ends with lid 2400, arm and flag 2450 |
| Catalog.Action10Checked | useless_machine.py:221-228 | action10 passes the validator from either rest pose and ends with lid 2400, arm and flag 2450 |
| Catalog.Action11Checked | useless_machine.py:230-241 | action11 passes the validator from either rest pose and ends with lid 2400, arm and flag 2450 |
| Catalog.Action12Checked | useless_machine.py:243-252 | action12 passes the validator from either rest pose and ends with lid 2400, arm and flag 2450 |
| Catalog.Action13Checked | useless_machine.py:254-264 | action13 passes the validator from either rest pose and ends with lid 2400, arm and flag 2450 |
| Catalog.Action14Checked | useless_machine.py:266-277 | action14 passes the validator from either rest pose and ends with lid 2400, arm and flag 2450 |
| Catalog.Action15Checked | useless_machine.py:279-291 | action15 passes the validator from either rest pose and ends with lid 2400, arm and flag 2450 |
| Catalog.Action16Checked | useless_machine.py:293-304 | action16 passes the validator from either rest pose and ends with lid 2400, arm and flag 2450 |
| Catalog.Action17Checked | useless_machine.py:306-317 | action17 passes the validator from either rest pose and ends with lid 2400, arm and flag 2450 |
| Catalog.Action18Checked | useless_machine.py:319-327 | action18 passes the validator from either rest pose and ends with lid 2400, arm and flag 2450 |
| Catalog.Action19Checked | useless_machine.py:329-337 | action19 passes the validator from either rest pose and ends with lid 2400, arm and flag 2450 |
| Catalog.Action20Checked | useless_machine.py:339-350 | action20 passes the validator from either rest pose and ends with lid 2400, arm and flag 2450 |
| Catalog.Action21Checked | useless_machine.py:352-362 | action21 passes the validator from either rest pose and ends with lid 2400, arm and flag 2450 |
| Catalog.Action22Checked | useless_machine.py:364-373 | action22 passes the validator from either rest pose and ends with lid 2400, arm and flag 2450 |
| Catalog.Action23Checked | useless_machine.py:375-385 | action23 passes the validator from either rest pose and ends with lid 2400, arm and flag 2450 |
| Catalog.Action24Checked | useless_machine.py:387-396 | action24 passes the validator from either rest pose and ends with lid 2400, arm and flag 2450 |
| Catalog.Action25Checked | useless_machine.py:398-407 | action25 passes the validator from either rest pose and ends with lid 2400, arm and flag 2450 |
| Catalog.Action26Checked | useless_machine.py:409-419 | action26 passes the validator from either rest pose and ends with lid 2400, arm and flag 2450 |
| Catalog.Action27Checked | useless_machine.py:421-431 | action27 passes the validator from either rest pose and ends with lid 2300, arm and flag 2450 |
| Catalog.Action28Checked | useless_machine.py:433-442 | action28 passes the validator from either rest pose and ends with lid 2300, arm and flag 2450 |
| Catalog.Action29Checked | useless_machine.py:444-455 | action29 passes the validator from either rest pose and ends with lid 2300, arm and flag 2450 |
| Catalog.Action30Checked | useless_machine.py:457-467 | action30 passes the validator from either rest pose and ends with lid 2300, arm and flag 2450 |
| Catalog.Action31Checked | useless_machine.py:469-478 | action31 passes the validator from either rest pose and ends with lid 2400, arm and flag 2450 |
| Catalog.Action32Checked | useless_machine.py:480-491 | action32 passes the validator from either rest pose and ends with lid 2400, arm and flag 2450 |
| Catalog.Action33Checked | useless_machine.py:493-503 | action33 passes the validator from either rest pose and ends with lid 2400, arm and flag 2450 |
| Catalog.Action34Checked | useless_machine.py:505-512 | action34 passes the validator from either rest pose and ends with lid 2400, arm and flag 2450 |
| Catalog.Action35Checked | useless_machine.py:514-524 | action35 passes the validator from either rest pose and ends with lid 2400, arm and flag 2450 |
| Catalog.Action36Checked | useless_machine.py:526-536 | action36 passes the validator from either rest pose and ends with lid 2400, arm and flag 2450 |
| Catalog.Action37Checked | useless_machine.py:538-545 | action37 passes the validator from either rest pose and ends with lid 2400, arm and flag 2450 |
| Catalog.Action38Checked | useless_machine.py:547-558 | action38 passes the validator from either rest pose and ends with lid 2400, arm and flag 2450 |
| Catalog.Action39Checked | useless_machine.py:560-567 | action39 passes the validator from either rest pose and ends with lid 2400, arm and flag 2450 |
| Catalog.Action40Checked | useless_machine.py:569-579 | action40 passes the validator from either rest pose and ends with lid 2400, arm and flag 2450 |
| Catalog.Action41Checked | useless_machine.py:581-588 | action41 passes the validator from either rest pose and ends with lid 2400, arm and flag 2450 |
| Catalog.Action42Checked | useless_machine.py:590-599 | action42 passes the validator from either rest pose and ends with lid 2400, arm and flag 2450 |
| Catalog.Action43Checked | useless_machine.py:601-611 | action43 passes the validator from either rest pose and ends with lid 2400, arm and flag 2450 |
| Catalog.Action44Checked | useless_machine.py:613-621 | action44 passes the validator from either rest pose and ends with lid 2400, arm and flag 2450 |
| Catalog.Action45Checked | useless_machine.py:623-629 | action45 passes the validator from either rest pose and ends with lid 2400, arm and flag 2450 |
| Catalog.Action46Checked | useless_machine.py:631-638 | action46 passes the validator from either rest pose and ends with lid 2400, arm and flag 2450 |
| Catalog.Action47Checked | useless_machine.py:640-651 | action47 passes the validator from either rest pose and ends with lid 2400, arm and flag 2450 |
| Catalog.Action48Checked | useless_machine.py:653-664 | action48 passes the validator from either rest pose and ends with lid 2400, arm and flag 2450 |
| Catalog.Action49Checked | useless_machine.py:666-675 | action49 passes the validator from either rest pose and ends with lid 2400, arm and flag 2450 |
| Catalog.Action50Checked | useless_machine.py:677-686 | action50 passes the validator from either rest pose and ends with lid 2400, arm and flag 2450 |
| Catalog.DispatchChecked | useless_machine.py:689-693 | every drawn action passes the validator from either rest pose and ends at rest |
| Catalog.CatalogSafe | useless_machine.py:101 | every drawn action, from any rest pose, keeps the rule on its trace and leaves lid, arm and flag closed |
| UselessMachine.BusWrites | useless_machine.py:73-76 | a trace causes at most four bus writes per command |
| UselessMachine.BusWritesCount | useless_machine.py:73-76 | exactly four bus writes per servo command and none per sleep |
| UselessMachine.BusWritesAppend | useless_machine.py:73-76 | the writes of two traces in sequence are the writes of each, in order |
| UselessMachine.BusWritesRegisters | useless_machine.py:83-85 | servo commands only write the LED registers of channels 13-15, never MODE1 or PRESCALE |
| UselessMachine.StartupWrites | useless_machine.py:28 | the reset write then setPWMFreq(50)'s writes; StartupFromReset and StartupProtocol state their meaning |
| UselessMachine.StartupFromReset | useless_machine.py:79-80 | with MODE1 reading 0x00, start-up writes MODE1 0x00, MODE1 0x10, PRESCALE 119, MODE1 0x00, MODE1 0x80 |
| UselessMachine.StartupProtocol | useless_machine.py:79-80 | after start-up and any servo commands, PRESCALE was written only asleep and MODE1 last holds the old mode with RESTART |
| UselessMachine.DefaultPositionsRest | useless_machine.py:91-94 | set_default_positions (`DEFAULT_POSITIONS`: arm 2450, flag 2450, lid 2400) brings any pose to lid 2400, arm and flag 2450 |
| UselessMachine.DefaultPositionsWrites | useless_machine.py:91-94 | `DEFAULT_POSITIONS` writes registers 62-65, 58-61, 66-69 with ON 0 and OFF 501, 501, 491 ticks (bytes 245/1, 245/1, 235/1) |
| UselessMachine.StartSettled | useless_machine.py:91-96 | the history right after set_default_positions is settled and at the default pose |
| UselessMachine.SettledAppend | useless_machine.py:101 | commands that keep the rule from where a settled history stopped, and end at rest, keep it settled |
| UselessMachine.PressKeepsSettled | useless_machine.py:689-693 | running any drawn action on a settled history leaves it settled |
| UselessMachine.Machine.constructor | useless_machine.py:79-96 | start-up leaves the log at reset, setPWMFreq(50) and the three default pulses, with the machine valid at the default pose |
| UselessMachine.Machine.ServoPulse | useless_machine.py:73-76 | a pulse on a servo appends its command and keeps the log in step |
| UselessMachine.Machine.Sleep | useless_machine.py:105 | a sleep appends a hold and writes nothing |
| UselessMachine.Machine.RunSweep | useless_machine.py:171-173 | the while loop over the range issues exactly the sweep's trace |
| UselessMachine.Machine.RunMove | useless_machine.py:171-173 | one statement issues exactly its trace |
| UselessMachine.Machine.RunMoves | useless_machine.py:143-147 | a loop body issues exactly the traces of its statements in order |
| UselessMachine.Machine.RunBlock | useless_machine.py:143-147 | a repeat issues its body's trace n times |
| UselessMachine.Machine.RunChoreography | useless_machine.py:693 | running an action issues exactly its expanded trace |
| UselessMachine.Machine.Poll | useless_machine.py:689-693 | with the button pressed the drawn action's trace is appended and the machine stays valid; released, nothing changes |

## Left out

- The I2C bus itself (`smbus.SMBus`, `write_byte_data`, `read_byte_data`) is not modelled. Writes go to the log. The MODE1 read-back is the `oldmode` parameter of `SetPwmFreq` and of the `Machine` constructor.
- The `debug` flag and its `print` calls do not change any write, so they are left out.
- The unused register constants (SUBADR1-3, ALLLED_*) and the `action = 1` global are left out.
- Floating point is not modelled. `Prescale` and `ServoTicks` compute in exact arithmetic. For the values the script uses, exact and double-precision arithmetic give the same integers. For very large inputs they could differ.
- Time is not modelled. `time.sleep` becomes a `Hold` command that writes nothing. The 5 ms sleep inside setPWMFreq leaves no trace at all.
- The GPIO button (`gpiozero.Button`) is not modelled. `Poll` receives its reading as `pressed`, and action8's second reading as `stillPressed`.
- `random.randint(1, 50)` is not modelled. `Poll` receives the drawn number `n` and requires 1 <= n <= 50, as randint guarantees.
- The endless `while True` loop is modelled one pass at a time. `Poll` keeps the machine's invariant, so any number of passes keeps it.
- The Python exceptions are not modelled. `SetPwmFreq` with freq 0 returns `false` and writes nothing, where the script raises ZeroDivisionError before touching the bus. A number outside 1..50 would raise KeyError in the script; `Dispatch` returns None for it.
- Choreography.SweepSafe: a lid sweep is accepted only while the arm is fully closed, even if it never reaches a closing pulse. This is stricter than the rule; no action sweeps the lid.
- Choreography.BlockSafe: a repeat of two or more passes is accepted only if a second pass ends where the first one did. Every repeat in the catalog meets this.
