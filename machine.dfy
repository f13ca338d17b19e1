/**
 * The script of useless_machine.py as a machine: the PCA9685 driver, the
 * start-up sequence (useless_machine.py:79-96), and one pass of the main loop
 * (useless_machine.py:690-693) that runs a drawn choreography command by
 * command. The machine remembers every servo command it has issued since
 * start-up; its invariant ties that history to the bus log and to the rule
 * of useless_machine.py:101.
 */
module UselessMachine {

  import opened Wrappers
  import opened Driver
  import opened Choreography
  import opened Catalog

  /** How many servo commands a trace holds. */
  function PulseCount(t: seq<Step>): (n: nat)
    ensures n <= |t|
    decreases t
  {
    if t == [] then 0 else (if t[0].Pulse? then 1 else 0) + PulseCount(t[1..])
  }

  /** The bus writes a trace of commands causes: four per pulse, none per sleep. */
  function BusWrites(t: seq<Step>): (ws: seq<BusWrite>)
    ensures |ws| <= 4 * |t|
    decreases t
  {
    if t == [] then []
    else
      (match t[0]
       case Pulse(s, us) => ServoWrites(Channel(s), us)
       case Hold(_) => []) + BusWrites(t[1..])
  }

  /** Exactly four writes per servo command and none per sleep. */
  lemma {:induction false} BusWritesCount(t: seq<Step>)
    ensures |BusWrites(t)| == 4 * PulseCount(t)
    decreases t
  {
    if t != [] {
      BusWritesCount(t[1..]);
    }
  }

  lemma {:induction false} BusWritesAppend(a: seq<Step>, b: seq<Step>)
    ensures BusWrites(a + b) == BusWrites(a) + BusWrites(b)
    decreases a
  {
    if a == [] {
      assert a + b == b;
    } else {
      assert (a + b)[0] == a[0];
      assert (a + b)[1..] == a[1..] + b;
      BusWritesAppend(a[1..], b);
    }
  }

  /** Servo commands only ever write the LED registers of channels 13-15. */
  lemma {:induction false} BusWritesRegisters(t: seq<Step>)
    ensures forall w | w in BusWrites(t) :: LED0_ON_L + 4 * 13 <= w.reg <= LED0_OFF_H + 4 * 15
    ensures forall w | w in BusWrites(t) :: w.reg != MODE1 && w.reg != PRESCALE
    decreases t
  {
    if t != [] {
      BusWritesRegisters(t[1..]);
      match t[0]
      case Pulse(s, us) => ServoWritesRegisters(Channel(s), us);
      case Hold(_) =>
    }
  }

  /** What the module-level code writes before any servo moves: the reset, then setPWMFreq(50). */
  function StartupWrites(oldmode: Byte): seq<BusWrite> {
    [BusWrite(MODE1, 0x00)] + FreqWrites(Prescale(50), oldmode)
  }

  /** With MODE1 reading back 0x00, start-up writes exactly these five bytes. */
  lemma StartupFromReset()
    ensures StartupWrites(0x00) ==
      [ BusWrite(MODE1, 0x00), BusWrite(MODE1, 0x10), BusWrite(PRESCALE, 119),
        BusWrite(MODE1, 0x00), BusWrite(MODE1, 0x80) ]
  {
    PrescaleAt50Hz();
  }

  /**
   * However many servo commands follow start-up, PRESCALE was written only
   * while MODE1 had SLEEP set, and MODE1 last holds the old mode with RESTART.
   */
  lemma StartupProtocol(oldmode: Byte, t: seq<Step>)
    ensures PrescaleWrittenAsleep(StartupWrites(oldmode) + BusWrites(t), None)
    ensures LastMode1(StartupWrites(oldmode) + BusWrites(t), None) == Some(RestartMode(oldmode))
  {
    var reset := [BusWrite(MODE1, 0x00)];
    var freq := FreqWrites(Prescale(50), oldmode);
    OneWrite(BusWrite(MODE1, 0x00), None);
    FreqWritesProtocol(Prescale(50), oldmode, Some(0x00));
    PrescaleWrittenAsleepAppend(reset, freq, None);
    BusWritesRegisters(t);
    OtherRegistersKeepMode(BusWrites(t), Some(RestartMode(oldmode)));
    PrescaleWrittenAsleepAppend(reset + freq, BusWrites(t), None);
  }

  /** set_default_positions (useless_machine.py:91-94): arm, then flag, then lid. */
  const DEFAULT_POSITIONS: seq<Step> :=
    [Pulse(Arm, ARM_CLOSED), Pulse(Flag, FLAG_CLOSED), Pulse(Lid, LID_CLOSED)]

  lemma DefaultPositionsRest(p: Pose)
    ensures Final(p, DEFAULT_POSITIONS) == DEFAULT_POSE && AtRest(DEFAULT_POSE)
  {
    var q := Next(Next(p, DEFAULT_POSITIONS[0]), DEFAULT_POSITIONS[1]);
    assert DEFAULT_POSITIONS[1..][1..] == [Pulse(Lid, LID_CLOSED)];
    OneStep(q, Pulse(Lid, LID_CLOSED));
  }

  /**
   * set_default_positions writes, in order, channel 14 (arm), 13 (flag) and
   * 15 (lid): ON = 0 and OFF = 501, 501 and 491 ticks.
   */
  lemma DefaultPositionsWrites()
    ensures BusWrites(DEFAULT_POSITIONS) ==
      [ BusWrite(62, 0), BusWrite(63, 0), BusWrite(64, 245), BusWrite(65, 1),
        BusWrite(58, 0), BusWrite(59, 0), BusWrite(60, 245), BusWrite(61, 1),
        BusWrite(66, 0), BusWrite(67, 0), BusWrite(68, 235), BusWrite(69, 1) ]
  {
    var t := DEFAULT_POSITIONS;
    ServoTickValues();
    assert ServoWrites(14, 2450) ==
      [BusWrite(62, 0), BusWrite(63, 0), BusWrite(64, 245), BusWrite(65, 1)];
    assert ServoWrites(13, 2450) ==
      [BusWrite(58, 0), BusWrite(59, 0), BusWrite(60, 245), BusWrite(61, 1)];
    assert ServoWrites(15, 2400) ==
      [BusWrite(66, 0), BusWrite(67, 0), BusWrite(68, 235), BusWrite(69, 1)];
    assert t[1..][1..][1..] == [];
    assert BusWrites(t[1..][1..]) == ServoWrites(15, 2400) + BusWrites([]);
    assert BusWrites(t[1..]) == ServoWrites(13, 2450) + BusWrites(t[1..][1..]);
    assert BusWrites(t) == ServoWrites(14, 2450) + BusWrites(t[1..]);
  }

  /**
   * A command history between presses: set_default_positions, then commands
   * that all kept the rule and left the servos at rest.
   */
  predicate Settled(t: seq<Step>) {
    var k := |DEFAULT_POSITIONS|;
    |t| >= k && t[..k] == DEFAULT_POSITIONS && SafeFrom(DEFAULT_POSE, t[k..]) &&
    AtRest(Final(DEFAULT_POSE, t[k..]))
  }

  lemma StartSettled()
    ensures Settled(DEFAULT_POSITIONS)
    ensures Final(DEFAULT_POSE, DEFAULT_POSITIONS[|DEFAULT_POSITIONS|..]) == DEFAULT_POSE
  {
    assert DEFAULT_POSITIONS[|DEFAULT_POSITIONS|..] == [];
  }

  /** A history is settled when it is set_default_positions followed by a safe trace ending at rest. */
  lemma SettledOf(h: seq<Step>)
    requires SafeFrom(DEFAULT_POSE, h) && AtRest(Final(DEFAULT_POSE, h))
    ensures Settled(DEFAULT_POSITIONS + h)
    ensures (DEFAULT_POSITIONS + h)[|DEFAULT_POSITIONS|..] == h
  {
    assert (DEFAULT_POSITIONS + h)[..|DEFAULT_POSITIONS|] == DEFAULT_POSITIONS;
    assert (DEFAULT_POSITIONS + h)[|DEFAULT_POSITIONS|..] == h;
  }

  /** Commands safe from where a settled history stopped, and ending at rest, keep it settled. */
  lemma SettledAppend(t: seq<Step>, e: seq<Step>)
    requires Settled(t)
    requires SafeFrom(Final(DEFAULT_POSE, t[|DEFAULT_POSITIONS|..]), e)
    requires AtRest(Final(Final(DEFAULT_POSE, t[|DEFAULT_POSITIONS|..]), e))
    ensures Settled(t + e)
  {
    var h := t[|DEFAULT_POSITIONS|..];
    assert t == DEFAULT_POSITIONS + h by {
      assert t == t[..|DEFAULT_POSITIONS|] + h;
    }
    Assoc(DEFAULT_POSITIONS, h, e);
    TraceAppend(DEFAULT_POSE, h, e);
    SettledOf(h + e);
  }

  /** Running any drawn action on a settled history leaves it settled. */
  lemma PressKeepsSettled(t: seq<Step>, n: int, pressed: bool)
    requires Settled(t) && 1 <= n <= 50
    ensures Settled(t + Expand(Dispatch(n, pressed).value))
  {
    CatalogSafe(n, pressed, Final(DEFAULT_POSE, t[|DEFAULT_POSITIONS|..]));
    SettledAppend(t, Expand(Dispatch(n, pressed).value));
  }

  lemma Assoc<T>(a: seq<T>, b: seq<T>, c: seq<T>)
    ensures (a + b) + c == a + (b + c)
  {
  }

  /** Running statement i after the first i extends the history by its trace. */
  lemma MovesStep(c0: seq<Step>, pre: seq<Step>, post: seq<Step>, body: seq<Move>, i: nat)
    requires i < |body|
    requires pre == c0 + MovesSteps(body[..i]) && post == pre + MoveSteps(body[i])
    ensures post == c0 + MovesSteps(body[..i + 1])
  {
    assert body[..i + 1] == body[..i] + [body[i]];
    MovesStepsSnoc(body[..i], body[i]);
    Assoc(c0, MovesSteps(body[..i]), MoveSteps(body[i]));
  }

  /** Running block i after the first i extends the history by its trace. */
  lemma ExpandStep(c0: seq<Step>, pre: seq<Step>, post: seq<Step>, c: Choreography, i: nat)
    requires i < |c|
    requires pre == c0 + Expand(c[..i]) && post == pre + BlockSteps(c[i])
    ensures post == c0 + Expand(c[..i + 1])
  {
    assert c[..i + 1] == c[..i] + [c[i]];
    ExpandSnoc(c[..i], c[i]);
    Assoc(c0, Expand(c[..i]), BlockSteps(c[i]));
  }

  class Machine {
    /** The PCA9685 at address 0x40 (useless_machine.py:79). */
    const pwm: Pca9685
    /** Every servo command and sleep issued since setPWMFreq(50). */
    var commands: seq<Step>
    /** The writes of start-up, before set_default_positions. */
    ghost var startup: seq<BusWrite>

    /** The bus log is start-up followed by the writes of the commands. */
    ghost predicate Wired()
      reads this, pwm
    {
      pwm.log == startup + BusWrites(commands)
    }

    /** Where the commands issued since set_default_positions leave the servos. */
    ghost function CurrentPose(): Pose
      reads this
      requires |commands| >= |DEFAULT_POSITIONS|
    {
      Final(DEFAULT_POSE, commands[|DEFAULT_POSITIONS|..])
    }

    /**
     * Between presses: wired, started with set_default_positions, every
     * command since kept the rule, and the servos are back at rest.
     */
    ghost predicate Valid()
      reads this, pwm
    {
      Wired() && Settled(commands)
    }

    /**
     * Module start-up (useless_machine.py:79-80, 96): create the driver,
     * set 50 Hz with `oldmode` read back from MODE1, then
     * set_default_positions.
     */
    constructor (oldmode: Byte)
      ensures Valid() && fresh(pwm)
      ensures commands == DEFAULT_POSITIONS && CurrentPose() == DEFAULT_POSE
      ensures startup == StartupWrites(oldmode)
      ensures pwm.log == StartupWrites(oldmode) + BusWrites(DEFAULT_POSITIONS)
    {
      var driver := new Pca9685(0x40);
      var ok := driver.SetPwmFreq(50, oldmode);
      pwm := driver;
      commands := [];
      startup := StartupWrites(oldmode);
      new;
      ServoPulse(Arm, ARM_CLOSED);
      ServoPulse(Flag, FLAG_CLOSED);
      ServoPulse(Lid, LID_CLOSED);
      assert commands == DEFAULT_POSITIONS;
      StartSettled();
    }

    /** `pwm.setServoPulse(channel, us)` on the servo's channel. */
    method ServoPulse(s: Servo, us: int)
      requires Wired()
      modifies this, pwm
      ensures Wired() && startup == old(startup)
      ensures commands == old(commands) + [Pulse(s, us)]
    {
      pwm.SetServoPulse(Channel(s), us);
      BusWritesAppend(commands, [Pulse(s, us)]);
      assert BusWrites([Pulse(s, us)]) == ServoWrites(Channel(s), us) + BusWrites([]);
      Assoc(startup, BusWrites(commands), ServoWrites(Channel(s), us));
      commands := commands + [Pulse(s, us)];
    }

    /** `time.sleep(ms / 1000)`: no bus traffic, only time passes. */
    method Sleep(ms: nat)
      requires Wired()
      modifies this
      ensures Wired() && startup == old(startup)
      ensures commands == old(commands) + [Hold(ms)]
    {
      BusWritesAppend(commands, [Hold(ms)]);
      assert BusWrites([Hold(ms)]) == [];
      commands := commands + [Hold(ms)];
    }

    /** `for pos in range(start, stop, step): setServoPulse(pos); sleep(ms)`. */
    method RunSweep(s: Servo, start: int, stop: int, step: NonZero, ms: nat)
      requires Wired()
      modifies this, pwm
      ensures Wired() && startup == old(startup)
      ensures commands == old(commands) + SweepSteps(s, RangeSeq(start, stop, step), ms)
    {
      var pos := start;
      ghost var done: seq<int> := [];
      while InRange(pos, stop, step)
        invariant Wired() && startup == old(startup)
        invariant RangeSeq(start, stop, step) == done + RangeSeq(pos, stop, step)
        invariant commands == old(commands) + SweepSteps(s, done, ms)
        decreases if step > 0 then stop - pos else pos - stop
      {
        ghost var before := SweepSteps(s, done, ms);
        ServoPulse(s, pos);
        Sleep(ms);
        assert commands == old(commands) + before + [Pulse(s, pos)] + [Hold(ms)];
        assert [Pulse(s, pos)] + [Hold(ms)] == [Pulse(s, pos), Hold(ms)];
        Assoc(old(commands) + before, [Pulse(s, pos)], [Hold(ms)]);
        Assoc(old(commands), before, [Pulse(s, pos), Hold(ms)]);
        SweepStepsSnoc(s, done, pos, ms);
        assert RangeSeq(pos, stop, step) == [pos] + RangeSeq(pos + step, stop, step);
        Assoc(done, [pos], RangeSeq(pos + step, stop, step));
        done := done + [pos];
        pos := pos + step;
      }
      assert done + [] == done;
    }

    method RunMove(m: Move)
      requires Wired()
      modifies this, pwm
      ensures Wired() && startup == old(startup)
      ensures commands == old(commands) + MoveSteps(m)
    {
      match m
      case SetPulse(s, us) => ServoPulse(s, us);
      case Sleep(ms) => Sleep(ms);
      case Sweep(s, a, b, step, ms) => RunSweep(s, a, b, step, ms);
    }

    method RunMoves(body: seq<Move>)
      requires Wired()
      modifies this, pwm
      ensures Wired() && startup == old(startup)
      ensures commands == old(commands) + MovesSteps(body)
    {
      for i := 0 to |body|
        invariant Wired() && startup == old(startup)
        invariant commands == old(commands) + MovesSteps(body[..i])
      {
        ghost var pre := commands;
        RunMove(body[i]);
        MovesStep(old(commands), pre, commands, body, i);
      }
      assert body[..|body|] == body;
    }

    /** A top-level statement, or `for _ in range(n)` around its body. */
    method RunBlock(b: Block)
      requires Wired()
      modifies this, pwm
      ensures Wired() && startup == old(startup)
      ensures commands == old(commands) + BlockSteps(b)
    {
      match b
      case Do(m) => RunMove(m);
      case Repeat(n, body) =>
        for i := 0 to n
          invariant Wired() && startup == old(startup)
          invariant commands == old(commands) + Repeated(MovesSteps(body), i)
        {
          RunMoves(body);
          Assoc(old(commands), Repeated(MovesSteps(body), i), MovesSteps(body));
        }
    }

    /** Runs every statement of an action, in order. */
    method RunChoreography(c: Choreography)
      requires Wired()
      modifies this, pwm
      ensures Wired() && startup == old(startup)
      ensures commands == old(commands) + Expand(c)
    {
      for i := 0 to |c|
        invariant Wired() && startup == old(startup)
        invariant commands == old(commands) + Expand(c[..i])
      {
        ghost var pre := commands;
        RunBlock(c[i]);
        ExpandStep(old(commands), pre, commands, c, i);
      }
      assert c[..|c|] == c;
    }

    /**
     * One pass of the main loop (useless_machine.py:690-693). When the button
     * reads `pressed`, run the action numbered `n` (what randint(1, 50)
     * drew); `stillPressed` is what action8 reads when it polls the button.
     * The machine keeps the rule and ends at rest.
     */
    method Poll(pressed: bool, n: int, stillPressed: bool)
      requires Valid() && 1 <= n <= 50
      modifies this, pwm
      ensures Valid() && startup == old(startup)
      ensures pressed ==> commands == old(commands) + Expand(Dispatch(n, stillPressed).value)
      ensures !pressed ==> commands == old(commands) && pwm.log == old(pwm.log)
    {
      if pressed {
        PressKeepsSettled(commands, n, stillPressed);
        RunChoreography(Dispatch(n, stillPressed).value);
      }
    }
  }
}
