/**
 * Choreographies of useless_machine.py as data. Each `actionN` of the script
 * is a sequence of `setServoPulse(channel, pulse)` and `time.sleep(s)` calls,
 * some inside `for _ in range(n)` repeats and `for pos in range(a, b, step)`
 * sweeps. A Choreography keeps that structure; Expand unrolls it into the
 * flat trace of commands the script issues.
 *
 * The lid/arm rule (useless_machine.py:101) is stated on that trace
 * (SafeFrom) and decided on the structure by a validator (Check), which
 * Sound proves never accepts a choreography whose trace breaks the rule.
 */
module Choreography {

  import opened Arith

  /** The three mechanisms and the PWM channels they are wired to (useless_machine.py:83-85). */
  datatype Servo = Lid | Arm | Flag

  function Channel(s: Servo): (c: int)
    ensures 13 <= c <= 15
  {
    match s
    case Lid => 15
    case Arm => 14
    case Flag => 13
  }

  lemma ChannelsDistinct(s: Servo, t: Servo)
    ensures Channel(s) == Channel(t) <==> s == t
  {
  }

  // The resting pulses set_default_positions commands (useless_machine.py:92-94).
  const ARM_CLOSED: int := 2450
  const FLAG_CLOSED: int := 2450
  const LID_CLOSED: int := 2400

  /** Lid pulses that close it: 2400, and the 2300 that actions 27-30 use instead. */
  predicate LidCloses(us: int) {
    us == 2400 || us == 2300
  }

  /** One command of a trace: a setServoPulse call, or a sleep of `ms` milliseconds. */
  datatype Step = Pulse(servo: Servo, us: int) | Hold(ms: nat)

  type NonZero = x: int | x != 0 witness 1

  /** One statement of an action: a pulse, a sleep, or a `range(start, stop, step)` sweep
      that commands each position and sleeps `ms` after it. */
  datatype Move =
    | SetPulse(servo: Servo, us: int)
    | Sleep(ms: nat)
    | Sweep(servo: Servo, start: int, stop: int, step: NonZero, ms: nat)

  /** A top-level statement, or `for _ in range(times)` around a list of moves. */
  datatype Block = Do(move: Move) | Repeat(times: nat, body: seq<Move>)

  type Choreography = seq<Block>

  /** Whether `x` is still inside `range(..., stop, step)`. */
  predicate InRange(x: int, stop: int, step: NonZero) {
    if step > 0 then x < stop else x > stop
  }

  /** Python's `range(start, stop, step)`. */
  function RangeSeq(start: int, stop: int, step: NonZero): seq<int>
    decreases if step > 0 then stop - start else start - stop
  {
    if InRange(start, stop, step) then [start] + RangeSeq(start + step, stop, step) else []
  }

  /** The i-th position is start + i * step, every position is in range, and the next one is not. */
  lemma RangeSeqSpec(start: int, stop: int, step: NonZero)
    ensures forall i :: 0 <= i < |RangeSeq(start, stop, step)| ==>
              RangeSeq(start, stop, step)[i] == start + i * step &&
              InRange(RangeSeq(start, stop, step)[i], stop, step)
    ensures !InRange(start + |RangeSeq(start, stop, step)| * step, stop, step)
  {
    RangeSeqAt(start, stop, step);
    RangeSeqInRange(start, stop, step);
    RangeSeqEnd(start, stop, step);
  }

  lemma {:induction false} RangeSeqAt(start: int, stop: int, step: NonZero)
    ensures forall i :: 0 <= i < |RangeSeq(start, stop, step)| ==> RangeSeq(start, stop, step)[i] == start + i * step
    decreases if step > 0 then stop - start else start - stop
  {
    if InRange(start, stop, step) {
      RangeSeqAt(start + step, stop, step);
      var r := RangeSeq(start, stop, step);
      var rest := RangeSeq(start + step, stop, step);
      assert r == [start] + rest;
      forall i | 0 <= i < |r|
        ensures r[i] == start + i * step
      {
        if i > 0 {
          assert r[i] == rest[i - 1];
          MulStep(i, step);
        }
      }
    }
  }

  lemma {:induction false} RangeSeqInRange(start: int, stop: int, step: NonZero)
    ensures forall x | x in RangeSeq(start, stop, step) :: InRange(x, stop, step)
    decreases if step > 0 then stop - start else start - stop
  {
    if InRange(start, stop, step) {
      RangeSeqInRange(start + step, stop, step);
      assert RangeSeq(start, stop, step) == [start] + RangeSeq(start + step, stop, step);
    }
  }

  lemma {:induction false} RangeSeqEnd(start: int, stop: int, step: NonZero)
    ensures !InRange(start + |RangeSeq(start, stop, step)| * step, stop, step)
    decreases if step > 0 then stop - start else start - stop
  {
    if InRange(start, stop, step) {
      RangeSeqEnd(start + step, stop, step);
      var n := |RangeSeq(start + step, stop, step)|;
      assert |RangeSeq(start, stop, step)| == n + 1;
      MulStep(n + 1, step);
    }
  }

  /** How many positions `range(start, stop, step)` yields, in closed form. */
  function RangeCount(start: int, stop: int, step: NonZero): nat {
    var d: int := if step > 0 then step as int else -(step as int);
    var gap: int := if step > 0 then stop - start else start - stop;
    if gap > 0 then (gap + d - 1) / d else 0
  }

  /** Each position a range yields is one less position left to yield. */
  lemma {:induction false} RangeCountIsLength(start: int, stop: int, step: NonZero)
    ensures |RangeSeq(start, stop, step)| == RangeCount(start, stop, step)
    decreases if step > 0 then stop - start else start - stop
  {
    if InRange(start, stop, step) {
      RangeCountIsLength(start + step, stop, step);
      var d: int := if step > 0 then step as int else -(step as int);
      var gap: int := if step > 0 then stop - start else start - stop;
      assert RangeCount(start, stop, step) == (gap - 1 + d) / d;
      DivStep(gap - 1, d);
      if gap - d > 0 {
        assert RangeCount(start + step, stop, step) == (gap - 1) / d;
      } else {
        DivUniqueInt(gap - 1, d, 0);
      }
    }
  }

  /** The last position of a non-empty sweep, computed without building the range. */
  function RangeLast(start: int, stop: int, step: NonZero): int {
    start + (RangeCount(start, stop, step) - 1) * step
  }

  lemma RangeLastIsLast(start: int, stop: int, step: NonZero)
    requires InRange(start, stop, step)
    ensures RangeSeq(start, stop, step) != []
    ensures RangeLast(start, stop, step) == RangeSeq(start, stop, step)[|RangeSeq(start, stop, step)| - 1]
  {
    RangeCountIsLength(start, stop, step);
    RangeSeqSpec(start, stop, step);
  }

  /** The commands of a sweep over the positions `vs`. */
  function SweepSteps(s: Servo, vs: seq<int>, ms: nat): (t: seq<Step>)
    ensures |t| == 2 * |vs|
  {
    if vs == [] then [] else [Pulse(s, vs[0]), Hold(ms)] + SweepSteps(s, vs[1..], ms)
  }

  function MoveSteps(m: Move): seq<Step> {
    match m
    case SetPulse(s, us) => [Pulse(s, us)]
    case Sleep(ms) => [Hold(ms)]
    case Sweep(s, a, b, step, ms) => SweepSteps(s, RangeSeq(a, b, step), ms)
  }

  function MovesSteps(ms: seq<Move>): seq<Step> {
    if ms == [] then [] else MoveSteps(ms[0]) + MovesSteps(ms[1..])
  }

  /** `n` repetitions of the trace `t`. */
  function Repeated(t: seq<Step>, n: nat): (r: seq<Step>)
    ensures |r| == n * |t|
  {
    if n == 0 then [] else Repeated(t, n - 1) + t
  }

  /** The i-th command of `n` repetitions is command `i % |t|` of the body. */
  lemma {:induction false} RepeatedAt(t: seq<Step>, n: nat, i: int)
    requires 0 <= i < n * |t|
    ensures |t| > 0 && Repeated(t, n)[i] == t[i % |t|]
  {
    var k := |t|;
    assert k > 0;
    var r := Repeated(t, n - 1);
    assert Repeated(t, n) == r + t;
    if i < |r| {
      RepeatedAt(t, n - 1, i);
    } else {
      assert |r| == (n - 1) * k;
      DivUniqueInt(i, k, n - 1);
      assert Repeated(t, n)[i] == t[i - |r|];
    }
  }

  /** A sweep issues, for position i, the pulse to vs[i] at index 2i and its sleep at 2i + 1. */
  lemma {:induction false} SweepStepsAt(s: Servo, vs: seq<int>, ms: nat, i: int)
    requires 0 <= i < |vs|
    ensures SweepSteps(s, vs, ms)[2 * i] == Pulse(s, vs[i])
    ensures SweepSteps(s, vs, ms)[2 * i + 1] == Hold(ms)
    decreases |vs|
  {
    var rest := SweepSteps(s, vs[1..], ms);
    assert SweepSteps(s, vs, ms) == [Pulse(s, vs[0]), Hold(ms)] + rest;
    if i > 0 {
      SweepStepsAt(s, vs[1..], ms, i - 1);
      assert vs[1..][i - 1] == vs[i];
    }
  }

  function BlockSteps(b: Block): seq<Step> {
    match b
    case Do(m) => MoveSteps(m)
    case Repeat(n, body) => Repeated(MovesSteps(body), n)
  }

  /** The flat trace of commands a choreography issues. */
  function Expand(c: Choreography): seq<Step> {
    if c == [] then [] else BlockSteps(c[0]) + Expand(c[1..])
  }

  lemma {:induction false} MovesStepsSnoc(ms: seq<Move>, m: Move)
    ensures MovesSteps(ms + [m]) == MovesSteps(ms) + MoveSteps(m)
  {
    if ms == [] {
      assert [] + [m] == [m];
    } else {
      assert (ms + [m])[0] == ms[0];
      assert (ms + [m])[1..] == ms[1..] + [m];
      MovesStepsSnoc(ms[1..], m);
    }
  }

  lemma {:induction false} SweepStepsSnoc(s: Servo, vs: seq<int>, v: int, ms: nat)
    ensures SweepSteps(s, vs + [v], ms) == SweepSteps(s, vs, ms) + [Pulse(s, v), Hold(ms)]
  {
    if vs == [] {
      assert [] + [v] == [v];
    } else {
      assert (vs + [v])[1..] == vs[1..] + [v];
      SweepStepsSnoc(s, vs[1..], v, ms);
    }
  }

  lemma ExpandAt(c: Choreography, i: nat)
    requires i < |c|
    ensures Expand(c[i..]) == BlockSteps(c[i]) + Expand(c[i + 1..])
  {
    assert c[i..][0] == c[i];
    assert c[i..][1..] == c[i + 1..];
  }

  lemma {:induction false} ExpandSnoc(c: Choreography, b: Block)
    ensures Expand(c + [b]) == Expand(c) + BlockSteps(b)
  {
    if c == [] {
      assert [] + [b] == [b];
    } else {
      assert (c + [b])[0] == c[0];
      assert (c + [b])[1..] == c[1..] + [b];
      ExpandSnoc(c[1..], b);
    }
  }

  /** The pulse last commanded to each mechanism. */
  datatype Pose = Pose(lid: int, arm: int, flag: int)

  /** Where set_default_positions leaves the machine. */
  const DEFAULT_POSE: Pose := Pose(LID_CLOSED, ARM_CLOSED, FLAG_CLOSED)

  /** Lid closed, arm and flag fully closed. */
  predicate AtRest(p: Pose) {
    LidCloses(p.lid) && p.arm == ARM_CLOSED && p.flag == FLAG_CLOSED
  }

  function Next(p: Pose, st: Step): Pose {
    match st
    case Hold(_) => p
    case Pulse(Lid, us) => p.(lid := us)
    case Pulse(Arm, us) => p.(arm := us)
    case Pulse(Flag, us) => p.(flag := us)
  }

  /**
   * The rule of useless_machine.py:101 for one command: the arm moves only
   * while the lid is not commanded closed, and the lid is commanded closed
   * only while the arm is fully closed.
   */
  predicate StepSafe(p: Pose, st: Step) {
    match st
    case Hold(_) => true
    case Pulse(Lid, us) => LidCloses(us) ==> p.arm == ARM_CLOSED
    case Pulse(Arm, _) => !LidCloses(p.lid)
    case Pulse(Flag, _) => true
  }

  /** The rule forbids both orders the comment warns about, from any rest pose. */
  lemma RuleForbids(p: Pose, arm: int, lid: int)
    requires AtRest(p) && arm != ARM_CLOSED && LidCloses(lid)
    ensures !StepSafe(p, Pulse(Arm, arm))
    ensures !StepSafe(p.(lid := 1100, arm := arm), Pulse(Lid, lid))
    ensures StepSafe(p.(lid := 1100), Pulse(Arm, arm))
  {
  }

  /** Every command of `t`, issued from pose `p`, keeps the rule. */
  predicate SafeFrom(p: Pose, t: seq<Step>)
    decreases t
  {
    t == [] || (StepSafe(p, t[0]) && SafeFrom(Next(p, t[0]), t[1..]))
  }

  /** The pose after issuing `t` from `p`. */
  function Final(p: Pose, t: seq<Step>): Pose
    decreases t
  {
    if t == [] then p else Final(Next(p, t[0]), t[1..])
  }

  lemma {:induction false} TraceAppend(p: Pose, a: seq<Step>, b: seq<Step>)
    ensures SafeFrom(p, a + b) == (SafeFrom(p, a) && SafeFrom(Final(p, a), b))
    ensures Final(p, a + b) == Final(Final(p, a), b)
    decreases a
  {
    if a == [] {
      assert a + b == b;
    } else {
      assert (a + b)[0] == a[0];
      assert (a + b)[1..] == a[1..] + b;
      TraceAppend(Next(p, a[0]), a[1..], b);
    }
  }

  // ---- The validator: the rule decided on the structure of a choreography ----

  /**
   * Accepts a sweep whose every command is safe. A sweep moves one mechanism
   * only, so the others keep the pose they had; a lid sweep is accepted only
   * with the arm closed, whether or not it reaches a closing pulse.
   */
  predicate SweepSafe(p: Pose, s: Servo) {
    match s
    case Lid => p.arm == ARM_CLOSED
    case Arm => !LidCloses(p.lid)
    case Flag => true
  }

  predicate MoveSafe(p: Pose, m: Move) {
    match m
    case SetPulse(s, us) => StepSafe(p, Pulse(s, us))
    case Sleep(_) => true
    case Sweep(s, a, b, step, _) => InRange(a, b, step) ==> SweepSafe(p, s)
  }

  function MoveFinal(p: Pose, m: Move): Pose {
    match m
    case SetPulse(s, us) => Next(p, Pulse(s, us))
    case Sleep(_) => p
    case Sweep(s, a, b, step, _) =>
      if InRange(a, b, step) then Next(p, Pulse(s, RangeLast(a, b, step))) else p
  }

  predicate MovesSafe(p: Pose, ms: seq<Move>)
    decreases ms
  {
    ms == [] || (MoveSafe(p, ms[0]) && MovesSafe(MoveFinal(p, ms[0]), ms[1..]))
  }

  function MovesFinal(p: Pose, ms: seq<Move>): Pose
    decreases ms
  {
    if ms == [] then p else MovesFinal(MoveFinal(p, ms[0]), ms[1..])
  }

  /**
   * A repeat is accepted when its body is safe from the pose it starts in and,
   * if it runs again, safe from and settled at the pose one pass leaves.
   */
  predicate BlockSafe(p: Pose, b: Block) {
    match b
    case Do(m) => MoveSafe(p, m)
    case Repeat(n, body) =>
      var q := MovesFinal(p, body);
      n == 0 || (MovesSafe(p, body) && (n == 1 || (MovesSafe(q, body) && MovesFinal(q, body) == q)))
  }

  function BlockFinal(p: Pose, b: Block): Pose {
    match b
    case Do(m) => MoveFinal(p, m)
    case Repeat(n, body) => if n == 0 then p else MovesFinal(p, body)
  }

  /** The validator: accepts the blocks of `c` from index `i` on, started from `p`. */
  predicate Check(p: Pose, c: Choreography, i: nat)
    requires i <= |c|
    decreases |c| - i
  {
    i == |c| || (BlockSafe(p, c[i]) && Check(BlockFinal(p, c[i]), c, i + 1))
  }

  /** The pose the validator predicts after the blocks of `c` from index `i` on. */
  function CheckFinal(p: Pose, c: Choreography, i: nat): Pose
    requires i <= |c|
    decreases |c| - i
  {
    if i == |c| then p else CheckFinal(BlockFinal(p, c[i]), c, i + 1)
  }

  // ---- Soundness of the validator ----

  lemma {:induction false} SweepSound(p: Pose, s: Servo, vs: seq<int>, ms: nat)
    requires vs != [] && SweepSafe(p, s)
    ensures SafeFrom(p, SweepSteps(s, vs, ms))
    ensures Final(p, SweepSteps(s, vs, ms)) == Next(p, Pulse(s, vs[|vs| - 1]))
    decreases vs
  {
    var q := Next(p, Pulse(s, vs[0]));
    var head := [Pulse(s, vs[0]), Hold(ms)];
    assert SweepSteps(s, vs, ms) == head + SweepSteps(s, vs[1..], ms);
    assert SafeFrom(p, head) && Final(p, head) == q by {
      assert head == [Pulse(s, vs[0])] + [Hold(ms)];
      OneStep(p, Pulse(s, vs[0]));
      OneStep(q, Hold(ms));
      TraceAppend(p, [Pulse(s, vs[0])], [Hold(ms)]);
    }
    TraceAppend(p, head, SweepSteps(s, vs[1..], ms));
    if |vs| > 1 {
      SweepSound(q, s, vs[1..], ms);
    } else {
      assert vs[1..] == [];
    }
  }

  lemma OneStep(p: Pose, st: Step)
    ensures SafeFrom(p, [st]) == StepSafe(p, st)
    ensures Final(p, [st]) == Next(p, st)
  {
    assert [st][1..] == [];
  }

  lemma MoveSound(p: Pose, m: Move)
    requires MoveSafe(p, m)
    ensures SafeFrom(p, MoveSteps(m)) && Final(p, MoveSteps(m)) == MoveFinal(p, m)
  {
    match m
    case SetPulse(s, us) => OneStep(p, Pulse(s, us));
    case Sleep(ms) => OneStep(p, Hold(ms));
    case Sweep(s, a, b, step, ms) =>
      if InRange(a, b, step) {
        var vs := RangeSeq(a, b, step);
        RangeLastIsLast(a, b, step);
        SweepSound(p, s, vs, ms);
      }
  }

  lemma {:induction false} MovesSound(p: Pose, ms: seq<Move>)
    requires MovesSafe(p, ms)
    ensures SafeFrom(p, MovesSteps(ms)) && Final(p, MovesSteps(ms)) == MovesFinal(p, ms)
    decreases ms
  {
    if ms != [] {
      MoveSound(p, ms[0]);
      MovesSound(MoveFinal(p, ms[0]), ms[1..]);
      TraceAppend(p, MoveSteps(ms[0]), MovesSteps(ms[1..]));
    }
  }

  lemma {:induction false} RepeatSound(p: Pose, q: Pose, t: seq<Step>, n: nat)
    requires n >= 1
    requires SafeFrom(p, t) && Final(p, t) == q
    requires n >= 2 ==> SafeFrom(q, t) && Final(q, t) == q
    ensures SafeFrom(p, Repeated(t, n)) && Final(p, Repeated(t, n)) == q
  {
    if n == 1 {
      assert Repeated(t, 1) == [] + t;
      assert [] + t == t;
    } else {
      RepeatSound(p, q, t, n - 1);
      TraceAppend(p, Repeated(t, n - 1), t);
    }
  }

  lemma BlockSound(p: Pose, b: Block)
    requires BlockSafe(p, b)
    ensures SafeFrom(p, BlockSteps(b)) && Final(p, BlockSteps(b)) == BlockFinal(p, b)
  {
    match b
    case Do(m) => MoveSound(p, m);
    case Repeat(n, body) =>
      if n > 0 {
        var q := MovesFinal(p, body);
        MovesSound(p, body);
        if n >= 2 {
          MovesSound(q, body);
        }
        RepeatSound(p, q, MovesSteps(body), n);
      }
  }

  /** Whatever the validator accepts keeps the rule, and ends where it predicts. */
  lemma {:induction false} Sound(p: Pose, c: Choreography, i: nat)
    requires i <= |c| && Check(p, c, i)
    ensures SafeFrom(p, Expand(c[i..]))
    ensures Final(p, Expand(c[i..])) == CheckFinal(p, c, i)
    decreases |c| - i
  {
    if i < |c| {
      assert c[i..][0] == c[i];
      assert c[i..][1..] == c[i + 1..];
      BlockSound(p, c[i]);
      Sound(BlockFinal(p, c[i]), c, i + 1);
      TraceAppend(p, BlockSteps(c[i]), Expand(c[i + 1..]));
    } else {
      assert c[i..] == [];
    }
  }
}
