/**
 * The PCA9685 16-channel PWM expander driver of useless_machine.py
 * (class PCA9685). The I2C bus is modelled as the append-only log of the
 * `(register, value)` writes the driver issues; values are the Python
 * integers handed to the bus, before any truncation the bus library might do.
 */
module Driver {

  import opened Wrappers
  import opened Arith

  // Register map (useless_machine.py:11-16).
  const MODE1: int := 0x00
  const PRESCALE: int := 0xFE
  const LED0_ON_L: int := 0x06
  const LED0_ON_H: int := 0x07
  const LED0_OFF_L: int := 0x08
  const LED0_OFF_H: int := 0x09

  // MODE1 bits touched by setPWMFreq (NXP PCA9685 datasheet, section 7.3.1).
  const SLEEP: int := 0x10
  const RESTART: int := 0x80

  /** What a register read returns. */
  type Byte = x: int | 0 <= x < 256

  /** The oscillator frequency the driver assumes, in Hz. */
  const OSCILLATOR_HZ: int := 24500000

  /** Microsecond length of one PWM period at 50 Hz. */
  const PERIOD_US: int := 20000

  datatype BusWrite = BusWrite(reg: int, value: int)

  /** `v & 0xFF` on a Python integer (two's complement, so never negative). */
  function LowByte(v: int): (r: int)
    ensures 0 <= r < 256
    ensures (v - r) % 256 == 0
  {
    v % 256
  }

  /** `v >> 8` on a Python integer (an arithmetic shift, i.e. floor division). */
  function HighByte(v: int): (r: int)
    ensures LowByte(v) + 256 * r == v
    ensures 0 <= r < 256 <==> 0 <= v < 65536
  {
    v / 256
  }

  /**
   * `int(pulse * 4096 / 20000)`: the 12-bit tick count of a pulse given in
   * microseconds at 50 Hz. `int` truncates towards zero.
   */
  function ServoTicks(pulse: int): (t: int)
    ensures pulse >= 0 ==> PERIOD_US * t <= 4096 * pulse < PERIOD_US * (t + 1)
    ensures pulse < 0 ==> PERIOD_US * (-t) <= 4096 * (-pulse) < PERIOD_US * (-t + 1)
    ensures 0 <= pulse < PERIOD_US ==> 0 <= t < 4096
  {
    if pulse >= 0 then pulse * 4096 / PERIOD_US else -((-pulse) * 4096 / PERIOD_US)
  }

  lemma ServoTicksMonotone(p: int, q: int)
    requires p <= q
    ensures ServoTicks(p) <= ServoTicks(q)
  {
    if p < 0 && 0 <= q {
      assert ServoTicks(p) <= 0 <= ServoTicks(q);
    }
  }

  /** The pulse widths the machine uses, converted as the source converts them. */
  lemma ServoTickValues()
    ensures ServoTicks(1100) == 225 && ServoTicks(1700) == 348
    ensures ServoTicks(2400) == 491 && ServoTicks(2450) == 501
  {
  }

  /** Division rounding towards minus infinity, for either sign of divisor. */
  function FloorDiv(a: int, b: int): (q: int)
    requires b != 0
    ensures b > 0 ==> b * q <= a < b * (q + 1)
    ensures b < 0 ==> b * q >= a > b * (q + 1)
  {
    if b > 0 then a / b else (-a) / (-b)
  }

  /**
   * The prescale for an oscillator of `osc` Hz and a PWM frequency of `freq`
   * Hz: floor(osc / 4096 / freq - 1 + 0.5), computed exactly as
   * floor((2 * osc - 4096 * freq) / (8192 * freq)).
   */
  function PrescaleFor(osc: int, freq: int): (p: int)
    requires freq != 0
    ensures (p as real) <= (osc as real) / 4096.0 / (freq as real) - 1.0 + 0.5 < (p as real) + 1.0
  {
    var n := 2 * osc - 4096 * freq;
    var d := 8192 * freq;
    var q := FloorDiv(n, d);
    RoundedQuotient(osc, freq, n, d, q);
    q
  }

  lemma RoundedQuotient(osc: int, freq: int, n: int, d: int, q: int)
    requires freq != 0 && n == 2 * osc - 4096 * freq && d == 8192 * freq
    requires d > 0 ==> d * q <= n < d * (q + 1)
    requires d < 0 ==> d * q >= n > d * (q + 1)
    ensures (q as real) <= (osc as real) / 4096.0 / (freq as real) - 1.0 + 0.5 < (q as real) + 1.0
  {
    QuotientAsReal(osc, freq, n, d);
    FloorOfQuotient(n as real, d as real, q as real);
  }

  lemma QuotientAsReal(osc: int, freq: int, n: int, d: int)
    requires freq != 0 && n == 2 * osc - 4096 * freq && d == 8192 * freq
    ensures (osc as real) / 4096.0 / (freq as real) - 1.0 + 0.5 == (n as real) / (d as real)
  {
    var f, o := freq as real, osc as real;
    var z := o / 4096.0 / f;
    DivDiv(o, 4096.0, f);
    assert o == z * (4096.0 * f);
    assert n as real == (z - 0.5) * (8192.0 * f);
    DivUnique(n as real, d as real, z - 0.5);
  }

  lemma DivDiv(a: real, b: real, c: real)
    requires b != 0.0 && c != 0.0
    ensures a / b / c * (b * c) == a
  {
    var x := a / b;
    var y := x / c;
    assert a == x * b;
    assert x == y * c;
  }

  lemma DivUnique(a: real, b: real, w: real)
    requires b != 0.0 && a == w * b
    ensures a / b == w
  {
  }

  lemma FloorOfQuotient(n: real, d: real, q: real)
    requires d > 0.0 ==> d * q <= n < d * (q + 1.0)
    requires d < 0.0 ==> d * q >= n > d * (q + 1.0)
    requires d != 0.0
    ensures q <= n / d < q + 1.0
  {
    var y := n / d;
    assert n == y * d;
    assert (y - q) * d == n - d * q;
    assert (q + 1.0 - y) * d == d * (q + 1.0) - n;
    PositiveFactor(q + 1.0 - y, d);
  }

  lemma PositiveFactor(a: real, b: real)
    requires (b > 0.0 && a * b > 0.0) || (b < 0.0 && a * b < 0.0)
    ensures a > 0.0
  {
  }

  /** The prescale setPWMFreq computes (useless_machine.py:45-52). */
  function Prescale(freq: int): (p: int)
    requires freq != 0
    ensures (p as real) <= (OSCILLATOR_HZ as real) / 4096.0 / (freq as real) - 1.0 + 0.5 < (p as real) + 1.0
  {
    PrescaleFor(OSCILLATOR_HZ, freq)
  }

  /**
   * At 50 Hz the driver programs 119. The figure 121 belongs to a 25 MHz
   * oscillator, the value the source's comment names but does not use.
   */
  lemma PrescaleAt50Hz()
    ensures Prescale(50) == 119
    ensures PrescaleFor(25000000, 50) == 121
  {
  }

  /** The datasheet accepts prescale values 3..255; these are the frequencies that give one. */
  lemma PrescaleInDeviceRange(freq: int)
    requires 24 <= freq <= 1708
    ensures 3 <= Prescale(freq) <= 255
  {
    var p := Prescale(freq);
    var n := 2 * OSCILLATOR_HZ - 4096 * freq;
    var d := 8192 * freq;
    assert d * p <= n < d * (p + 1);
  }

  /** Whether the single bit `bit` (a power of two) is set in `v`, as Python's `v & bit != 0`. */
  predicate HasBit(v: int, bit: int)
    requires bit > 0
  {
    (v / bit) % 2 == 1
  }

  predicate IsAsleep(v: int) {
    HasBit(v, SLEEP)
  }

  /** `v | bit` on a Python integer, for a single bit `bit`. */
  function OrBit(v: int, bit: int): int
    requires bit > 0
  {
    if HasBit(v, bit) then v else v + bit
  }

  /**
   * `(oldmode & 0x7F) | 0x10`: SLEEP (bit 4) set, RESTART (bit 7) cleared,
   * bits 0-3 and 5-6 kept.
   */
  function SleepMode(oldmode: Byte): (m: Byte)
    ensures HasBit(m, SLEEP) && !HasBit(m, RESTART)
    ensures m % 16 == oldmode % 16 && (m / 32) % 4 == (oldmode / 32) % 4
  {
    SleepBits(oldmode);
    OrBit(oldmode % 128, SLEEP)
  }

  /** The bit fields of `(x & 0x7F) | 0x10`, with x split as 128a + 32b + 16c + r. */
  lemma SleepBits(x: Byte)
    ensures 0 <= OrBit(x % 128, SLEEP) < 256
    ensures HasBit(OrBit(x % 128, SLEEP), SLEEP) && !HasBit(OrBit(x % 128, SLEEP), RESTART)
    ensures OrBit(x % 128, SLEEP) % 16 == x % 16
    ensures (OrBit(x % 128, SLEEP) / 32) % 4 == (x / 32) % 4
  {
    var q16, r := x / 16, x % 16;
    var q32, c := q16 / 2, q16 % 2;
    var a, b := q32 / 4, q32 % 4;
    DivUniqueInt(x, 32, q32);
    DivUniqueInt(x, 128, a);
    var v := x % 128;
    assert v == 32 * b + 16 * c + r;
    DivUniqueInt(v, 16, 2 * b + c);
    DivUniqueInt(2 * b + c, 2, b);
    var m := 32 * b + 16 + r;
    assert OrBit(v, SLEEP) == m;
    DivUniqueInt(m, 16, 2 * b + 1);
    DivUniqueInt(2 * b + 1, 2, b);
    DivUniqueInt(m, 128, 0);
    DivUniqueInt(m, 32, b);
    DivUniqueInt(b, 4, 0);
  }

  /** `oldmode | 0x80`: RESTART (bit 7) set, bits 0-6 kept. */
  function RestartMode(oldmode: Byte): (m: Byte)
    ensures HasBit(m, RESTART)
    ensures m % 128 == oldmode % 128
  {
    OrBit(oldmode, RESTART)
  }

  /** The four writes of setPWM(channel, on, off), in the order they are issued. */
  function PwmWrites(channel: int, on: int, off: int): seq<BusWrite> {
    [ BusWrite(LED0_ON_L + 4 * channel, LowByte(on)),
      BusWrite(LED0_ON_H + 4 * channel, HighByte(on)),
      BusWrite(LED0_OFF_L + 4 * channel, LowByte(off)),
      BusWrite(LED0_OFF_H + 4 * channel, HighByte(off)) ]
  }

  /** The writes of setServoPulse(channel, pulse). */
  function ServoWrites(channel: int, pulse: int): seq<BusWrite> {
    PwmWrites(channel, 0, ServoTicks(pulse))
  }

  /**
   * The writes of setPWMFreq once it has computed `prescale` and read back
   * `oldmode` from MODE1.
   */
  function FreqWrites(prescale: int, oldmode: Byte): seq<BusWrite> {
    [ BusWrite(MODE1, SleepMode(oldmode)),
      BusWrite(PRESCALE, prescale),
      BusWrite(MODE1, oldmode),
      BusWrite(MODE1, RestartMode(oldmode)) ]
  }

  /**
   * Reads back the channel and the ON and OFF counts from four channel-register
   * writes, or None when they are not the four registers of one channel in order.
   */
  function DecodePwm(ws: seq<BusWrite>): Option<(int, int, int)> {
    if |ws| == 4 && (ws[0].reg - LED0_ON_L) % 4 == 0 then
      var c := (ws[0].reg - LED0_ON_L) / 4;
      if ws[1].reg == LED0_ON_H + 4 * c && ws[2].reg == LED0_OFF_L + 4 * c && ws[3].reg == LED0_OFF_H + 4 * c
         && 0 <= ws[0].value < 256 && 0 <= ws[2].value < 256
      then Some((c, ws[0].value + 256 * ws[1].value, ws[2].value + 256 * ws[3].value))
      else None
    else None
  }

  /** setPWM loses nothing: the channel and both counts can be read back from its writes. */
  lemma PwmWritesDecode(channel: int, on: int, off: int)
    ensures DecodePwm(PwmWrites(channel, on, off)) == Some((channel, on, off))
  {
    var ws := PwmWrites(channel, on, off);
    assert ws[0].reg - LED0_ON_L == 4 * channel;
  }

  /** For 16-bit counts every value setPWM sends is a byte. */
  lemma PwmWritesAreBytes(channel: int, on: int, off: int)
    requires 0 <= on < 65536 && 0 <= off < 65536
    ensures forall w | w in PwmWrites(channel, on, off) :: 0 <= w.value < 256
  {
  }

  /** A servo pulse below one period programs ON = 0 and a 12-bit OFF count. */
  lemma ServoWritesDecode(channel: int, pulse: int)
    requires 0 <= pulse < PERIOD_US
    ensures DecodePwm(ServoWrites(channel, pulse)) == Some((channel, 0, ServoTicks(pulse)))
    ensures forall w | w in ServoWrites(channel, pulse) :: 0 <= w.value < 256
    ensures 0 <= ServoTicks(pulse) < 4096
  {
    PwmWritesDecode(channel, 0, ServoTicks(pulse));
    PwmWritesAreBytes(channel, 0, ServoTicks(pulse));
  }

  /**
   * True when every PRESCALE write in `log` happens while the last value
   * written to MODE1 has SLEEP set (NXP PCA9685 datasheet, section 7.3.5:
   * PRE_SCALE can only be set while the device sleeps). `mode` is the last
   * MODE1 value written before `log`, None when unknown.
   */
  predicate PrescaleWrittenAsleep(log: seq<BusWrite>, mode: Option<int>)
    decreases |log|
  {
    log == [] ||
    ((log[0].reg == PRESCALE ==> mode.Some? && IsAsleep(mode.value)) &&
     PrescaleWrittenAsleep(log[1..], if log[0].reg == MODE1 then Some(log[0].value) else mode))
  }

  /** The last value written to MODE1 in `log`, `mode` if there is none. */
  function LastMode1(log: seq<BusWrite>, mode: Option<int>): Option<int>
    decreases |log|
  {
    if log == [] then mode
    else LastMode1(log[1..], if log[0].reg == MODE1 then Some(log[0].value) else mode)
  }

  lemma {:induction false} PrescaleWrittenAsleepAppend(a: seq<BusWrite>, b: seq<BusWrite>, mode: Option<int>)
    ensures PrescaleWrittenAsleep(a + b, mode) ==
            (PrescaleWrittenAsleep(a, mode) && PrescaleWrittenAsleep(b, LastMode1(a, mode)))
    ensures LastMode1(a + b, mode) == LastMode1(b, LastMode1(a, mode))
    decreases |a|
  {
    if a == [] {
      assert a + b == b;
    } else {
      assert (a + b)[0] == a[0];
      assert (a + b)[1..] == a[1..] + b;
      PrescaleWrittenAsleepAppend(a[1..], b, if a[0].reg == MODE1 then Some(a[0].value) else mode);
    }
  }

  /** Writes that touch neither MODE1 nor PRESCALE leave both facts as they were. */
  lemma {:induction false} OtherRegistersKeepMode(log: seq<BusWrite>, mode: Option<int>)
    requires forall w | w in log :: w.reg != MODE1 && w.reg != PRESCALE
    ensures PrescaleWrittenAsleep(log, mode)
    ensures LastMode1(log, mode) == mode
    decreases |log|
  {
    if log != [] {
      assert log[0] in log;
      assert forall w | w in log[1..] :: w in log;
      OtherRegistersKeepMode(log[1..], mode);
    }
  }

  /** The writes of a servo pulse on a channel 0..15 stay inside that channel's registers. */
  lemma ServoWritesRegisters(channel: int, pulse: int)
    requires 0 <= channel < 16
    ensures forall w | w in ServoWrites(channel, pulse) ::
              LED0_ON_L + 4 * channel <= w.reg <= LED0_OFF_H + 4 * channel
    ensures forall w | w in ServoWrites(channel, pulse) :: w.reg != MODE1 && w.reg != PRESCALE
  {
  }

  /**
   * setPWMFreq programs PRESCALE only while the device sleeps, whatever was
   * written before, and leaves MODE1 at the old mode with RESTART set.
   */
  lemma FreqWritesProtocol(prescale: int, oldmode: Byte, mode: Option<int>)
    ensures PrescaleWrittenAsleep(FreqWrites(prescale, oldmode), mode)
    ensures LastMode1(FreqWrites(prescale, oldmode), mode) == Some(RestartMode(oldmode))
  {
    SleepWriteWake(BusWrite(MODE1, SleepMode(oldmode)), BusWrite(PRESCALE, prescale),
                   BusWrite(MODE1, oldmode), BusWrite(MODE1, RestartMode(oldmode)), mode);
  }

  /** MODE1 asleep, PRESCALE, MODE1, MODE1: the shape of setPWMFreq's writes. */
  lemma SleepWriteWake(a: BusWrite, b: BusWrite, c: BusWrite, d: BusWrite, mode: Option<int>)
    requires a.reg == MODE1 && IsAsleep(a.value) && b.reg == PRESCALE && c.reg == MODE1 && d.reg == MODE1
    ensures PrescaleWrittenAsleep([a, b, c, d], mode)
    ensures LastMode1([a, b, c, d], mode) == Some(d.value)
  {
    OneWrite(a, mode);
    OneWrite(b, Some(a.value));
    OneWrite(c, Some(a.value));
    OneWrite(d, Some(c.value));
    assert [a, b, c, d] == [a] + [b] + [c] + [d];
    PrescaleWrittenAsleepAppend([a], [b], mode);
    PrescaleWrittenAsleepAppend([a] + [b], [c], mode);
    PrescaleWrittenAsleepAppend([a] + [b] + [c], [d], mode);
  }

  lemma OneWrite(w: BusWrite, mode: Option<int>)
    ensures PrescaleWrittenAsleep([w], mode) == (w.reg == PRESCALE ==> mode.Some? && IsAsleep(mode.value))
    ensures LastMode1([w], mode) == if w.reg == MODE1 then Some(w.value) else mode
  {
    assert [w][1..] == [];
  }

  /** The driver object: its I2C address and the log of writes it has issued. */
  class Pca9685 {
    const address: int
    var log: seq<BusWrite>

    /** `PCA9685(address)`: resets MODE1 to 0x00 (useless_machine.py:22-28). */
    constructor (address: int)
      ensures this.address == address
      ensures log == [BusWrite(MODE1, 0x00)]
    {
      this.address := address;
      log := [];
      new;
      Write(MODE1, 0x00);
    }

    /** `write(reg, value)`: one byte write to the device. */
    method Write(reg: int, value: int)
      modifies this
      ensures log == old(log) + [BusWrite(reg, value)]
    {
      log := log + [BusWrite(reg, value)];
    }

    /**
     * `setPWMFreq(freq)`, with `oldmode` the value read back from MODE1.
     * Python raises ZeroDivisionError for freq == 0 before touching the bus.
     */
    method SetPwmFreq(freq: int, oldmode: Byte) returns (ok: bool)
      modifies this
      ensures ok <==> freq != 0
      ensures ok ==> log == old(log) + FreqWrites(Prescale(freq), oldmode)
      ensures !ok ==> log == old(log)
    {
      if freq == 0 {
        return false;
      }
      var prescale := Prescale(freq);
      var newmode := SleepMode(oldmode);
      Write(MODE1, newmode);
      Write(PRESCALE, prescale);
      Write(MODE1, oldmode);
      Write(MODE1, RestartMode(oldmode));
      ok := true;
    }

    /** `setPWM(channel, on, off)`: ON low/high, then OFF low/high. */
    method SetPwm(channel: int, on: int, off: int)
      modifies this
      ensures log == old(log) + PwmWrites(channel, on, off)
    {
      Write(LED0_ON_L + 4 * channel, LowByte(on));
      Write(LED0_ON_H + 4 * channel, HighByte(on));
      Write(LED0_OFF_L + 4 * channel, LowByte(off));
      Write(LED0_OFF_H + 4 * channel, HighByte(off));
    }

    /** `setServoPulse(channel, pulse)`: the pulse in microseconds as a 50 Hz tick count. */
    method SetServoPulse(channel: int, pulse: int)
      modifies this
      ensures log == old(log) + ServoWrites(channel, pulse)
    {
      SetPwm(channel, 0, ServoTicks(pulse));
    }
  }
}
