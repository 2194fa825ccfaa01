/** The feedback path from the virtual bus back to the controller: motor
    intensities capped by the configured maximum, LED change detection, the
    fixed layouts of the LED and rumble output reports with their 4-bit
    sequence numbers, zero padding to the device's output report length,
    and the classification of I/O errors. */
module Feedback {
  import opened Primitives

  // Command bytes of the output reports.
  const CMD_LED := 0x01
  const CMD_RUMBLE := 0x10

  // Frequency bytes of the two rumble reports.
  const BAND_LARGE := 0x08
  const BAND_SMALL := 0x10

  /** A motor intensity scaled by the configured maximum: unchanged when the
      maximum is 255, otherwise `m * max / 255` in integer arithmetic, which
      never exceeds the maximum or the original intensity. */
  function ScaleMotor(m: Byte, max: Byte): (r: Byte)
    ensures max == 255 ==> r == m
    ensures r <= max && r <= m
    ensures max != 255 ==> r * 255 <= m * max < (r + 1) * 255
  {
    if max != 255 then
      MulMonotonic(m, 255, max);
      MulMonotonic(max, 255, m);
      m * max / 255
    else m
  }

  /** Scaling preserves the order of intensities. */
  lemma {:induction false} ScaleMotorMonotonic(m1: Byte, m2: Byte, max: Byte)
    requires m1 <= m2
    ensures ScaleMotor(m1, max) <= ScaleMotor(m2, max)
  {
    if max != 255 {
      MulMonotonic(m1, m2, max);
      var p1, p2 := m1 * max, m2 * max;
      assert ScaleMotor(m1, max) == p1 / 255 && ScaleMotor(m2, max) == p2 / 255;
    }
  }

  lemma {:induction false} MulMonotonic(a: nat, b: nat, k: nat)
    requires a <= b
    ensures a * k <= b * k
    decreases k
  {
    if k > 0 {
      MulMonotonic(a, b, k - 1);
    }
  }

  /** The LED state after the bus reports LED index `d`: the stored value
      becomes `d + 1` truncated to a byte, and a change is flagged when the
      stored byte differs from the (untruncated) `d + 1`. */
  datatype LedState = LedState(led: Byte, changed: bool)

  function UpdateLed(led: Byte, d: Byte): LedState
  {
    if led != d + 1 then LedState(ToByte(d + 1), true) else LedState(led, false)
  }

  /** For a bus value below 255 a change is flagged exactly when the stored
      LED differs from d + 1, the stored LED becomes d + 1, and a second
      report of the same value flags nothing. */
  lemma UpdateLedDetectsChange(led: Byte, d: Byte)
    requires d < 255
    ensures UpdateLed(led, d).changed <==> led != d + 1
    ensures UpdateLed(led, d).led == d + 1
    ensures !UpdateLed(UpdateLed(led, d).led, d).changed
  {
  }

  /** Bus value 255 stores LED 0, which never equals 256: a change is
      flagged on every tick that reports it. */
  lemma UpdateLedAt255(led: Byte)
    ensures UpdateLed(led, 255) == LedState(0, true)
    ensures UpdateLed(UpdateLed(led, 255).led, 255).changed
  {
  }

  /** `static_cast<unsigned char>(1 << (led - 1))` for the LEDs the shift
      is defined for (1..32): 2^(led - 1) truncated to a byte, which is the
      single bit of LED `led` for 1..8, and 0 once the bit falls outside
      the byte. */
  function LedMask(led: Byte): (m: Byte)
    ensures 1 <= led <= 8 ==> m == Pow2(led - 1)
    ensures 9 <= led ==> m == 0
  {
    if 1 <= led <= 8 then
      Pow2BelowByte(led - 1);
      ToByte(Pow2(led - 1))
    else if 9 <= led <= 32 then
      Pow2AboveByte(led - 1);
      ToByte(Pow2(led - 1))
    else 0
  }

  lemma Pow2BelowByte(k: nat)
    requires k < 8
    ensures Pow2(k) < 0x100
  {
    Pow2Increasing(k, 8);
    assert Pow2(8) == 0x100;
  }

  lemma {:induction false} Pow2AboveByte(k: nat)
    requires 8 <= k
    ensures Pow2(k) % 0x100 == 0
    decreases k
  {
    if k == 8 {
      assert Pow2(8) == 0x100;
    } else {
      Pow2AboveByte(k - 1);
      var q := Pow2(k - 1) / 0x100;
      assert Pow2(k) == 0x100 * (2 * q);
    }
  }

  /** Distinct LEDs 1..8 light distinct single bits. */
  lemma LedMasksDistinct(i: Byte, j: Byte)
    requires 1 <= i < j <= 8
    ensures LedMask(i) != LedMask(j) && LedMask(i) != 0 && LedMask(j) != 0
  {
    Pow2Increasing(i - 1, j - 1);
  }

  lemma {:induction false} Pow2Increasing(a: nat, b: nat)
    requires a < b
    ensures Pow2(a) < Pow2(b)
    decreases b
  {
    if a < b - 1 {
      Pow2Increasing(a, b - 1);
    }
  }

  /** The LED report with sequence counter `counter`. */
  function LedReport(counter: Byte, led: Byte): seq<Byte>
  {
    [CMD_LED, counter % 16, 0x00, 0x01, 0x40, 0x40, 0x00, 0x01, 0x40, 0x40, 0x30, LedMask(led)]
  }

  /** The report sent once at start-up, before any LED is known. */
  const InitialLedReport: seq<Byte> :=
    [0x01, 0x00, 0x00, 0x01, 0x40, 0x40, 0x00, 0x01, 0x40, 0x40, 0x30, 0x01]

  /** The start-up report is the LED report for LED 1 with sequence 0. */
  lemma InitialLedReportIsLedOne()
    ensures InitialLedReport == LedReport(0, 1)
  {
  }

  /** A rumble report: the frequency byte and motor intensity written into
      both of the report's motor slots (bytes 2-3 and 6-7). */
  function RumbleReport(counter: Byte, band: Byte, motor: Byte): seq<Byte>
  {
    [CMD_RUMBLE, counter % 16, band, motor, 0x40, 0x40, band, motor, 0x40, 0x40]
  }

  /** The reports one feedback update emits, in order, from counter value
      `counter`: the LED report when the LED changed, then the large- and
      small-motor rumble reports when vibration is on, each taking the next
      value of the counter. */
  function FeedbackReports(counter: Byte, ledChanged: bool, led: Byte,
                           vibrate: bool, large: Byte, small: Byte): seq<seq<Byte>>
  {
    var leds := if ledChanged then [LedReport(counter, led)] else [];
    var c := ToByte(counter + |leds|);
    leds + (if vibrate then [RumbleReport(c, BAND_LARGE, large), RumbleReport(ToByte(c + 1), BAND_SMALL, small)] else [])
  }

  /** One report per LED change and two per vibration update; the i-th
      report carries counter + i modulo 16 as its sequence byte; the LED
      report lights the new LED's bit, and the rumble reports carry the
      large motor's then the small motor's band and intensity. */
  lemma FeedbackReportsLayout(counter: Byte, ledChanged: bool, led: Byte,
                              vibrate: bool, large: Byte, small: Byte)
    ensures var rs := FeedbackReports(counter, ledChanged, led, vibrate, large, small);
      |rs| == (if ledChanged then 1 else 0) + (if vibrate then 2 else 0) &&
      (forall i :: 0 <= i < |rs| ==> |rs[i]| >= 10 && rs[i][1] == (counter + i) % 16) &&
      (ledChanged ==> |rs[0]| == 12 && rs[0][0] == CMD_LED && rs[0][11] == LedMask(led)) &&
      (vibrate ==>
        var k := |rs| - 2;
        |rs[k]| == 10 && rs[k][0] == CMD_RUMBLE && rs[k][2] == rs[k][6] == BAND_LARGE
          && rs[k][3] == rs[k][7] == large &&
        |rs[k + 1]| == 10 && rs[k + 1][0] == CMD_RUMBLE && rs[k + 1][2] == rs[k + 1][6] == BAND_SMALL
          && rs[k + 1][3] == rs[k + 1][7] == small)
  {
  }

  /** The `uint8_t` counter after the reports of one update. */
  function CounterAfter(counter: Byte, ledChanged: bool, vibrate: bool): (c: Byte)
    ensures (c - counter) % 256 == (if ledChanged then 1 else 0) + (if vibrate then 2 else 0)
  {
    ToByte(counter + (if ledChanged then 1 else 0) + (if vibrate then 2 else 0))
  }

  /** The buffer actually written for `data`. */
  function Pad(data: seq<Byte>, size: UInt16): seq<Byte>
  {
    if |data| < size then data + seq(size - |data|, _ => 0) else data
  }

  /** The written buffer is `data` zero-padded on the right to the output
      report length, or `data` itself when it is already that long. */
  lemma PadLayout(data: seq<Byte>, size: UInt16)
    ensures var buf := Pad(data, size);
      |buf| == (if |data| < size then size else |data|) &&
      buf[..|data|] == data &&
      (forall i :: |data| <= i < |buf| ==> buf[i] == 0) &&
      (|data| >= size ==> buf == data)
  {
  }

  /** Every report of a list padded. */
  function PadAll(rs: seq<seq<Byte>>, size: UInt16): seq<seq<Byte>>
  {
    seq(|rs|, i requires 0 <= i < |rs| => Pad(rs[i], size))
  }

  // Win32 error codes.
  const ERROR_OPERATION_ABORTED := 995
  const ERROR_DEVICE_NOT_CONNECTED := 1167

  /** Whether an I/O error ends the session: everything except an unplugged
      device or a cancelled operation. */
  function CheckIoError(err: UInt32): (fatal: bool)
    ensures !fatal <==> err == ERROR_DEVICE_NOT_CONNECTED || err == ERROR_OPERATION_ABORTED
  {
    match err
    case 1167 => false
    case 995 => false
    case _ => true
  }
}
