/** The polling session: the converter's state across ticks (the
    controller's feedback fields and sequence counter, the capture
    accumulator and the last gamepad state) and the per-tick cycle that
    translates a joystick sample, hands the gamepad state to the virtual
    bus, applies the feedback the bus asks for and writes the output
    reports. The virtual bus, `SendInput` and `WriteFile` are sinks: the
    session appends what it passes to each of them to a log. */
module Polling {
  import opened Primitives
  import Controls
  import opened Translator
  import opened Capture
  import opened Feedback

  /** The device match of discovery: the Pro Controller's product id and
      Nintendo's vendor id. */
  function IsProController(vendor: UInt16, product: UInt16): (r: bool)
    ensures r <==> vendor == Controls.NintendoId && product == Controls.ProconId
  {
    !(product != 0x2009 || vendor != 0x057E)
  }

  /** Output buffers numbered by their position in the stream: each
      carries that position modulo 16 as its sequence byte. */
  ghost predicate Numbered(w: seq<seq<Byte>>)
  {
    forall i :: 0 <= i < |w| ==> |w[i]| >= 2 && w[i][1] == i % 16
  }

  /** Appending a batch of buffers whose sequence bytes continue the
      numbering keeps the stream numbered, whatever the padding. */
  lemma StreamExtends(w: seq<seq<Byte>>, rs: seq<seq<Byte>>, size: UInt16)
    requires Numbered(w)
    requires forall i :: 0 <= i < |rs| ==> |rs[i]| >= 2 && rs[i][1] == (|w| + i) % 16
    ensures Numbered(w + PadAll(rs, size))
  {
    var extended := w + PadAll(rs, size);
    forall j | 0 <= j < |extended|
      ensures |extended[j]| >= 2 && extended[j][1] == j % 16
    {
      if j >= |w| {
        PadLayout(rs[j - |w|], size);
        assert extended[j] == Pad(rs[j - |w|], size);
      }
    }
  }

  /** A `uint8_t` counter that holds the stream length modulo 256, advanced
      by `k`, holds the new length modulo 256, and its low four bits follow
      the length modulo 16. */
  lemma CounterAdvance(n: nat, k: nat)
    ensures ToByte(n % 256 + k) == (n + k) % 256
    ensures (n % 256 + k) % 16 == (n + k) % 16
  {
    var q := n / 256;
    assert n + k == 256 * q + (n % 256 + k);
    ShiftBy256(q, n % 256 + k);
    assert n + k == 16 * (16 * q) + (n % 256 + k);
    ShiftBy16(16 * q, n % 256 + k);
  }

  lemma {:induction false} ShiftBy16(k: nat, b: int)
    ensures (16 * k + b) % 16 == b % 16
    decreases k
  {
    if k > 0 {
      ShiftBy16(k - 1, b);
      assert 16 * k + b == (16 * (k - 1) + b) + 16;
    }
  }

  lemma {:induction false} ShiftBy256(k: nat, b: int)
    ensures (256 * k + b) % 256 == b % 256
    decreases k
  {
    if k > 0 {
      ShiftBy256(k - 1, b);
      assert 256 * k + b == (256 * (k - 1) + b) + 256;
    }
  }

  /** Incrementing a `uint8_t` that already wrapped is wrapping the sum. */
  lemma ByteIncrement(x: int)
    ensures ToByte(ToByte(x) + 1) == ToByte(x + 1)
  {
  }

  /** Padding distributes over concatenation. */
  lemma PadAllAppend(a: seq<seq<Byte>>, b: seq<seq<Byte>>, size: UInt16)
    ensures PadAll(a + b, size) == PadAll(a, size) + PadAll(b, size)
  {
  }

  /** The LED block followed by the vibration block writes exactly the
      reports of one feedback update and advances the counter past them. */
  lemma BlocksWriteReports(stream: seq<seq<Byte>>, start: Byte, ledChanged: bool, led: Byte,
                           vibrate: bool, large: Byte, small: Byte, size: UInt16,
                           middle: seq<seq<Byte>>, next: Byte, end: seq<seq<Byte>>, last: Byte)
    requires middle == stream + (if ledChanged then PadAll([LedReport(start, led)], size) else [])
    requires next == if ledChanged then ToByte(start + 1) else start
    requires end == middle + (if vibrate then PadAll([RumbleReport(next, BAND_LARGE, large),
                                                      RumbleReport(ToByte(next + 1), BAND_SMALL, small)], size) else [])
    requires last == if vibrate then ToByte(next + 2) else next
    ensures end == stream + PadAll(FeedbackReports(start, ledChanged, led, vibrate, large, small), size)
    ensures last == CounterAfter(start, ledChanged, vibrate)
  {
    var leds := if ledChanged then [LedReport(start, led)] else [];
    var rumbles := if vibrate then [RumbleReport(next, BAND_LARGE, large),
                                    RumbleReport(ToByte(next + 1), BAND_SMALL, small)] else [];
    assert next == ToByte(start + |leds|);
    assert FeedbackReports(start, ledChanged, led, vibrate, large, small) == leds + rumbles;
    PadAllAppend(leds, rumbles, size);
    ByteIncrement(start + |leds|);
  }

  /** The sequence-counter discipline survives one feedback update: if the
      counter held the stream length modulo 256 and every buffer carried its
      position, the reports of the update continue the numbering and the
      counter after them holds the new length. */
  lemma FeedbackKeepsNumbering(w: seq<seq<Byte>>, counter: Byte, ledChanged: bool, led: Byte,
                               vibrate: bool, large: Byte, small: Byte, size: UInt16)
    requires counter == |w| % 256 && Numbered(w)
    ensures var extended := w + PadAll(FeedbackReports(counter, ledChanged, led, vibrate, large, small), size);
      Numbered(extended) && CounterAfter(counter, ledChanged, vibrate) == |extended| % 256
  {
    var reports := FeedbackReports(counter, ledChanged, led, vibrate, large, small);
    FeedbackReportsLayout(counter, ledChanged, led, vibrate, large, small);
    forall i | 0 <= i < |reports|
      ensures reports[i][1] == (|w| + i) % 16
    {
      CounterAdvance(|w|, i);
    }
    StreamExtends(w, reports, size);
    CounterAdvance(|w|, |reports|);
  }

  class Session {
    // The `controller` record.
    var counter: Byte
    var outputSize: UInt16
    var largeMotor: Byte
    var smallMotor: Byte
    var led: Byte
    var vibrate: bool
    var ledChanged: bool
    var max: Byte
    // `capturing`, the accumulator kept across calls of the tick.
    var capturing: Int16
    // `xinState`, the gamepad state last built.
    var pad: Gamepad
    // Every buffer passed to `WriteFile`, in order.
    var written: seq<seq<Byte>>
    // Every keyboard input passed to `SendInput`, in order.
    var keys: seq<KeyInput>
    // Every state passed to `XOutputSetState`, in order.
    var submitted: seq<Gamepad>

    /** The sequence-counter discipline: the counter has been incremented
        once per buffer written since it was zeroed at connection, and so
        each written buffer carries its own position in the output stream,
        modulo 16, as its sequence byte. */
    ghost predicate Valid()
      reads this
    {
      counter == |written| % 256 && Numbered(written)
    }

    /** A session on a controller just found by discovery, with output
        report length `outputSize` and intensity cap `max`: the counter is
        zeroed and nothing has been sent in either direction. */
    constructor (outputSize: UInt16, max: Byte)
      ensures Valid()
      ensures this.outputSize == outputSize && this.max == max
      ensures counter == 0 && written == [] && keys == [] && submitted == []
      ensures led == 0 && !ledChanged && !vibrate && largeMotor == 0 && smallMotor == 0
      ensures capturing == 0 && pad == Gamepad(0, 0, 0, 0, 0, 0, 0)
    {
      counter := 0;
      this.outputSize := outputSize;
      largeMotor, smallMotor, led := 0, 0, 0;
      vibrate, ledChanged := false, false;
      this.max := max;
      capturing := 0;
      pad := Gamepad(0, 0, 0, 0, 0, 0, 0);
      written, keys, submitted := [], [], [];
    }

    /** The report sent before polling starts: LED 1 with the next sequence
        number, after which LED 1 is recorded as current and unchanged. */
    method WriteInitialLed()
      requires Valid()
      modifies this`counter, this`written, this`led, this`ledChanged
      ensures Valid()
      ensures written == old(written) + [Pad(InitialLedReport[1 := old(counter) % 16], outputSize)]
      ensures counter == ToByte(old(counter) + 1)
      ensures led == 1 && !ledChanged
    {
      var buf := [0x01, counter % 16, 0x00, 0x01, 0x40, 0x40, 0x00, 0x01, 0x40, 0x40, 0x30, 0x01];
      assert buf == InitialLedReport[1 := counter % 16];
      StreamExtends(written, [buf], outputSize);
      CounterAdvance(|written|, 1);
      assert PadAll([buf], outputSize) == [Pad(buf, outputSize)];
      counter := ToByte(counter + 1);
      WriteData(buf);
      led := 1;
      ledChanged := false;
    }

    /** Writes `data`, zero-padded to the output report length. */
    method WriteData(data: seq<Byte>)
      modifies this`written
      ensures written == old(written) + [Pad(data, outputSize)]
    {
      var buf := data;
      if |data| < outputSize {
        buf := data + seq(outputSize - |data|, _ => 0);
      }
      written := written + [buf];
    }

    /** Passes keyboard input to `SendInput`. */
    method SendInput(inputs: seq<KeyInput>)
      modifies this`keys
      ensures keys == old(keys) + inputs
    {
      keys := keys + inputs;
    }

    /** Writes the LED report if the LED changed and the two rumble reports
        if vibration is on, each taking the next sequence number. */
    method HandleRumble()
      requires Valid()
      modifies this`counter, this`written, this`ledChanged
      ensures Valid()
      ensures written == old(written) +
        PadAll(FeedbackReports(old(counter), old(ledChanged), led, vibrate, largeMotor, smallMotor), outputSize)
      ensures counter == CounterAfter(old(counter), old(ledChanged), vibrate)
      ensures !ledChanged
    {
      ghost var stream, start, changed := written, counter, ledChanged;
      FeedbackKeepsNumbering(stream, start, ledChanged, led, vibrate, largeMotor, smallMotor, outputSize);
      if ledChanged {
        WriteLedReport();
        ledChanged := false;
      }
      ghost var middle, next := written, counter;
      if vibrate {
        WriteRumbleReports();
      }
      BlocksWriteReports(stream, start, changed, led, vibrate, largeMotor, smallMotor, outputSize,
                         middle, next, written, counter);
    }

    /** The LED block of `handle_rumble`: the LED report with the current
        sequence number, the counter advanced past it. */
    method WriteLedReport()
      modifies this`counter, this`written
      ensures written == old(written) + PadAll([LedReport(old(counter), led)], outputSize)
      ensures counter == ToByte(old(counter) + 1)
    {
      var buf := [0x01, counter % 16, 0x00, 0x01, 0x40, 0x40, 0x00, 0x01, 0x40, 0x40, 0x30, LedMask(led)];
      counter := ToByte(counter + 1);
      WriteData(buf);
      assert PadAll([LedReport(old(counter), led)], outputSize) == [Pad(buf, outputSize)];
    }

    /** The vibration block of `handle_rumble`: one buffer, filled with the
        large motor's band and intensity and written, then renumbered,
        refilled with the small motor's and written again. */
    method WriteRumbleReports()
      modifies this`counter, this`written
      ensures written == old(written) + PadAll([RumbleReport(old(counter), BAND_LARGE, largeMotor),
                                                RumbleReport(ToByte(old(counter) + 1), BAND_SMALL, smallMotor)], outputSize)
      ensures counter == ToByte(old(counter) + 2)
    {
      var buf: seq<Byte> := [0x10, counter % 16, 0x80, 0x00, 0x40, 0x40, 0x80, 0x00, 0x40, 0x40];
      counter := ToByte(counter + 1);
      buf := buf[2 := 0x08];
      buf := buf[3 := largeMotor];
      buf := buf[6 := 0x08];
      buf := buf[7 := largeMotor];
      ghost var large := buf;
      WriteData(buf);
      buf := buf[1 := counter % 16];
      counter := ToByte(counter + 1);
      buf := buf[2 := 0x10];
      buf := buf[3 := smallMotor];
      buf := buf[6 := 0x10];
      buf := buf[7 := smallMotor];
      WriteData(buf);
      assert large == RumbleReport(old(counter), BAND_LARGE, largeMotor);
      assert buf == RumbleReport(ToByte(old(counter) + 1), BAND_SMALL, smallMotor);
      assert PadAll([large, buf], outputSize) == [Pad(large, outputSize), Pad(buf, outputSize)];
    }

    /** Takes the feedback the virtual bus reports: `a` vibration on or off,
        `b` and `c` the large and small motor intensities, `d` the LED
        index. */
    method UpdateFeedback(a: Byte, b: Byte, c: Byte, d: Byte)
      modifies this`vibrate, this`largeMotor, this`smallMotor, this`led, this`ledChanged
      ensures vibrate == (a != 0)
      ensures largeMotor == ScaleMotor(b, max) && smallMotor == ScaleMotor(c, max)
      ensures led == UpdateLed(old(led), d).led
      ensures ledChanged == (old(ledChanged) || UpdateLed(old(led), d).changed)
    {
      var large, small := b, c;
      if max != 255 {
        assert b * max / 255 == ScaleMotor(b, max) && c * max / 255 == ScaleMotor(c, max);
        large := b * max / 255;
        small := c * max / 255;
      }
      vibrate := a != 0;
      largeMotor := large;
      smallMotor := small;
      if led != d + 1 {
        led := ToByte(d + 1);
        ledChanged := true;
      }
    }

    /** One tick of the capture accumulator. */
    method UpdateCapture(held: bool)
      modifies this`capturing, this`keys
      ensures capturing == CaptureStep(old(capturing), held).count
      ensures keys == old(keys) + CaptureStep(old(capturing), held).sent
    {
      if held {
        capturing := ToShort(capturing + 1);
      } else if capturing >= LONG_PRESS_TICKS {
        capturing := 0;
        SendInput([KeyInput(VK_MENU, false), KeyInput(VK_F10, false)]);
        SendInput([KeyInput(VK_MENU, true), KeyInput(VK_F10, true)]);
      } else if capturing > 0 {
        capturing := 0;
        SendInput([KeyInput(VK_MENU, false), KeyInput(VK_F1, false)]);
        SendInput([KeyInput(VK_MENU, true), KeyInput(VK_F1, true)]);
      }
    }

    /** The input half of a tick: the gamepad state for sample `js` is
        built and handed to the virtual bus, and the capture accumulator
        takes one step. */
    method SubmitInput(js: JoyState, positional: bool)
      modifies this`capturing, this`keys, this`pad, this`submitted
      ensures pad == Translate(js, positional)
      ensures submitted == old(submitted) + [Translate(js, positional)]
      ensures capturing == CaptureStep(old(capturing), Pressed(js, BUTTON_CAPTURE)).count
      ensures keys == old(keys) + CaptureStep(old(capturing), Pressed(js, BUTTON_CAPTURE)).sent
    {
      pad := Translate(js, positional);
      UpdateCapture(Pressed(js, BUTTON_CAPTURE));
      submitted := submitted + [pad];
    }

    /** The feedback half of a tick: the virtual bus reports `a`, `b`, `c`,
        `d`, and the LED and rumble reports they call for are written. */
    method ApplyFeedback(a: Byte, b: Byte, c: Byte, d: Byte)
      requires Valid()
      modifies this`vibrate, this`largeMotor, this`smallMotor, this`led, this`ledChanged,
        this`counter, this`written
      ensures Valid()
      ensures vibrate == (a != 0)
      ensures largeMotor == ScaleMotor(b, max) && smallMotor == ScaleMotor(c, max)
      ensures led == UpdateLed(old(led), d).led && !ledChanged
      ensures written == old(written) +
        PadAll(FeedbackReports(old(counter), old(ledChanged) || UpdateLed(old(led), d).changed,
                               led, vibrate, largeMotor, smallMotor), outputSize)
      ensures counter == CounterAfter(old(counter), old(ledChanged) || UpdateLed(old(led), d).changed, vibrate)
    {
      UpdateFeedback(a, b, c, d);
      HandleRumble();
    }

    /** One polling tick on joystick sample `js`, with the virtual bus
        reporting feedback `a`, `b`, `c`, `d`. The gamepad state depends on
        the sample alone; the capture accumulator, the feedback fields and
        the sequence counter carry over from earlier ticks. */
    method UpdateInputState(js: JoyState, positional: bool, a: Byte, b: Byte, c: Byte, d: Byte)
      requires Valid()
      modifies this`capturing, this`keys, this`pad, this`submitted, this`vibrate, this`largeMotor,
        this`smallMotor, this`led, this`ledChanged, this`counter, this`written
      ensures Valid()
      ensures pad == Translate(js, positional)
      ensures submitted == old(submitted) + [Translate(js, positional)]
      ensures capturing == CaptureStep(old(capturing), Pressed(js, BUTTON_CAPTURE)).count
      ensures keys == old(keys) + CaptureStep(old(capturing), Pressed(js, BUTTON_CAPTURE)).sent
      ensures vibrate == (a != 0)
      ensures largeMotor == ScaleMotor(b, max) && smallMotor == ScaleMotor(c, max)
      ensures led == UpdateLed(old(led), d).led && !ledChanged
      ensures written == old(written) +
        PadAll(FeedbackReports(old(counter), old(ledChanged) || UpdateLed(old(led), d).changed,
                               led, vibrate, largeMotor, smallMotor), outputSize)
      ensures counter == CounterAfter(old(counter), old(ledChanged) || UpdateLed(old(led), d).changed, vibrate)
    {
      SubmitInput(js, positional);
      ApplyFeedback(a, b, c, d);
    }
  }
}
