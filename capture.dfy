/** The capture-button accumulator: a `short` tick counter kept across
    polls that grows while the capture button is held and, on release,
    sends Alt+F10 after a long press (30 ticks or more) or Alt+F1 after a
    short one. */
module Capture {
  import opened Primitives

  // Windows virtual-key codes.
  const VK_MENU := 0x12
  const VK_F1 := 0x70
  const VK_F10 := 0x79

  /** Held ticks from which a release counts as a long press. */
  const LONG_PRESS_TICKS := 30

  /** One keyboard `INPUT` passed to `SendInput`: its virtual key and
      whether it is a key-up event. */
  datatype KeyInput = KeyInput(vk: UInt16, up: bool)

  /** Alt+`vk` as the driver sends it: Alt and `vk` down in one `SendInput`
      call, then both up in a second. */
  function Chord(vk: UInt16): seq<KeyInput>
  {
    [KeyInput(VK_MENU, false), KeyInput(vk, false), KeyInput(VK_MENU, true), KeyInput(vk, true)]
  }

  /** The counter after one tick and the keyboard input sent during it. */
  datatype Step = Step(count: Int16, sent: seq<KeyInput>)

  /** One tick. `++capturing` on a `short` wraps from 32767 to -32768; on
      release the `>= 30` test is made before the `> 0` one; a release with
      a counter of zero or below sends nothing and leaves it as it is. */
  function CaptureStep(count: Int16, held: bool): Step
  {
    if held then Step(ToShort(count + 1), [])
    else if count >= LONG_PRESS_TICKS then Step(0, Chord(VK_F10))
    else if count > 0 then Step(0, Chord(VK_F1))
    else Step(count, [])
  }

  /** A run of ticks, one per entry of `held`, starting from `count`. */
  function Run(count: Int16, held: seq<bool>): Step
    decreases |held|
  {
    if held == [] then Step(count, [])
    else
      var first := CaptureStep(count, held[0]);
      var rest := Run(first.count, held[1..]);
      Step(rest.count, first.sent + rest.sent)
  }

  /** The button held for `n` consecutive ticks. */
  function Hold(n: nat): seq<bool>
  {
    seq(n, _ => true)
  }

  /** Running two stretches of ticks one after the other is running their
      concatenation. */
  lemma {:induction false} RunAppend(count: Int16, a: seq<bool>, b: seq<bool>)
    ensures Run(count, a + b) ==
      Step(Run(Run(count, a).count, b).count, Run(count, a).sent + Run(Run(count, a).count, b).sent)
    decreases |a|
  {
    if a == [] {
      assert a + b == b;
    } else {
      assert (a + b)[0] == a[0];
      assert (a + b)[1..] == a[1..] + b;
      RunAppend(CaptureStep(count, a[0]).count, a[1..], b);
    }
  }

  /** While the button is held nothing is sent and the counter grows by one
      per tick (as long as it does not pass 32767). */
  lemma {:induction false} HoldingCounts(count: Int16, n: nat)
    requires count + n <= 0x7FFF
    ensures Run(count, Hold(n)) == Step(count + n, [])
    decreases n
  {
    if n > 0 {
      assert Hold(n)[1..] == Hold(n - 1);
      HoldingCounts(count + 1, n - 1);
    }
  }

  /** A press of `n` ticks from rest: the release sends Alt+F10 when
      n >= 30, Alt+F1 when 0 < n < 30 and nothing when n == 0, and the
      counter is back at zero afterwards. */
  lemma PressThenRelease(n: nat)
    requires n <= 0x7FFF
    ensures Run(0, Hold(n) + [false]) ==
      if n >= LONG_PRESS_TICKS then Step(0, Chord(VK_F10))
      else if n > 0 then Step(0, Chord(VK_F1))
      else Step(0, [])
  {
    RunAppend(0, Hold(n), [false]);
    HoldingCounts(0, n);
  }

  /** Holding until the counter would pass 32767 (32768 ticks from rest)
      wraps it to -32768 without sending anything. */
  lemma {:induction false} HoldingOverflows(count: Int16, n: nat)
    requires count + n == 0x8000
    ensures Run(count, Hold(n)) == Step(-0x8000, [])
  {
    assert Hold(n) == Hold(n - 1) + [true];
    RunAppend(count, Hold(n - 1), [true]);
    HoldingCounts(count, n - 1);
  }

  /** Once wrapped, the counter is not reset by a release: every press
      within the next 32767 held ticks ends without a chord. */
  lemma WrappedCounterSendsNothing(n: nat)
    requires n <= 0x7FFF
    ensures Run(-0x8000, Hold(n) + [false]) == Step(-0x8000 + n, [])
  {
    RunAppend(-0x8000, Hold(n), [false]);
    HoldingCounts(-0x8000, n);
  }
}
