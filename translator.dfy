/** Translation of one DirectInput joystick sample into the XInput gamepad
    state handed to the virtual bus: d-pad from the point-of-view hat,
    buttons from fixed button indices, binary triggers, and thumb axes
    recentred with 16-bit wrap-around. */
module Translator {
  import opened Primitives

  /** `DIJOYSTATE2::rgbButtons`: 128 button bytes, nonzero when pressed. */
  type ButtonBytes = s: seq<Byte> | |s| == 128 witness seq(128, _ => 0)

  /** The fields of `DIJOYSTATE2` the translation reads. */
  datatype JoyState = JoyState(
    x: Int32, y: Int32, rx: Int32, ry: Int32,   // lX, lY, lRx, lRy
    pov: UInt32,                                // rgdwPOV[0], centidegrees
    buttons: ButtonBytes)                       // rgbButtons

  /** `XINPUT_GAMEPAD`. */
  datatype Gamepad = Gamepad(
    buttons: bv16,
    leftTrigger: Byte, rightTrigger: Byte,
    thumbLX: Int16, thumbLY: Int16, thumbRX: Int16, thumbRY: Int16)

  // The `wButtons` bits of XInput's gamepad structure.
  const DPAD_UP: bv16 := 0x0001
  const DPAD_DOWN: bv16 := 0x0002
  const DPAD_LEFT: bv16 := 0x0004
  const DPAD_RIGHT: bv16 := 0x0008
  const START: bv16 := 0x0010
  const BACK: bv16 := 0x0020
  const LEFT_THUMB: bv16 := 0x0040
  const RIGHT_THUMB: bv16 := 0x0080
  const LEFT_SHOULDER: bv16 := 0x0100
  const RIGHT_SHOULDER: bv16 := 0x0200
  const GUIDE: bv16 := 0x0400
  const FACE_A: bv16 := 0x1000
  const FACE_B: bv16 := 0x2000
  const FACE_X: bv16 := 0x4000
  const FACE_Y: bv16 := 0x8000

  // The DirectInput button indices the translation reads.
  const BUTTON_LEFT_TRIGGER := 6
  const BUTTON_RIGHT_TRIGGER := 7
  const BUTTON_CAPTURE := 13

  predicate Pressed(js: JoyState, i: nat)
    requires i < 128
  {
    js.buttons[i] != 0
  }

  /** The hat positions that lean towards each direction: the cardinal
      angle and the two diagonals beside it. */
  predicate LeansUp(pov: UInt32) { pov == 31500 || pov == 0 || pov == 4500 }
  predicate LeansRight(pov: UInt32) { pov == 4500 || pov == 9000 || pov == 13500 }
  predicate LeansDown(pov: UInt32) { pov == 13500 || pov == 18000 || pov == 22500 }
  predicate LeansLeft(pov: UInt32) { pov == 22500 || pov == 27000 || pov == 31500 }

  /** The d-pad bits for a hat angle. */
  function PovToDpad(pov: UInt32): bv16
  {
    match pov
    case 0 => 0x1
    case 4500 => 0x9
    case 9000 => 0x8
    case 13500 => 0xA
    case 18000 => 0x2
    case 22500 => 0x6
    case 27000 => 0x4
    case 31500 => 0x5
    case _ => 0
  }

  /** Each of the eight compass points sets the directions it leans
      towards; neutral and any other value set nothing; nothing above the
      low four bits is touched. */
  lemma PovToDpadLeans(pov: UInt32)
    ensures PovToDpad(pov) & 0xFFF0 == 0
    ensures (PovToDpad(pov) & DPAD_UP != 0) <==> LeansUp(pov)
    ensures (PovToDpad(pov) & DPAD_RIGHT != 0) <==> LeansRight(pov)
    ensures (PovToDpad(pov) & DPAD_DOWN != 0) <==> LeansDown(pov)
    ensures (PovToDpad(pov) & DPAD_LEFT != 0) <==> LeansLeft(pov)
    ensures PovToDpad(pov) != 0 <==> pov < 36000 && pov % 4500 == 0
  {
  }

  /** A diagonal sets exactly the bits of its two neighbouring cardinal
      points, and no cardinal point sets more than one bit. */
  lemma {:induction false} DiagonalsCombineNeighbours(k: nat)
    requires k < 4
    ensures PovToDpad(9000 * k + 4500) == PovToDpad(9000 * k) | PovToDpad((9000 * k + 9000) % 36000)
    ensures PovToDpad(9000 * k) in {DPAD_UP, DPAD_RIGHT, DPAD_DOWN, DPAD_LEFT}
  {
    if k == 0 {
      assert PovToDpad(4500) == 0x9;
    } else if k == 1 {
      assert PovToDpad(13500) == 0xA;
    } else if k == 2 {
      assert PovToDpad(22500) == 0x6;
    } else {
      assert PovToDpad(31500) == 0x5;
    }
  }

  /** The button whose index sets face bit `k` (A, B, X, Y for k = 0..3):
      the positional layout takes buttons 0..3 in order, the default layout
      swaps each pair. */
  function FaceIndex(positional: bool, k: nat): (i: nat)
    requires k < 4
    ensures i < 4
    ensures positional ==> i == k
    ensures !positional ==> i == (if k % 2 == 0 then k + 1 else k - 1)
  {
    if positional then k else [1, 0, 3, 2][k]
  }

  /** The two layouts differ exactly by exchanging A with B and X with Y. */
  lemma LayoutsSwapPairs(k: nat)
    requires k < 4
    ensures FaceIndex(false, k) == FaceIndex(true, if k % 2 == 0 then k + 1 else k - 1)
    ensures FaceIndex(false, FaceIndex(false, k)) == k
  {
  }

  function Flag(on: bool, mask: bv16): bv16 { if on then mask else 0 }

  /** The menu, stick-click, shoulder and guide bits (0x0010..0x0400). */
  function MenuBits(js: JoyState): bv16
  {
    Flag(Pressed(js, 9), START) | Flag(Pressed(js, 8), BACK)
      | Flag(Pressed(js, 10), LEFT_THUMB) | Flag(Pressed(js, 11), RIGHT_THUMB)
      | Flag(Pressed(js, 4), LEFT_SHOULDER) | Flag(Pressed(js, 5), RIGHT_SHOULDER)
      | Flag(Pressed(js, 12), GUIDE)
  }

  /** Each menu bit is set exactly when its button is pressed, and no bit
      outside 0x0010..0x0400 is set. */
  lemma MenuBitsExact(js: JoyState)
    ensures MenuBits(js) & 0xF80F == 0
    ensures (MenuBits(js) & START != 0) == Pressed(js, 9)
    ensures (MenuBits(js) & BACK != 0) == Pressed(js, 8)
    ensures (MenuBits(js) & LEFT_THUMB != 0) == Pressed(js, 10)
    ensures (MenuBits(js) & RIGHT_THUMB != 0) == Pressed(js, 11)
    ensures (MenuBits(js) & LEFT_SHOULDER != 0) == Pressed(js, 4)
    ensures (MenuBits(js) & RIGHT_SHOULDER != 0) == Pressed(js, 5)
    ensures (MenuBits(js) & GUIDE != 0) == Pressed(js, 12)
  {
    MenuFlags(Pressed(js, 9), Pressed(js, 8), Pressed(js, 10), Pressed(js, 11),
              Pressed(js, 4), Pressed(js, 5), Pressed(js, 12));
  }

  lemma MenuFlags(start: bool, back: bool, lthumb: bool, rthumb: bool,
                  lshoulder: bool, rshoulder: bool, guide: bool)
    ensures var w := Flag(start, START) | Flag(back, BACK) | Flag(lthumb, LEFT_THUMB)
                     | Flag(rthumb, RIGHT_THUMB) | Flag(lshoulder, LEFT_SHOULDER)
                     | Flag(rshoulder, RIGHT_SHOULDER) | Flag(guide, GUIDE);
      w & 0xF80F == 0 && (w & START != 0) == start && (w & BACK != 0) == back
      && (w & LEFT_THUMB != 0) == lthumb && (w & RIGHT_THUMB != 0) == rthumb
      && (w & LEFT_SHOULDER != 0) == lshoulder && (w & RIGHT_SHOULDER != 0) == rshoulder
      && (w & GUIDE != 0) == guide
  {
  }

  /** The face-button bits (0x1000..0x8000) in the chosen layout. */
  function FaceBits(js: JoyState, positional: bool): bv16
  {
    Flag(Pressed(js, FaceIndex(positional, 0)), FACE_A)
      | Flag(Pressed(js, FaceIndex(positional, 1)), FACE_B)
      | Flag(Pressed(js, FaceIndex(positional, 2)), FACE_X)
      | Flag(Pressed(js, FaceIndex(positional, 3)), FACE_Y)
  }

  /** Each face bit is set exactly when the button the layout assigns to it
      is pressed, and no bit below 0x1000 is set. */
  lemma FaceBitsExact(js: JoyState, positional: bool)
    ensures FaceBits(js, positional) & 0x0FFF == 0
    ensures (FaceBits(js, positional) & FACE_A != 0) == Pressed(js, FaceIndex(positional, 0))
    ensures (FaceBits(js, positional) & FACE_B != 0) == Pressed(js, FaceIndex(positional, 1))
    ensures (FaceBits(js, positional) & FACE_X != 0) == Pressed(js, FaceIndex(positional, 2))
    ensures (FaceBits(js, positional) & FACE_Y != 0) == Pressed(js, FaceIndex(positional, 3))
  {
  }

  /** `wButtons`, rebuilt from zero on every sample by or-ing in one mask
      per pressed button, so it depends on the current sample alone. */
  function ButtonMask(js: JoyState, positional: bool): bv16
  {
    PovToDpad(js.pov) | MenuBits(js) | FaceBits(js, positional)
  }

  /** The three groups of `wButtons` do not overlap: the low nibble is the
      hat, the next seven bits the menu group, the top nibble the face
      group, and bit 0x0800 is never set. */
  lemma ButtonMaskGroups(js: JoyState, positional: bool)
    ensures ButtonMask(js, positional) & 0x000F == PovToDpad(js.pov)
    ensures ButtonMask(js, positional) & 0x07F0 == MenuBits(js)
    ensures ButtonMask(js, positional) & 0xF000 == FaceBits(js, positional)
    ensures ButtonMask(js, positional) & 0x0800 == 0
  {
    PovToDpadLeans(js.pov);
    MenuBitsExact(js);
    FaceBitsExact(js, positional);
  }

  /** A digital trigger: full scale when its button is pressed, else zero. */
  function Trigger(pressed: bool): (t: Byte)
    ensures t == 255 || t == 0
    ensures t == 255 <==> pressed
  {
    if pressed then 255 else 0
  }

  /** `0x8000 + static_cast<short>(v)` stored into a `short`. */
  function Horizontal(v: Int32): (r: Int16)
    ensures (r - (0x8000 + v)) % 0x1_0000 == 0
  {
    ToShort(0x8000 + ToShort(v))
  }

  /** `0x7FFF - static_cast<short>(v)` stored into a `short`. */
  function Vertical(v: Int32): (r: Int16)
    ensures (r - (0x7FFF - v)) % 0x1_0000 == 0
  {
    ToShort(0x7FFF - ToShort(v))
  }

  /** For the same raw sample the vertical value is the bitwise complement
      of the horizontal one (in two's complement, ~h == -1 - h). */
  lemma VerticalComplementsHorizontal(v: Int32)
    ensures Vertical(v) == -1 - Horizontal(v)
  {
  }

  /** Over DirectInput's default axis range 0..65535 the mapping is the
      plain recentring: the horizontal value is v - 32768 and the vertical
      one 32767 - v, so up on the stick is positive. */
  lemma CentredOnDefaultRange(v: Int32)
    requires 0 <= v <= 0xFFFF
    ensures Horizontal(v) == v - 0x8000
    ensures Vertical(v) == 0x7FFF - v
  {
  }

  /** Read as a `short` sample s, the ends of the range wrap rather than
      saturate: s = -32768 gives 0 and s = 32767 gives -1. */
  lemma SignedEndsWrap()
    ensures Horizontal(-0x8000) == 0 && Horizontal(0x7FFF) == -1
    ensures Vertical(-0x8000) == -1 && Vertical(0x7FFF) == 0
  {
  }

  /** The complete gamepad state for one sample. */
  function Translate(js: JoyState, positional: bool): Gamepad
  {
    Gamepad(
      ButtonMask(js, positional),
      Trigger(Pressed(js, BUTTON_LEFT_TRIGGER)), Trigger(Pressed(js, BUTTON_RIGHT_TRIGGER)),
      Horizontal(js.x), Vertical(js.y), Horizontal(js.rx), Vertical(js.ry))
  }

  /** The gamepad state for one sample, field by field: the hat, menu and
      face groups of `wButtons` come from their own inputs; ZL and ZR give
      full-scale or zero triggers; each thumb axis is congruent modulo 2^16
      to its raw value recentred, the vertical axes flipped. */
  lemma TranslateFields(js: JoyState, positional: bool)
    ensures var g := Translate(js, positional);
      g.buttons & 0x000F == PovToDpad(js.pov) &&
      g.buttons & 0x07F0 == MenuBits(js) &&
      g.buttons & 0xF000 == FaceBits(js, positional) &&
      g.buttons & 0x0800 == 0
    ensures var g := Translate(js, positional);
      (g.leftTrigger == 255 <==> Pressed(js, BUTTON_LEFT_TRIGGER)) &&
      (g.leftTrigger == 0 <==> !Pressed(js, BUTTON_LEFT_TRIGGER)) &&
      (g.rightTrigger == 255 <==> Pressed(js, BUTTON_RIGHT_TRIGGER)) &&
      (g.rightTrigger == 0 <==> !Pressed(js, BUTTON_RIGHT_TRIGGER))
    ensures var g := Translate(js, positional);
      (g.thumbLX - (0x8000 + js.x)) % 0x1_0000 == 0 &&
      (g.thumbLY - (0x7FFF - js.y)) % 0x1_0000 == 0 &&
      (g.thumbRX - (0x8000 + js.rx)) % 0x1_0000 == 0 &&
      (g.thumbRY - (0x7FFF - js.ry)) % 0x1_0000 == 0
  {
    ButtonMaskGroups(js, positional);
  }
}
