/** The device-independent control model of the controller: the closed set
    of logical buttons, the three 8-entry tables that give the control
    reported at each bit of a region's status byte, and the USB identifiers
    the converter matches devices by. */
module Controls {

  /** The logical controls; `None` marks an unused bit position. */
  datatype Button =
    | None
    | DPadUp | DPadDown | DPadRight | DPadLeft
    | A | B | X | Y
    | Plus | Minus
    | L | ZL | R | ZR
    | LeftStick | RightStick
    | Home | Capture

  /** The region of the controller a status byte comes from. */
  datatype ButtonSource = Left | Right | Middle

  /** A bit position within a status byte. */
  type BitIndex = i: int | 0 <= i < 8

  /** Left half: bit 0 .. bit 7. */
  const JoyconLBitmap: seq<Button> :=
    [DPadDown, DPadUp, DPadRight, DPadLeft, None, None, L, ZL]

  /** Right half: bit 0 .. bit 7. */
  const JoyconRBitmap: seq<Button> :=
    [Y, X, B, A, None, None, R, ZR]

  /** Middle cluster: bit 0 .. bit 7. */
  const JoyconMidBitmap: seq<Button> :=
    [Minus, Plus, RightStick, LeftStick, Home, Capture, None, None]

  const JoyconLId := 0x2006
  const JoyconRId := 0x2007
  const ProconId := 0x2009
  const JoyconGripId := 0x200E
  const NintendoId := 0x057E

  /** The table of a region; every table has exactly one entry per bit. */
  function Bitmap(source: ButtonSource): (m: seq<Button>)
    ensures |m| == 8
  {
    match source
    case Left => JoyconLBitmap
    case Right => JoyconRBitmap
    case Middle => JoyconMidBitmap
  }

  /** The control reported by bit `bit` of `source`'s status byte: total
      over the eight bit positions. */
  function Lookup(source: ButtonSource, bit: BitIndex): Button
  {
    Bitmap(source)[bit]
  }

  /** Where a control is reported: the inverse of `Lookup` on the controls
      that some bit reports. */
  function Locate(b: Button): (p: (ButtonSource, BitIndex))
    requires b != None
    ensures Lookup(p.0, p.1) == b
  {
    match b
    case DPadDown => (Left, 0)
    case DPadUp => (Left, 1)
    case DPadRight => (Left, 2)
    case DPadLeft => (Left, 3)
    case L => (Left, 6)
    case ZL => (Left, 7)
    case Y => (Right, 0)
    case X => (Right, 1)
    case B => (Right, 2)
    case A => (Right, 3)
    case R => (Right, 6)
    case ZR => (Right, 7)
    case Minus => (Middle, 0)
    case Plus => (Middle, 1)
    case RightStick => (Middle, 2)
    case LeftStick => (Middle, 3)
    case Home => (Middle, 4)
    case Capture => (Middle, 5)
  }

  /** Unused positions are exactly bits 4 and 5 of the two halves and bits
      6 and 7 of the middle cluster. */
  lemma NonePositions(source: ButtonSource, bit: BitIndex)
    ensures Lookup(source, bit) == None <==>
      if source == Middle then 6 <= bit else 4 <= bit <= 5
  {
  }

  /** Every control other than `None` is reported by exactly one bit of the
      three tables: the position `Locate` names, and no other. */
  lemma ExactlyOnce(b: Button, source: ButtonSource, bit: BitIndex)
    requires b != None
    ensures Lookup(source, bit) == b <==> (source, bit) == Locate(b)
  {
    match source
    case Left =>
    case Right =>
    case Middle =>
  }
}
