/**
 * The OpenLCD command protocol: the byte constants the driver emits and the
 * grammar of the byte stream the display firmware reads.  The grammar
 * (Encode/Decode) is the reference against which every frame the driver
 * builds is checked.
 */
module OpenLcd {
  import opened Wrappers

  type byte = bv8

  // Prefix bytes.
  const SETTING_COMMAND: byte := 0x7C   // '|': enter setting mode
  const SPECIAL_COMMAND: byte := 0xFE   // prefix of an HD44780 instruction

  // Setting-mode sub-commands.
  const SAVE_CURRENT_DISPLAY_AS_SPLASH: byte := 0x0A
  const CONTRAST_COMMAND: byte := 0x18  // followed by one contrast byte
  const ADDRESS_COMMAND: byte := 0x19   // followed by one address byte
  const SET_RGB_COMMAND: byte := 0x2B   // followed by red, green, blue
  const CLEAR_COMMAND: byte := 0x2D
  const ENABLE_SYSTEM_MESSAGE_DISPLAY: byte := 0x2E
  const DISABLE_SYSTEM_MESSAGE_DISPLAY: byte := 0x2F
  const ENABLE_SPLASH_DISPLAY: byte := 0x30
  const DISABLE_SPLASH_DISPLAY: byte := 0x31
  const CREATE_GLYPH_BASE: byte := 27   // 27 + n: define glyph n, followed by 8 rows
  const WRITE_GLYPH_BASE: byte := 35    // 35 + n: print glyph n
  const GLYPH_SLOTS: byte := 8
  const GLYPH_ROWS := 8

  // Lowest command byte of each backlight channel; each channel has 30 steps.
  const RED_BASE: byte := 128
  const GREEN_BASE: byte := 158
  const BLUE_BASE: byte := 188
  const BRIGHTNESS_STEPS: byte := 30

  // HD44780 instructions (sent after SPECIAL_COMMAND) and their flag bits.
  const LCD_RETURNHOME: byte := 0x02
  const LCD_ENTRYMODESET: byte := 0x04
  const LCD_DISPLAYCONTROL: byte := 0x08
  const LCD_CURSORSHIFT: byte := 0x10
  const LCD_SETDDRAMADDR: byte := 0x80

  const LCD_ENTRYRIGHT: byte := 0x00
  const LCD_ENTRYLEFT: byte := 0x02
  const LCD_ENTRYSHIFTINCREMENT: byte := 0x01
  const LCD_ENTRYSHIFTDECREMENT: byte := 0x00

  const LCD_DISPLAYON: byte := 0x04
  const LCD_DISPLAYOFF: byte := 0x00
  const LCD_CURSORON: byte := 0x02
  const LCD_CURSOROFF: byte := 0x00
  const LCD_BLINKON: byte := 0x01
  const LCD_BLINKOFF: byte := 0x00

  const LCD_DISPLAYMOVE: byte := 0x08
  const LCD_CURSORMOVE: byte := 0x00
  const LCD_MOVERIGHT: byte := 0x04
  const LCD_MOVELEFT: byte := 0x00

  // Factory I2C address and display geometry.
  const DISPLAY_ADDRESS1: byte := 0x72
  const MAX_ROWS := 4
  const MAX_COLUMNS := 20

  /** One command as the display firmware reads it from the stream. */
  datatype Command =
    | Special(instruction: byte)                  // SPECIAL_COMMAND, instruction
    | Setting(code: byte)                         // SETTING_COMMAND, code (no data)
    | Contrast(contrast: byte)                    // SETTING_COMMAND, CONTRAST_COMMAND, value
    | Address(address: byte)                      // SETTING_COMMAND, ADDRESS_COMMAND, value
    | Rgb(red: byte, green: byte, blue: byte)     // SETTING_COMMAND, SET_RGB_COMMAND, r, g, b
    | Glyph(slot: byte, rows: seq<byte>)          // SETTING_COMMAND, 27 + slot, 8 rows
    | Text(ch: byte)                              // a literal character

  predicate IsGlyphCode(c: byte) {
    CREATE_GLYPH_BASE <= c < CREATE_GLYPH_BASE + GLYPH_SLOTS
  }

  /** Setting sub-commands that are followed by data bytes. */
  predicate TakesData(c: byte) {
    c == CONTRAST_COMMAND || c == ADDRESS_COMMAND || c == SET_RGB_COMMAND || IsGlyphCode(c)
  }

  predicate IsPrefix(b: byte) {
    b == SETTING_COMMAND || b == SPECIAL_COMMAND
  }

  /** The commands that have a byte form the firmware reads back as themselves. */
  predicate WellFormed(cmd: Command) {
    match cmd
    case Setting(c) => !TakesData(c)
    case Glyph(slot, rows) => slot < GLYPH_SLOTS && |rows| == GLYPH_ROWS
    case Text(b) => !IsPrefix(b)
    case _ => true
  }

  predicate AllWellFormed(cmds: seq<Command>) {
    forall i :: 0 <= i < |cmds| ==> WellFormed(cmds[i])
  }

  /** The bytes of one command. */
  function Bytes(cmd: Command): seq<byte> {
    match cmd
    case Special(c) => [SPECIAL_COMMAND, c]
    case Setting(c) => [SETTING_COMMAND, c]
    case Contrast(v) => [SETTING_COMMAND, CONTRAST_COMMAND, v]
    case Address(a) => [SETTING_COMMAND, ADDRESS_COMMAND, a]
    case Rgb(r, g, b) => [SETTING_COMMAND, SET_RGB_COMMAND, r, g, b]
    case Glyph(slot, rows) => [SETTING_COMMAND, CREATE_GLYPH_BASE + slot] + rows
    case Text(b) => [b]
  }

  /** The byte stream of a sequence of commands. */
  function Encode(cmds: seq<Command>): seq<byte> {
    if cmds == [] then [] else Bytes(cmds[0]) + Encode(cmds[1..])
  }

  /** Reads the first command of a non-empty stream; None when it is cut short. */
  function DecodeFirst(s: seq<byte>): (r: Option<(Command, seq<byte>)>)
    requires s != []
    ensures r.Some? ==> |r.value.1| < |s|
  {
    var b := s[0];
    if b == SPECIAL_COMMAND then
      if |s| < 2 then None else Some((Special(s[1]), s[2..]))
    else if b == SETTING_COMMAND then
      if |s| < 2 then None
      else
        var c := s[1];
        if c == CONTRAST_COMMAND then
          if |s| < 3 then None else Some((Contrast(s[2]), s[3..]))
        else if c == ADDRESS_COMMAND then
          if |s| < 3 then None else Some((Address(s[2]), s[3..]))
        else if c == SET_RGB_COMMAND then
          if |s| < 5 then None else Some((Rgb(s[2], s[3], s[4]), s[5..]))
        else if IsGlyphCode(c) then
          if |s| < 2 + GLYPH_ROWS then None
          else Some((Glyph(c - CREATE_GLYPH_BASE, s[2..2 + GLYPH_ROWS]), s[2 + GLYPH_ROWS..]))
        else Some((Setting(c), s[2..]))
    else Some((Text(b), s[1..]))
  }

  /** Reads a whole stream as commands; None when the last command is cut short. */
  function Decode(s: seq<byte>): Option<seq<Command>>
    decreases |s|
  {
    if s == [] then Some([])
    else match DecodeFirst(s)
      case None => None
      case Some((cmd, rest)) =>
        match Decode(rest)
        case None => None
        case Some(cmds) => Some([cmd] + cmds)
  }

  /** A well-formed command is read back from the front of any stream. */
  lemma DecodeFirstBytes(cmd: Command, tail: seq<byte>)
    requires WellFormed(cmd)
    ensures DecodeFirst(Bytes(cmd) + tail) == Some((cmd, tail))
  {
    var s := Bytes(cmd) + tail;
    match cmd
    case Special(c) => assert s[2..] == tail;
    case Setting(c) => assert s[2..] == tail;
    case Contrast(v) => assert s[3..] == tail;
    case Address(a) => assert s[3..] == tail;
    case Rgb(r, g, b) => assert s[5..] == tail;
    case Glyph(slot, rows) =>
      assert s[2..2 + GLYPH_ROWS] == rows;
      assert s[2 + GLYPH_ROWS..] == tail;
    case Text(b) => assert s[1..] == tail;
  }

  /** Whatever DecodeFirst reads is well formed and is exactly the bytes it consumed. */
  lemma DecodeFirstSound(s: seq<byte>)
    requires s != [] && DecodeFirst(s).Some?
    ensures WellFormed(DecodeFirst(s).value.0)
    ensures Bytes(DecodeFirst(s).value.0) + DecodeFirst(s).value.1 == s
  {
    var (cmd, rest) := DecodeFirst(s).value;
    match cmd
    case Special(c) => assert s == s[..2] + s[2..];
    case Setting(c) => assert s == s[..2] + s[2..];
    case Contrast(v) =>
      assert s[0] == SETTING_COMMAND && s[1] == CONTRAST_COMMAND && |s| >= 3;
      assert s == s[..3] + s[3..];
    case Address(a) =>
      assert s[0] == SETTING_COMMAND && s[1] == ADDRESS_COMMAND && |s| >= 3;
      assert s == s[..3] + s[3..];
    case Rgb(r, g, b) => assert s == s[..5] + s[5..];
    case Glyph(slot, rows) =>
      assert s[0] == SETTING_COMMAND && IsGlyphCode(s[1]) && |s| >= 2 + GLYPH_ROWS;
      assert CREATE_GLYPH_BASE + slot == s[1];
      assert s == [s[0], s[1]] + s[2..2 + GLYPH_ROWS] + s[2 + GLYPH_ROWS..];
    case Text(b) => assert s == s[..1] + s[1..];
  }

  /** Round trip: the firmware reads back exactly the commands that were encoded. */
  lemma {:induction false} DecodeEncode(cmds: seq<Command>)
    requires AllWellFormed(cmds)
    ensures Decode(Encode(cmds)) == Some(cmds)
  {
    if cmds != [] {
      DecodeFirstBytes(cmds[0], Encode(cmds[1..]));
      assert AllWellFormed(cmds[1..]) by {
        forall i | 0 <= i < |cmds[1..]| ensures WellFormed(cmds[1..][i]) {
          assert cmds[1..][i] == cmds[i + 1];
        }
      }
      DecodeEncode(cmds[1..]);
      assert [cmds[0]] + cmds[1..] == cmds;
    }
  }

  /** The other direction: every stream that decodes is the encoding of its commands. */
  lemma {:induction false} EncodeDecode(s: seq<byte>)
    requires Decode(s).Some?
    ensures AllWellFormed(Decode(s).value)
    ensures Encode(Decode(s).value) == s
    decreases |s|
  {
    if s != [] {
      var (cmd, rest) := DecodeFirst(s).value;
      DecodeFirstSound(s);
      EncodeDecode(rest);
      var cmds := Decode(s).value;
      assert cmds == [cmd] + Decode(rest).value;
      assert cmds[1..] == Decode(rest).value;
    }
  }

  lemma EncodeSingle(cmd: Command)
    ensures Encode([cmd]) == Bytes(cmd)
  {
    assert [cmd][1..] == [];
  }

  /** A single well-formed command is read back on its own. */
  lemma DecodeSingle(cmd: Command)
    requires WellFormed(cmd)
    ensures Decode(Bytes(cmd)) == Some([cmd])
  {
    EncodeSingle(cmd);
    DecodeEncode([cmd]);
  }

  /** Encoding distributes over concatenation of command lists. */
  lemma {:induction false} EncodeAppend(a: seq<Command>, b: seq<Command>)
    ensures Encode(a + b) == Encode(a) + Encode(b)
  {
    if a != [] {
      assert (a + b)[1..] == a[1..] + b;
      EncodeAppend(a[1..], b);
    } else {
      assert a + b == b;
    }
  }

  /** Frames that each decode can be sent back to back: the firmware reads both streams in order. */
  lemma DecodeAppend(s: seq<byte>, t: seq<byte>)
    requires Decode(s).Some? && Decode(t).Some?
    ensures Decode(s + t) == Some(Decode(s).value + Decode(t).value)
  {
    var a, b := Decode(s).value, Decode(t).value;
    EncodeDecode(s);
    EncodeDecode(t);
    EncodeAppend(a, b);
    assert AllWellFormed(a + b) by {
      forall i | 0 <= i < |a + b|
        ensures WellFormed((a + b)[i])
      {
        if i < |a| { assert (a + b)[i] == a[i]; } else { assert (a + b)[i] == b[i - |a|]; }
      }
    }
    DecodeEncode(a + b);
  }
}
