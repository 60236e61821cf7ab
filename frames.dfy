/**
 * The pure part of the driver: the arithmetic and bit manipulation it does on
 * its arguments, and the byte frames it hands to the retrying write.  Each
 * frame builder states which commands the firmware reads from its frame.
 */
module Frames {
  import opened Wrappers
  import opened OpenLcd

  // ---------------------------------------------------------------- flags

  /** Sets the bits of flag in state and leaves every other bit alone (`state |= flag`). */
  function WithFlag(state: byte, flag: byte): (r: byte)
    ensures r & flag == flag
    ensures r & !flag == state & !flag
  {
    state | flag
  }

  /** Clears the bits of flag in state and leaves every other bit alone (`state &= ~flag`). */
  function WithoutFlag(state: byte, flag: byte): (r: byte)
    ensures r & flag == 0
    ensures r & !flag == state & !flag
  {
    state & !flag
  }

  /** Setting a flag twice is setting it once, and clearing it first makes no difference. */
  lemma WithFlagIdempotent(state: byte, flag: byte)
    ensures WithFlag(WithFlag(state, flag), flag) == WithFlag(state, flag)
    ensures WithFlag(WithoutFlag(state, flag), flag) == WithFlag(state, flag)
  {
  }

  /** Clearing a flag twice is clearing it once, and setting it first makes no difference. */
  lemma WithoutFlagIdempotent(state: byte, flag: byte)
    ensures WithoutFlag(WithoutFlag(state, flag), flag) == WithoutFlag(state, flag)
    ensures WithoutFlag(WithFlag(state, flag), flag) == WithoutFlag(state, flag)
  {
  }

  /** Each display control and entry mode flag is a single bit, so a toggle changes exactly one bit. */
  /** The display control and entry mode flags the toggles set and clear. */
  predicate IsToggleFlag(flag: byte) {
    flag == LCD_DISPLAYON || flag == LCD_CURSORON || flag == LCD_BLINKON
    || flag == LCD_ENTRYLEFT || flag == LCD_ENTRYSHIFTINCREMENT
  }

  /**
   * Every toggle flag is a single bit, so setting or clearing it changes at
   * most that one bit of the state: nothing when it already had the value.
   */
  lemma ToggleChangesAtMostOneBit(state: byte, flag: byte)
    requires IsToggleFlag(flag)
    ensures flag == 1 || flag == 2 || flag == 4
    ensures WithFlag(state, flag) ^ state == (if state & flag == 0 then flag else 0)
    ensures WithoutFlag(state, flag) ^ state == (if state & flag == 0 then 0 else flag)
  {
  }

  // ---------------------------------------------------------------- arithmetic

  function Abs(x: int): nat {
    if x < 0 then -x else x
  }

  /** Euclidean division facts for the magnitudes, in the form the proofs below use. */
  lemma DivModNat(a: nat, b: nat)
    requires b > 0
    ensures a == (a / b) * b + a % b && 0 <= a % b < b && 0 <= a / b
  {
  }

  lemma NegateFactor(m: int, b: int)
    ensures m * -b == -(m * b) && -m * b == -(m * b) && -m * -b == m * b
  {
  }

  /** The truncated quotient q built from the magnitudes' quotient m and remainder r meets C's contract. */
  lemma TruncatedQuotient(a: int, b: int, m: int, r: int, q: int)
    requires b != 0 && m >= 0 && Abs(a) == m * Abs(b) + r && 0 <= r < Abs(b)
    requires q == if (a >= 0) == (b > 0) then m else -m
    ensures Abs(a - q * b) < Abs(b) && (a - q * b == 0 || (a - q * b > 0 <==> a > 0))
  {
    var B: int := Abs(b);
    NegateFactor(m, B);
    MulNonNeg(m, B);
    if a >= 0 && b > 0 {
      assert a - m * b == r;
    } else if a < 0 && b < 0 {
      assert m * b == -(m * B);
      assert a - m * b == -r;
    } else if a >= 0 {
      assert -m * b == m * B;
      assert a - -m * b == r;
    } else {
      assert -m * b == -(m * B);
      assert a - -m * b == -r;
    }
  }

  /** C's integer division, which truncates toward zero. */
  function CDiv(a: int, b: int): (q: int)
    requires b != 0
    ensures Abs(q) == Abs(a) / Abs(b)
    ensures q != 0 ==> (q > 0 <==> (a >= 0) == (b > 0))
  {
    DivModNat(Abs(a), Abs(b));
    var m := Abs(a) / Abs(b);
    if (a >= 0) == (b > 0) then m else -m
  }

  /**
   * CDiv is division as C defines it: the remainder it leaves is smaller than
   * the divisor in magnitude and has the sign of the dividend.
   */
  lemma CDivTruncates(a: int, b: int)
    requires b != 0
    ensures Abs(a - CDiv(a, b) * b) < Abs(b)
    ensures a - CDiv(a, b) * b == 0 || (a - CDiv(a, b) * b > 0 <==> a > 0)
  {
    DivModNat(Abs(a), Abs(b));
    TruncatedQuotient(a, b, Abs(a) / Abs(b), Abs(a) % Abs(b), CDiv(a, b));
  }

  /** For a non-negative dividend and a positive divisor, C division is floor division. */
  lemma CDivNatural(a: int, b: int)
    requires a >= 0 && b > 0
    ensures CDiv(a, b) == a / b
  {
  }

  lemma Distribute(d: int, w: int, q: int)
    ensures d * w - q * d == d * (w - q)
  {
  }

  lemma MulAbsAtLeast(d: int, e: int)
    requires e != 0
    ensures Abs(d * e) >= Abs(d)
  {
    var D: int, E: int := Abs(d), Abs(e);
    MulNonNeg(D, E - 1);
    assert D * E == D * (E - 1) + D;
    NegateFactor(D, E);
    assert Abs(d * e) == D * E by {
      if d < 0 && e < 0 { assert d * e == -D * -E; }
      else if d < 0 { assert d * e == -D * E; }
      else if e < 0 { assert d * e == D * -E; }
    }
  }

  /** Dividing a multiple of d by d is exact. */
  lemma CDivExact(d: int, w: int)
    requires d != 0
    ensures CDiv(d * w, d) == w
  {
    var q := CDiv(d * w, d);
    CDivTruncates(d * w, d);
    Distribute(d, w, q);
    if q != w {
      MulAbsAtLeast(d, w - q);
    }
  }

  lemma MulNonNeg(t: int, w: int)
    requires t >= 0 && w >= 0
    ensures t * w >= 0
  {
  }

  lemma MulMonotone(t: int, d: int, w: int)
    requires t <= d && w >= 0
    ensures t * w <= d * w
  {
    assert d * w - t * w == (d - t) * w;
    MulNonNeg(d - t, w);
  }

  /** q * d <= w * d with d > 0 gives q <= w. */
  lemma ProductCancel(q: int, w: int, d: int)
    requires d > 0 && q * d <= w * d
    ensures q <= w
  {
    if q > w {
      assert q * d - w * d == (q - w) * d;
      MulNonNeg(q - w - 1, d);
    }
  }

  /** The quotient of a value in [0, d * w] by d > 0 lies in [0, w]. */
  lemma CDivRange(a: int, d: int, w: int)
    requires d > 0 && w >= 0 && 0 <= a <= d * w
    ensures 0 <= CDiv(a, d) <= w
  {
    var q := CDiv(a, d);
    CDivTruncates(a, d);
    assert 0 <= a - q * d < d;
    ProductCancel(q, w, d);
    ProductCancel(-1, q, d);
  }

  /** The Arduino `map`: integer linear interpolation with truncating division. */
  function Map(x: int, inMin: int, inMax: int, outMin: int, outMax: int): int
    requires inMax != inMin
  {
    CDiv((x - inMin) * (outMax - outMin), inMax - inMin) + outMin
  }

  /** Map takes the input range's end points to the output range's end points. */
  lemma MapEndpoints(inMin: int, inMax: int, outMin: int, outMax: int)
    requires inMax != inMin
    ensures Map(inMin, inMin, inMax, outMin, outMax) == outMin
    ensures Map(inMax, inMin, inMax, outMin, outMax) == outMax
  {
    var w, d := outMax - outMin, inMax - inMin;
    CDivExact(d, w);
    assert (inMax - inMin) * w == d * w;
    assert (inMin - inMin) * w == 0;
  }

  /** From a zero-based input range of naturals, Map is the plain floor quotient. */
  lemma MapFromZero(x: int, inMax: int, outMax: int)
    requires x >= 0 && inMax > 0 && outMax >= 0
    ensures Map(x, 0, inMax, 0, outMax) == x * outMax / inMax
  {
    MulNonNeg(x, outMax);
    assert (x - 0) * (outMax - 0) == x * outMax;
    CDivNatural(x * outMax, inMax);
  }

  /** For ascending ranges, Map takes the input range into the output range. */
  lemma MapWithinRange(x: int, inMin: int, inMax: int, outMin: int, outMax: int)
    requires inMin < inMax && outMin <= outMax && inMin <= x <= inMax
    ensures outMin <= Map(x, inMin, inMax, outMin, outMax) <= outMax
  {
    var t, w, d := x - inMin, outMax - outMin, inMax - inMin;
    MulNonNeg(t, w);
    MulMonotone(t, d, w);
    CDivRange(t * w, d, w);
  }

  /**
   * The step (0 to 29) a requested channel intensity is folded to, computed
   * on 16 bits so that the product v * 29 cannot wrap.
   */
  function BrightnessStep(v: byte): (s: byte)
    ensures s < BRIGHTNESS_STEPS
  {
    ((v as bv16 * 29) / 255) as byte
  }

  /** The step as an integer quotient. */
  lemma BrightnessStepValue(v: byte)
    ensures BrightnessStep(v) as int == v as int * 29 / 255
  {
  }

  /** The step is the floor of v * 29 / 255: the largest s with s * 255 <= v * 29. */
  lemma BrightnessStepFloor(v: byte)
    ensures BrightnessStep(v) as int * 255 <= v as int * 29 < (BrightnessStep(v) as int + 1) * 255
  {
    BrightnessStepValue(v);
    DivModNat(v as int * 29, 255);
  }

  /** The step is what `map(v, 0, 255, 0, 29)` computes. */
  lemma BrightnessStepIsMap(v: byte)
    ensures BrightnessStep(v) as int == Map(v as int, 0, 255, 0, 29)
  {
    BrightnessStepValue(v);
    MapFromZero(v as int, 255, 29);
  }

  /** Every one of the 30 steps is reached by some intensity. */
  lemma BrightnessStepOnto(s: byte)
    requires s < BRIGHTNESS_STEPS
    ensures exists v: byte :: BrightnessStep(v) == s
  {
    var v := ((s as bv16 * 255 + 28) / 29) as byte;
    assert BrightnessStep(v) == s;
  }

  /** Brighter requests never give a lower step. */
  lemma BrightnessStepMonotone(v: byte, w: byte)
    requires v <= w
    ensures BrightnessStep(v) <= BrightnessStep(w)
  {
  }

  /**
   * The wire byte of one backlight channel (`uint8_t red = 128 + map(r, 0, 255, 0, 29)`):
   * the sum never exceeds 217, so the conversion to 8 bits never truncates.
   */
  function ChannelCommand(base: byte, v: byte): (c: byte)
    requires base == RED_BASE || base == GREEN_BASE || base == BLUE_BASE
    ensures base <= c < base + BRIGHTNESS_STEPS
  {
    base + BrightnessStep(v)
  }

  /** The channel byte is the base plus Arduino's `map(v, 0, 255, 0, 29)`, with no truncation. */
  lemma ChannelCommandIsMap(base: byte, v: byte)
    requires base == RED_BASE || base == GREEN_BASE || base == BLUE_BASE
    ensures ChannelCommand(base, v) as int == base as int + Map(v as int, 0, 255, 0, 29)
  {
    var s := BrightnessStep(v);
    assert ChannelCommand(base, v) == base + s;
    ChannelAddNoWrap(base, s);
    assert ChannelCommand(base, v) as int == base as int + s as int;
    BrightnessStepIsMap(v);
  }

  /** A channel base plus a step never wraps around 8 bits. */
  lemma ChannelAddNoWrap(base: byte, s: byte)
    requires base == RED_BASE || base == GREEN_BASE || base == BLUE_BASE
    requires s < BRIGHTNESS_STEPS
    ensures (base + s) as int == base as int + s as int
  {
    if base == RED_BASE {
      assert (128 + s) as int == 128 + s as int;
    } else if base == GREEN_BASE {
      assert (158 + s) as int == 158 + s as int;
    } else {
      assert (188 + s) as int == 188 + s as int;
    }
  }

  /** The channels of a packed 0x00RRGGBB value; the top byte is ignored. */
  function Unpack(rgb: bv32): (c: (byte, byte, byte))
    ensures ((c.0 as bv32) << 16) | ((c.1 as bv32) << 8) | (c.2 as bv32) == rgb & 0x00FF_FFFF
  {
    (((rgb >> 16) & 0xFF) as byte, ((rgb >> 8) & 0xFF) as byte, (rgb & 0xFF) as byte)
  }

  function Pack(r: byte, g: byte, b: byte): bv32 {
    ((r as bv32) << 16) | ((g as bv32) << 8) | (b as bv32)
  }

  /** Unpacking recovers the channels that were packed, whatever the top byte holds. */
  lemma UnpackPack(r: byte, g: byte, b: byte, top: byte)
    ensures Unpack(Pack(r, g, b) | ((top as bv32) << 24)) == (r, g, b)
  {
  }

  // ---------------------------------------------------------------- cursor

  /** DDRAM address of the first column of each row. */
  const ROW_OFFSETS: seq<byte> := [0x00, 0x40, 0x14, 0x54]

  /** `std::min(row, MAX_ROWS - 1)`. */
  function ClampRow(row: byte): (r: byte)
    ensures r as int <= MAX_ROWS - 1 && r <= row
    ensures r == row || r as int == MAX_ROWS - 1
  {
    if row as int <= MAX_ROWS - 1 then row else (MAX_ROWS - 1) as byte
  }

  /**
   * The set-DDRAM-address instruction for a column and row.  The sum of the
   * column and the row offset is formed in `int` and truncated to 8 bits when
   * it is passed on as a `uint8_t`, which is bv8 addition.
   */
  function CursorCommand(col: byte, row: byte): (c: byte)
    ensures c & LCD_SETDDRAMADDR == LCD_SETDDRAMADDR
    ensures c & 0x7F == (col + ROW_OFFSETS[ClampRow(row)]) & 0x7F
  {
    LCD_SETDDRAMADDR | (col + ROW_OFFSETS[ClampRow(row)])
  }

  // ---------------------------------------------------------------- C strings

  /** `strlen`: the index of the first NUL byte. */
  function StrLen(s: seq<byte>): (n: nat)
    requires 0 in s
    ensures n < |s| && s[n] == 0
    ensures forall i :: 0 <= i < n ==> s[i] != 0
  {
    if s[0] == 0 then 0 else 1 + StrLen(s[1..])
  }

  // ---------------------------------------------------------------- frames

  /** The frame of `command(c)`: c in setting mode. */
  function CommandFrame(c: byte): (f: seq<byte>)
    ensures |f| == 2 && f[0] == SETTING_COMMAND && f[1] == c
    ensures Decode(f) == if TakesData(c) then None else Some([Setting(c)])
  {
    var f := [SETTING_COMMAND, c];
    if TakesData(c) then
      assert DecodeFirst(f) == None;
      f
    else
      DecodeSingle(Setting(c));
      f
  }

  /** The frame of `specialCommand(c)`: one HD44780 instruction. */
  function SpecialFrame(c: byte): (f: seq<byte>)
    ensures |f| == 2
    ensures Decode(f) == Some([Special(c)])
  {
    DecodeSingle(Special(c));
    [SPECIAL_COMMAND, c]
  }

  /** The frame of `specialCommand(c, n)`: n prefix/instruction pairs. */
  function RepeatedSpecialFrame(c: byte, n: nat): (f: seq<byte>)
    ensures |f| == 2 * n
  {
    if n == 0 then [] else RepeatedSpecialFrame(c, n - 1) + [SPECIAL_COMMAND, c]
  }

  /** Pair i of the repeated frame: SPECIAL_COMMAND at the even index, the instruction at the odd one. */
  lemma {:induction false} RepeatedSpecialFrameAt(c: byte, n: nat, i: nat)
    requires i < n
    ensures RepeatedSpecialFrame(c, n)[2 * i] == SPECIAL_COMMAND
    ensures RepeatedSpecialFrame(c, n)[2 * i + 1] == c
  {
    if i < n - 1 {
      RepeatedSpecialFrameAt(c, n - 1, i);
    }
  }

  /** n copies of one command. */
  function Repeat(cmd: Command, n: nat): (r: seq<Command>)
    ensures |r| == n && forall i :: 0 <= i < n ==> r[i] == cmd
  {
    if n == 0 then [] else Repeat(cmd, n - 1) + [cmd]
  }

  /** The firmware reads n copies of the instruction from the repeated frame. */
  lemma RepeatedSpecialFrameDecodes(c: byte, n: nat)
    ensures Decode(RepeatedSpecialFrame(c, n)) == Some(Repeat(Special(c), n))
  {
    RepeatedSpecialFrameEncodes(c, n);
    DecodeEncode(Repeat(Special(c), n));
  }

  lemma {:induction false} RepeatedSpecialFrameEncodes(c: byte, n: nat)
    ensures Encode(Repeat(Special(c), n)) == RepeatedSpecialFrame(c, n)
  {
    if n > 0 {
      EncodeAppend(Repeat(Special(c), n - 1), [Special(c)]);
      RepeatedSpecialFrameEncodes(c, n - 1);
      EncodeSingle(Special(c));
    }
  }

  /** The frame of `init()`: display control and entry mode from the mirrors, then clear. */
  function InitFrame(control: byte, mode: byte): (f: seq<byte>)
    ensures |f| == 6
    ensures Decode(f) == Some([Special(LCD_DISPLAYCONTROL | control),
                               Special(LCD_ENTRYMODESET | mode), Setting(CLEAR_COMMAND)])
  {
    var cmds := [Special(LCD_DISPLAYCONTROL | control), Special(LCD_ENTRYMODESET | mode), Setting(CLEAR_COMMAND)];
    DecodeEncode(cmds);
    assert Encode(cmds) == Bytes(cmds[0]) + Bytes(cmds[1]) + Bytes(cmds[2]) by {
      assert cmds == [cmds[0]] + [cmds[1]] + [cmds[2]];
      EncodeAppend([cmds[0]] + [cmds[1]], [cmds[2]]);
      EncodeAppend([cmds[0]], [cmds[1]]);
      EncodeSingle(cmds[0]);
      EncodeSingle(cmds[1]);
      EncodeSingle(cmds[2]);
    }
    [SPECIAL_COMMAND, LCD_DISPLAYCONTROL | control,
     SPECIAL_COMMAND, LCD_ENTRYMODESET | mode,
     SETTING_COMMAND, CLEAR_COMMAND]
  }

  /** The glyph slot a location selects: `location & 0x7`, so other values wrap. */
  function GlyphSlot(location: byte): (slot: byte)
    ensures slot < GLYPH_SLOTS
    ensures slot == location % GLYPH_SLOTS
  {
    location & 0x7
  }

  /** The frame of `createChar(location, charmap)`: the slot's create code, then eight rows. */
  function GlyphFrame(location: byte, charmap: seq<byte>): (f: seq<byte>)
    requires |charmap| >= GLYPH_ROWS
    ensures |f| == 2 + GLYPH_ROWS && f[0] == SETTING_COMMAND
    ensures 27 <= f[1] <= 34
    ensures f[2..] == charmap[..GLYPH_ROWS]
    ensures Decode(f) == Some([Glyph(GlyphSlot(location), charmap[..GLYPH_ROWS])])
  {
    var cmd := Glyph(GlyphSlot(location), charmap[..GLYPH_ROWS]);
    DecodeEncode([cmd]);
    assert Encode([cmd]) == Bytes(cmd);
    [SETTING_COMMAND, CREATE_GLYPH_BASE + GlyphSlot(location)] + charmap[..GLYPH_ROWS]
  }

  /** The frame of `writeChar(location)`: print the glyph of the wrapped slot. */
  function WriteCharFrame(location: byte): (f: seq<byte>)
    ensures |f| == 2
    ensures 35 <= f[1] <= 42
    ensures Decode(f) == Some([Setting(WRITE_GLYPH_BASE + GlyphSlot(location))])
  {
    CommandFrame(WRITE_GLYPH_BASE + GlyphSlot(location))
  }

  /** Channel commands (128 and above) are plain settings: none of them is followed by data. */
  lemma ChannelIsSetting(c: byte)
    requires c >= RED_BASE
    ensures !TakesData(c)
  {
  }

  /**
   * The frame of `setBacklight(r, g, b)`, built from the display control
   * mirror once DISPLAYON has been cleared in it: display off, the three
   * channel commands, display on again.
   */
  function BacklightFrame(off: byte, r: byte, g: byte, b: byte): (f: seq<byte>)
    ensures |f| == 10
  {
    [SPECIAL_COMMAND, LCD_DISPLAYCONTROL | off,
     SETTING_COMMAND, ChannelCommand(RED_BASE, r),
     SETTING_COMMAND, ChannelCommand(GREEN_BASE, g),
     SETTING_COMMAND, ChannelCommand(BLUE_BASE, b),
     SPECIAL_COMMAND, LCD_DISPLAYCONTROL | WithFlag(off, LCD_DISPLAYON)]
  }

  /**
   * The firmware reads the backlight frame as display off, the red, green
   * and blue settings in that order, and display on with every other control
   * bit as it was before the call.
   */
  lemma BacklightFrameDecodes(control: byte, r: byte, g: byte, b: byte)
    ensures Decode(BacklightFrame(WithoutFlag(control, LCD_DISPLAYON), r, g, b))
         == Some([Special(LCD_DISPLAYCONTROL | WithoutFlag(control, LCD_DISPLAYON)),
                  Setting(ChannelCommand(RED_BASE, r)),
                  Setting(ChannelCommand(GREEN_BASE, g)),
                  Setting(ChannelCommand(BLUE_BASE, b)),
                  Special(LCD_DISPLAYCONTROL | WithFlag(control, LCD_DISPLAYON))])
  {
    var off := WithoutFlag(control, LCD_DISPLAYON);
    var on := WithFlag(off, LCD_DISPLAYON);
    assert on == WithFlag(control, LCD_DISPLAYON);
    var red, green, blue := ChannelCommand(RED_BASE, r), ChannelCommand(GREEN_BASE, g), ChannelCommand(BLUE_BASE, b);
    ChannelIsSetting(red);
    ChannelIsSetting(green);
    ChannelIsSetting(blue);
    BracketedSettingsDecode(LCD_DISPLAYCONTROL | off, red, green, blue, LCD_DISPLAYCONTROL | on);
  }

  /** Three settings between two instructions decode as those five commands. */
  lemma BracketedSettingsDecode(before: byte, x: byte, y: byte, z: byte, after: byte)
    requires !TakesData(x) && !TakesData(y) && !TakesData(z)
    ensures Decode([SPECIAL_COMMAND, before, SETTING_COMMAND, x, SETTING_COMMAND, y,
                    SETTING_COMMAND, z, SPECIAL_COMMAND, after])
         == Some([Special(before), Setting(x), Setting(y), Setting(z), Special(after)])
  {
    var c0, c1, c2, c3, c4 := Special(before), Setting(x), Setting(y), Setting(z), Special(after);
    var f0, f1, f2, f3, f4 := SpecialFrame(before), CommandFrame(x), CommandFrame(y), CommandFrame(z), SpecialFrame(after);
    DecodeAppend(f0, f1);
    assert [c0] + [c1] == [c0, c1];
    DecodeAppend(f0 + f1, f2);
    assert [c0, c1] + [c2] == [c0, c1, c2];
    DecodeAppend(f0 + f1 + f2, f3);
    assert [c0, c1, c2] + [c3] == [c0, c1, c2, c3];
    DecodeAppend(f0 + f1 + f2 + f3, f4);
    assert [c0, c1, c2, c3] + [c4] == [c0, c1, c2, c3, c4];
    assert f0 + f1 + f2 + f3 + f4 == [SPECIAL_COMMAND, before, SETTING_COMMAND, x, SETTING_COMMAND, y,
                                      SETTING_COMMAND, z, SPECIAL_COMMAND, after];
  }

  /** The frame of `setFastBacklight(r, g, b)`: the raw channels, no remapping. */
  function FastBacklightFrame(r: byte, g: byte, b: byte): (f: seq<byte>)
    ensures |f| == 5
    ensures Decode(f) == Some([Rgb(r, g, b)])
  {
    DecodeSingle(Rgb(r, g, b));
    [SETTING_COMMAND, SET_RGB_COMMAND, r, g, b]
  }

  /** The frame of `setContrast(v)`. */
  function ContrastFrame(v: byte): (f: seq<byte>)
    ensures |f| == 3
    ensures Decode(f) == Some([Contrast(v)])
  {
    DecodeSingle(Contrast(v));
    [SETTING_COMMAND, CONTRAST_COMMAND, v]
  }

  /** The frame of `setAddress(a)`. */
  function AddressFrame(a: byte): (f: seq<byte>)
    ensures |f| == 3
    ensures Decode(f) == Some([Address(a)])
  {
    DecodeSingle(Address(a));
    [SETTING_COMMAND, ADDRESS_COMMAND, a]
  }

  /** The frame of `setCursor(col, row)`. */
  function CursorFrame(col: byte, row: byte): (f: seq<byte>)
    ensures Decode(f) == Some([Special(CursorCommand(col, row))])
  {
    SpecialFrame(CursorCommand(col, row))
  }

  /** `clear()` sends exactly the two bytes 0x7C 0x2D. */
  lemma ClearFrameBytes()
    ensures CommandFrame(CLEAR_COMMAND) == [0x7C, 0x2D]
  {
  }

  /** `setCursor(0, 1)` sends the set-DDRAM-address instruction for offset 0x40. */
  lemma CursorFrameExample()
    ensures CursorFrame(0, 1) == [SPECIAL_COMMAND, LCD_SETDDRAMADDR | 0x40]
  {
  }

  /** A byte that is not a prefix is read by the firmware as a literal character. */
  lemma TextByteDecodes(b: byte)
    requires !IsPrefix(b)
    ensures Decode([b]) == Some([Text(b)])
  {
    DecodeSingle(Text(b));
  }
}
