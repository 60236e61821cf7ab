/**
 * The SerLCD driver object: the three fields that mirror the display's state
 * (display control flags, entry mode flags, I2C address) and the operations
 * that update a mirror and send a frame built from it through the retrying
 * write.  Every operation states its new state and the exact events it
 * leaves in the bus log.
 */
module SerLcd {
  import opened Wrappers
  import opened OpenLcd
  import opened Frames
  import opened I2c

  class SerLCD {
    /** Mirror of the HD44780 display control flags (display, cursor, blink). */
    var displayControl: byte
    /** Mirror of the HD44780 entry mode flags (direction, autoscroll). */
    var displayMode: byte
    /** 7-bit I2C address every frame is sent to. */
    var i2cAddr: byte
    /** The bus the driver writes to. */
    const bus: Bus

    /** A fresh driver with the member defaults: display on, no cursor, no blink, left to right, no shift. */
    constructor (bus: Bus)
      ensures this.bus == bus
      ensures displayControl == LCD_DISPLAYON | LCD_CURSOROFF | LCD_BLINKOFF
      ensures displayMode == LCD_ENTRYLEFT | LCD_ENTRYSHIFTDECREMENT
      ensures i2cAddr == DISPLAY_ADDRESS1
    {
      this.bus := bus;
      displayControl := LCD_DISPLAYON | LCD_CURSOROFF | LCD_BLINKOFF;
      displayMode := LCD_ENTRYLEFT | LCD_ENTRYSHIFTDECREMENT;
      i2cAddr := DISPLAY_ADDRESS1;
    }

    /**
     * Since the old state, the bus saw exactly one retrying write of data to
     * address (as many attempts as the replies call for, each followed by a
     * delay of ms), followed by the events in after.
     */
    twostate predicate Sent(address: byte, data: seq<byte>, ms: nat, after: seq<Event>)
      reads bus
    {
      var k := Attempts(bus.replies, old(bus.next), MAX_ATTEMPTS);
      bus.next == old(bus.next) + k
      && bus.log == old(bus.log) + WriteTrace(address, data, ms, bus.replies, old(bus.next), k) + after
    }

    // ------------------------------------------------------------ writing

    /**
     * `write(buffer, size, ms)`: attempts the transfer of the first size bytes
     * until an attempt ends in anything but a timeout or three attempts are
     * made, delays ms after each attempt, and returns size whatever happened.
     */
    method Write(buffer: seq<byte>, size: nat, ms: nat) returns (written: nat)
      requires size <= |buffer|
      modifies bus
      ensures written == size
      ensures Sent(i2cAddr, buffer[..size], ms, [])
    {
      var data := buffer[..size];
      ghost var from := bus.next;
      ghost var k := Attempts(bus.replies, from, MAX_ATTEMPTS);
      var i := 0;
      var again := true;
      while again
        invariant 0 <= i <= MAX_ATTEMPTS
        invariant bus.next == from + i
        invariant bus.log == old(bus.log) + WriteTrace(i2cAddr, data, ms, bus.replies, from, i)
        invariant again ==> i < k
        invariant again ==> forall j :: from <= j < from + i ==> bus.replies(j) == Timeout
        invariant !again ==> i == k
        decreases MAX_ATTEMPTS - i
      {
        var status := bus.WriteToDevice(i2cAddr, data, BUS_TIMEOUT_TICKS);
        bus.DelayMs(ms);
        i := i + 1;
        again := status == Timeout && i < MAX_ATTEMPTS;
      }
      written := size;
    }

    /** `write(b)`: one byte, then 10 ms more; returns 1. */
    method WriteByte(b: byte) returns (written: nat)
      modifies bus
      ensures written == 1
      ensures Sent(i2cAddr, [b], 10, [Delay(10)])
    {
      assert [b][..1] == [b];
      var _ := Write([b], 1, 10);
      bus.DelayMs(10);
      written := 1;
    }

    /** `write(buffer, size)`: the retrying write with 10 ms per attempt, then 20 ms more; returns size. */
    method WriteBuffer(buffer: seq<byte>, size: nat) returns (written: nat)
      requires size <= |buffer|
      modifies bus
      ensures written == size
      ensures Sent(i2cAddr, buffer[..size], 10, [Delay(20)])
    {
      var _ := Write(buffer, size, 10);
      bus.DelayMs(20);
      written := size;
    }

    /**
     * `write(str)`: a null pointer sends nothing and returns 0; otherwise the
     * bytes before the terminating NUL are sent and their number returned.
     */
    method WriteString(str: Option<seq<byte>>) returns (written: nat)
      requires str.Some? ==> 0 in str.value
      modifies bus
      ensures str.None? ==> written == 0 && bus.next == old(bus.next) && bus.log == old(bus.log)
      ensures str.Some? ==> written == StrLen(str.value)
      ensures str.Some? ==> Sent(i2cAddr, str.value[..StrLen(str.value)], 10, [Delay(20)])
    {
      if str.None? {
        return 0;
      }
      written := WriteBuffer(str.value, StrLen(str.value));
    }

    // ------------------------------------------------------------ set-up

    /** `init()`: sends the two mirrors and a clear in one frame. */
    method Init()
      modifies bus
      ensures Sent(i2cAddr, InitFrame(displayControl, displayMode), 60, [])
    {
      var buffer := [SPECIAL_COMMAND, LCD_DISPLAYCONTROL | displayControl,
                     SPECIAL_COMMAND, LCD_ENTRYMODESET | displayMode,
                     SETTING_COMMAND, CLEAR_COMMAND];
      assert buffer[..|buffer|] == buffer;
      var _ := Write(buffer, |buffer|, 60);
    }

    /** `begin(port)`: initialises the display at the current address. */
    method Begin()
      modifies bus
      ensures Sent(i2cAddr, InitFrame(displayControl, displayMode), 60, [])
    {
      Init();
    }

    /** `begin(port, address)`: adopts the address, then initialises the display there. */
    method BeginAt(address: byte)
      modifies this, bus
      ensures i2cAddr == address
      ensures displayControl == old(displayControl) && displayMode == old(displayMode)
      ensures Sent(address, InitFrame(displayControl, displayMode), 60, [])
    {
      i2cAddr := address;
      Begin();
    }

    // ------------------------------------------------------------ commands

    /** `command(c)`: c in setting mode. */
    method Command(c: byte)
      modifies bus
      ensures Sent(i2cAddr, CommandFrame(c), 10, [Delay(20)])
    {
      var buffer := [SETTING_COMMAND, c];
      assert buffer[..|buffer|] == buffer;
      var _ := WriteBuffer(buffer, |buffer|);
    }

    /** `specialCommand(c)`: one HD44780 instruction, 50 ms per attempt. */
    method SpecialCommand(c: byte)
      modifies bus
      ensures Sent(i2cAddr, SpecialFrame(c), 50, [])
    {
      var buffer := [SPECIAL_COMMAND, c];
      assert buffer[..|buffer|] == buffer;
      var _ := Write(buffer, |buffer|, 50);
    }

    /** `specialCommand(c, count)`: count copies of the instruction in one frame, 60 ms per attempt. */
    method SpecialCommandRepeat(c: byte, count: byte)
      modifies bus
      ensures Sent(i2cAddr, RepeatedSpecialFrame(c, count as int), 60, [])
    {
      var buffer := FillPairs(c, count as int);
      assert buffer[..][..buffer.Length] == buffer[..];
      var _ := Write(buffer[..], buffer.Length, 60);
    }

    /** The buffer-filling loop of `specialCommand(c, count)`: i steps by two over 2 * m slots. */
    static method FillPairs(c: byte, m: nat) returns (buffer: array<byte>)
      ensures fresh(buffer) && buffer[..] == RepeatedSpecialFrame(c, m)
    {
      var n := m * 2;
      buffer := new byte[n];
      var i := 0;
      ghost var pairs := 0;
      while i < n
        invariant 0 <= i <= n && i == 2 * pairs
        invariant buffer[..i] == RepeatedSpecialFrame(c, pairs)
        modifies buffer
        decreases n - i
      {
        ghost var filled := buffer[..i];
        buffer[i] := SPECIAL_COMMAND;
        buffer[i + 1] := c;
        assert buffer[..i + 2] == filled + [SPECIAL_COMMAND, c];
        i := i + 2;
        pairs := pairs + 1;
      }
      assert buffer[..] == buffer[..n];
    }

    /** `clear()`. */
    method Clear()
      modifies bus
      ensures Sent(i2cAddr, CommandFrame(CLEAR_COMMAND), 10, [Delay(20)])
    {
      Command(CLEAR_COMMAND);
    }

    /** `home()`. */
    method Home()
      modifies bus
      ensures Sent(i2cAddr, SpecialFrame(LCD_RETURNHOME), 50, [])
    {
      SpecialCommand(LCD_RETURNHOME);
    }

    /** `setCursor(col, row)`: the DDRAM address of the clamped row and the column, then 10 ms more. */
    method SetCursor(col: byte, row: byte)
      modifies bus
      ensures Sent(i2cAddr, CursorFrame(col, row), 50, [Delay(10)])
    {
      SpecialCommand(CursorCommand(col, row));
      bus.DelayMs(10);
    }

    /** `createChar(location, charmap)`: defines the wrapped slot from the first eight rows of charmap. */
    method CreateChar(location: byte, charmap: seq<byte>)
      requires |charmap| >= GLYPH_ROWS
      modifies bus
      ensures Sent(i2cAddr, GlyphFrame(location, charmap), 60, [])
    {
      var slot := location & 0x7;
      var buffer := new byte[2 + GLYPH_ROWS];
      buffer[0] := SETTING_COMMAND;
      buffer[1] := CREATE_GLYPH_BASE + slot;
      for i := 0 to GLYPH_ROWS
        invariant buffer[0] == SETTING_COMMAND && buffer[1] == CREATE_GLYPH_BASE + slot
        invariant buffer[2..2 + i] == charmap[..i]
        modifies buffer
      {
        buffer[i + 2] := charmap[i];
      }
      assert buffer[..] == [SETTING_COMMAND, CREATE_GLYPH_BASE + slot] + charmap[..GLYPH_ROWS];
      assert buffer[..][..buffer.Length] == buffer[..];
      var _ := Write(buffer[..], buffer.Length, 60);
    }

    /** `writeChar(location)`: prints the glyph of the wrapped slot. */
    method WriteChar(location: byte)
      modifies bus
      ensures Sent(i2cAddr, WriteCharFrame(location), 10, [Delay(20)])
    {
      var slot := location & 0x7;
      Command(WRITE_GLYPH_BASE + slot);
    }

    // ------------------------------------------------------------ display control toggles

    /** `noDisplay()`. */
    method NoDisplay()
      modifies this, bus
      ensures displayControl == WithoutFlag(old(displayControl), LCD_DISPLAYON)
      ensures displayMode == old(displayMode) && i2cAddr == old(i2cAddr)
      ensures Sent(i2cAddr, SpecialFrame(LCD_DISPLAYCONTROL | displayControl), 50, [])
    {
      displayControl := WithoutFlag(displayControl, LCD_DISPLAYON);
      SpecialCommand(LCD_DISPLAYCONTROL | displayControl);
    }

    /** `display()`. */
    method Display()
      modifies this, bus
      ensures displayControl == WithFlag(old(displayControl), LCD_DISPLAYON)
      ensures displayMode == old(displayMode) && i2cAddr == old(i2cAddr)
      ensures Sent(i2cAddr, SpecialFrame(LCD_DISPLAYCONTROL | displayControl), 50, [])
    {
      displayControl := WithFlag(displayControl, LCD_DISPLAYON);
      SpecialCommand(LCD_DISPLAYCONTROL | displayControl);
    }

    /** `noCursor()`. */
    method NoCursor()
      modifies this, bus
      ensures displayControl == WithoutFlag(old(displayControl), LCD_CURSORON)
      ensures displayMode == old(displayMode) && i2cAddr == old(i2cAddr)
      ensures Sent(i2cAddr, SpecialFrame(LCD_DISPLAYCONTROL | displayControl), 50, [])
    {
      displayControl := WithoutFlag(displayControl, LCD_CURSORON);
      SpecialCommand(LCD_DISPLAYCONTROL | displayControl);
    }

    /** `cursor()`. */
    method Cursor()
      modifies this, bus
      ensures displayControl == WithFlag(old(displayControl), LCD_CURSORON)
      ensures displayMode == old(displayMode) && i2cAddr == old(i2cAddr)
      ensures Sent(i2cAddr, SpecialFrame(LCD_DISPLAYCONTROL | displayControl), 50, [])
    {
      displayControl := WithFlag(displayControl, LCD_CURSORON);
      SpecialCommand(LCD_DISPLAYCONTROL | displayControl);
    }

    /** `noBlink()`. */
    method NoBlink()
      modifies this, bus
      ensures displayControl == WithoutFlag(old(displayControl), LCD_BLINKON)
      ensures displayMode == old(displayMode) && i2cAddr == old(i2cAddr)
      ensures Sent(i2cAddr, SpecialFrame(LCD_DISPLAYCONTROL | displayControl), 50, [])
    {
      displayControl := WithoutFlag(displayControl, LCD_BLINKON);
      SpecialCommand(LCD_DISPLAYCONTROL | displayControl);
    }

    /** `blink()`. */
    method Blink()
      modifies this, bus
      ensures displayControl == WithFlag(old(displayControl), LCD_BLINKON)
      ensures displayMode == old(displayMode) && i2cAddr == old(i2cAddr)
      ensures Sent(i2cAddr, SpecialFrame(LCD_DISPLAYCONTROL | displayControl), 50, [])
    {
      displayControl := WithFlag(displayControl, LCD_BLINKON);
      SpecialCommand(LCD_DISPLAYCONTROL | displayControl);
    }

    // ------------------------------------------------------------ scrolling and cursor moves

    /** `scrollDisplayLeft()`. */
    method ScrollDisplayLeft()
      modifies bus
      ensures Sent(i2cAddr, SpecialFrame(LCD_CURSORSHIFT | LCD_DISPLAYMOVE | LCD_MOVELEFT), 50, [])
    {
      SpecialCommand(LCD_CURSORSHIFT | LCD_DISPLAYMOVE | LCD_MOVELEFT);
    }

    /** `scrollDisplayLeft(count)`. */
    method ScrollDisplayLeftBy(count: byte)
      modifies bus
      ensures Sent(i2cAddr, RepeatedSpecialFrame(LCD_CURSORSHIFT | LCD_DISPLAYMOVE | LCD_MOVELEFT, count as int), 60, [])
    {
      SpecialCommandRepeat(LCD_CURSORSHIFT | LCD_DISPLAYMOVE | LCD_MOVELEFT, count);
    }

    /** `scrollDisplayRight()`. */
    method ScrollDisplayRight()
      modifies bus
      ensures Sent(i2cAddr, SpecialFrame(LCD_CURSORSHIFT | LCD_DISPLAYMOVE | LCD_MOVERIGHT), 50, [])
    {
      SpecialCommand(LCD_CURSORSHIFT | LCD_DISPLAYMOVE | LCD_MOVERIGHT);
    }

    /** `scrollDisplayRight(count)`. */
    method ScrollDisplayRightBy(count: byte)
      modifies bus
      ensures Sent(i2cAddr, RepeatedSpecialFrame(LCD_CURSORSHIFT | LCD_DISPLAYMOVE | LCD_MOVERIGHT, count as int), 60, [])
    {
      SpecialCommandRepeat(LCD_CURSORSHIFT | LCD_DISPLAYMOVE | LCD_MOVERIGHT, count);
    }

    /** `moveCursorLeft()`. */
    method MoveCursorLeft()
      modifies bus
      ensures Sent(i2cAddr, SpecialFrame(LCD_CURSORSHIFT | LCD_CURSORMOVE | LCD_MOVELEFT), 50, [])
    {
      SpecialCommand(LCD_CURSORSHIFT | LCD_CURSORMOVE | LCD_MOVELEFT);
    }

    /** `moveCursorLeft(count)`. */
    method MoveCursorLeftBy(count: byte)
      modifies bus
      ensures Sent(i2cAddr, RepeatedSpecialFrame(LCD_CURSORSHIFT | LCD_CURSORMOVE | LCD_MOVELEFT, count as int), 60, [])
    {
      SpecialCommandRepeat(LCD_CURSORSHIFT | LCD_CURSORMOVE | LCD_MOVELEFT, count);
    }

    /** `moveCursorRight()`. */
    method MoveCursorRight()
      modifies bus
      ensures Sent(i2cAddr, SpecialFrame(LCD_CURSORSHIFT | LCD_CURSORMOVE | LCD_MOVERIGHT), 50, [])
    {
      SpecialCommand(LCD_CURSORSHIFT | LCD_CURSORMOVE | LCD_MOVERIGHT);
    }

    /** `moveCursorRight(count)`. */
    method MoveCursorRightBy(count: byte)
      modifies bus
      ensures Sent(i2cAddr, RepeatedSpecialFrame(LCD_CURSORSHIFT | LCD_CURSORMOVE | LCD_MOVERIGHT, count as int), 60, [])
    {
      SpecialCommandRepeat(LCD_CURSORSHIFT | LCD_CURSORMOVE | LCD_MOVERIGHT, count);
    }

    // ------------------------------------------------------------ backlight

    /**
     * `setBacklight(r, g, b)`: remaps each channel onto its 30 steps, clears
     * DISPLAYON in the mirror, and sends display off, the three channels and
     * display on in one frame; the mirror ends with DISPLAYON set.
     */
    method SetBacklight(r: byte, g: byte, b: byte)
      modifies this, bus
      ensures displayControl == WithFlag(old(displayControl), LCD_DISPLAYON)
      ensures displayMode == old(displayMode) && i2cAddr == old(i2cAddr)
      ensures Sent(i2cAddr, BacklightFrame(WithoutFlag(old(displayControl), LCD_DISPLAYON), r, g, b), 100, [])
    {
      displayControl := WithoutFlag(displayControl, LCD_DISPLAYON);
      var displayOn := WithFlag(displayControl, LCD_DISPLAYON);
      var buffer := BacklightFrame(displayControl, r, g, b);
      displayControl := displayOn;
      assert buffer[..|buffer|] == buffer;
      var _ := Write(buffer, |buffer|, 100);
    }

    /** `setBacklight(rgb)`: the channels of a packed 0x00RRGGBB value. */
    method SetBacklightRgb(rgb: bv32)
      modifies this, bus
      ensures displayControl == WithFlag(old(displayControl), LCD_DISPLAYON)
      ensures displayMode == old(displayMode) && i2cAddr == old(i2cAddr)
      ensures Sent(i2cAddr, BacklightFrame(WithoutFlag(old(displayControl), LCD_DISPLAYON), Unpack(rgb).0, Unpack(rgb).1, Unpack(rgb).2), 100, [])
    {
      var (r, g, b) := Unpack(rgb);
      SetBacklight(r, g, b);
    }

    /** `setFastBacklight(r, g, b)`: the raw channel values in one RGB setting. */
    method SetFastBacklight(r: byte, g: byte, b: byte)
      modifies bus
      ensures Sent(i2cAddr, FastBacklightFrame(r, g, b), 10, [Delay(20)])
    {
      var buffer := [SETTING_COMMAND, SET_RGB_COMMAND, r, g, b];
      assert buffer[..|buffer|] == buffer;
      var _ := WriteBuffer(buffer, |buffer|);
    }

    /** `setFastBacklight(rgb)`. */
    method SetFastBacklightRgb(rgb: bv32)
      modifies bus
      ensures Sent(i2cAddr, FastBacklightFrame(Unpack(rgb).0, Unpack(rgb).1, Unpack(rgb).2), 10, [Delay(20)])
    {
      var (r, g, b) := Unpack(rgb);
      SetFastBacklight(r, g, b);
    }

    // ------------------------------------------------------------ firmware settings

    /** `enableSystemMessages()`. */
    method EnableSystemMessages()
      modifies bus
      ensures Sent(i2cAddr, CommandFrame(ENABLE_SYSTEM_MESSAGE_DISPLAY), 10, [Delay(20)])
    {
      Command(ENABLE_SYSTEM_MESSAGE_DISPLAY);
    }

    /** `disableSystemMessages()`. */
    method DisableSystemMessages()
      modifies bus
      ensures Sent(i2cAddr, CommandFrame(DISABLE_SYSTEM_MESSAGE_DISPLAY), 10, [Delay(20)])
    {
      Command(DISABLE_SYSTEM_MESSAGE_DISPLAY);
    }

    /** `enableSplash()`. */
    method EnableSplash()
      modifies bus
      ensures Sent(i2cAddr, CommandFrame(ENABLE_SPLASH_DISPLAY), 10, [Delay(20)])
    {
      Command(ENABLE_SPLASH_DISPLAY);
    }

    /** `disableSplash()`. */
    method DisableSplash()
      modifies bus
      ensures Sent(i2cAddr, CommandFrame(DISABLE_SPLASH_DISPLAY), 10, [Delay(20)])
    {
      Command(DISABLE_SPLASH_DISPLAY);
    }

    /** `saveSplash()`. */
    method SaveSplash()
      modifies bus
      ensures Sent(i2cAddr, CommandFrame(SAVE_CURRENT_DISPLAY_AS_SPLASH), 10, [Delay(20)])
    {
      Command(SAVE_CURRENT_DISPLAY_AS_SPLASH);
    }

    // ------------------------------------------------------------ entry mode toggles

    /** `leftToRight()`. */
    method LeftToRight()
      modifies this, bus
      ensures displayMode == WithFlag(old(displayMode), LCD_ENTRYLEFT)
      ensures displayControl == old(displayControl) && i2cAddr == old(i2cAddr)
      ensures Sent(i2cAddr, SpecialFrame(LCD_ENTRYMODESET | displayMode), 50, [])
    {
      displayMode := WithFlag(displayMode, LCD_ENTRYLEFT);
      SpecialCommand(LCD_ENTRYMODESET | displayMode);
    }

    /** `rightToLeft()`. */
    method RightToLeft()
      modifies this, bus
      ensures displayMode == WithoutFlag(old(displayMode), LCD_ENTRYLEFT)
      ensures displayControl == old(displayControl) && i2cAddr == old(i2cAddr)
      ensures Sent(i2cAddr, SpecialFrame(LCD_ENTRYMODESET | displayMode), 50, [])
    {
      displayMode := WithoutFlag(displayMode, LCD_ENTRYLEFT);
      SpecialCommand(LCD_ENTRYMODESET | displayMode);
    }

    /** `autoscroll()`. */
    method Autoscroll()
      modifies this, bus
      ensures displayMode == WithFlag(old(displayMode), LCD_ENTRYSHIFTINCREMENT)
      ensures displayControl == old(displayControl) && i2cAddr == old(i2cAddr)
      ensures Sent(i2cAddr, SpecialFrame(LCD_ENTRYMODESET | displayMode), 50, [])
    {
      displayMode := WithFlag(displayMode, LCD_ENTRYSHIFTINCREMENT);
      SpecialCommand(LCD_ENTRYMODESET | displayMode);
    }

    /** `noAutoscroll()`. */
    method NoAutoscroll()
      modifies this, bus
      ensures displayMode == WithoutFlag(old(displayMode), LCD_ENTRYSHIFTINCREMENT)
      ensures displayControl == old(displayControl) && i2cAddr == old(i2cAddr)
      ensures Sent(i2cAddr, SpecialFrame(LCD_ENTRYMODESET | displayMode), 50, [])
    {
      displayMode := WithoutFlag(displayMode, LCD_ENTRYSHIFTINCREMENT);
      SpecialCommand(LCD_ENTRYMODESET | displayMode);
    }

    // ------------------------------------------------------------ contrast and address

    /** `setContrast(v)`: changes no mirror. */
    method SetContrast(v: byte)
      modifies bus
      ensures Sent(i2cAddr, ContrastFrame(v), 10, [Delay(20)])
    {
      var buffer := [SETTING_COMMAND, CONTRAST_COMMAND, v];
      assert buffer[..|buffer|] == buffer;
      var _ := WriteBuffer(buffer, |buffer|);
    }

    /** `setAddress(a)`: tells the display at the old address its new one, then adopts it. */
    method SetAddress(a: byte)
      modifies this, bus
      ensures i2cAddr == a
      ensures displayControl == old(displayControl) && displayMode == old(displayMode)
      ensures Sent(old(i2cAddr), AddressFrame(a), 60, [])
    {
      var buffer := [SETTING_COMMAND, ADDRESS_COMMAND, a];
      assert buffer[..|buffer|] == buffer;
      var _ := Write(buffer, |buffer|, 60);
      i2cAddr := a;
    }

    /** `getAddress()`. */
    method GetAddress() returns (a: byte)
      ensures a == i2cAddr
    {
      a := i2cAddr;
    }
  }
}
