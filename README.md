# SerLCD driver model

A Dafny model of the `SerLCD` class from the ESP-IDF port of the SparkFun
OpenLCD driver. The class has two jobs:
- it turns typed display operations into the exact byte frames of the OpenLCD
  command protocol;
- it sends each frame to the display over I2C through a bounded-retry write.

The model has five modules:

- `OpenLcd` holds the protocol's byte constants and a grammar of the byte
  stream the display firmware reads. The grammar is `Command`, `Bytes`,
  `Encode`, `DecodeFirst` and `Decode`. Both round trips are proved:
  `DecodeEncode` and `EncodeDecode`. Concatenation is handled by
  `EncodeAppend` and `DecodeAppend`. The grammar is the reference against
  which every frame the driver builds is checked.
- `Frames` holds the pure logic:
  - setting and clearing flags;
  - C's truncating division and the Arduino `map`;
  - the remapping of a backlight channel onto 30 brightness steps;
  - unpacking a 0x00RRGGBB value;
  - the cursor instruction;
  - `strlen`;
  - one function per frame builder.

  Each frame builder states, in its contract or in a lemma beside it, the
  commands the firmware reads from the frame.
- `I2c` models the bus as an oracle. Class `Bus` answers the n-th transfer
  attempt with `replies(n)`, which is `Ok`, `Timeout` or `Failed`. A ghost log
  records every transfer (address, bytes, timeout ticks, result) and every
  requested delay. `Attempts` is the reference for how many attempts the retry
  loop makes. `WriteTrace` is the reference for the events those attempts leave.
- `SerLcd` holds class `SerLCD`, with the three mirrored fields
  `displayControl`, `displayMode` and `i2cAddr`. Each operation is a method
  that updates a field the way the driver does, then sends the frame built
  from it. Each method's `ensures` states two things:
  - the new value of every field;
  - the exact events appended to the bus log. This is the twostate predicate
    `Sent`: one retrying write of a given frame to a given address, followed
    by any extra delays.
- `Wrappers` holds `Option`, which models a possibly-null C string.

## Model

Every source cell is a path and line range in the repository.

| member | source | states |
|---|---|---|
| OpenLcd.DecodeEncode | components/SparkFun_SerLCD_ESP-IDF_Library/SerLCD.cpp:49-85 | the firmware reads back exactly the well-formed commands that were encoded into the protocol stream |
| OpenLcd.EncodeDecode | components/SparkFun_SerLCD_ESP-IDF_Library/SerLCD.cpp:49-85 | every stream that decodes is the encoding of the well-formed commands it decodes to |
| OpenLcd.DecodeFirstBytes | components/SparkFun_SerLCD_ESP-IDF_Library/SerLCD.cpp:49-85 | a well-formed command is read from the front of any stream, leaving the rest untouched |
| OpenLcd.DecodeFirstSound | components/SparkFun_SerLCD_ESP-IDF_Library/SerLCD.cpp:49-85 | whatever is read first is well formed and is exactly the bytes consumed |
| OpenLcd.DecodeAppend | components/SparkFun_SerLCD_ESP-IDF_Library/SerLCD.cpp:49-85 | two decodable frames sent back to back are read as the first frame's commands, then the second's |
| OpenLcd.EncodeAppend | components/SparkFun_SerLCD_ESP-IDF_Library/SerLCD.cpp:49-85 | encoding distributes over concatenation of command lists |
| OpenLcd.DecodeSingle | components/SparkFun_SerLCD_ESP-IDF_Library/SerLCD.cpp:49-85 | one well-formed command's bytes decode to that command alone |
| Frames.WithFlag | components/SparkFun_SerLCD_ESP-IDF_Library/SerLCD.cpp:473-476 | `state \|= flag` sets every bit of the flag and leaves all other bits as they were |
| Frames.WithoutFlag | components/SparkFun_SerLCD_ESP-IDF_Library/SerLCD.cpp:464-467 | `state &= ~flag` clears every bit of the flag and leaves all other bits as they were |
| Frames.WithFlagIdempotent | components/SparkFun_SerLCD_ESP-IDF_Library/SerLCD.cpp:464-513 | setting a flag twice, or after clearing it, gives the same state as setting it once |
| Frames.WithoutFlagIdempotent | components/SparkFun_SerLCD_ESP-IDF_Library/SerLCD.cpp:464-513 | clearing a flag twice, or after setting it, gives the same state as clearing it once |
| Frames.ToggleChangesAtMostOneBit | components/SparkFun_SerLCD_ESP-IDF_Library/SerLCD.cpp:464-513 | each toggle flag is a single bit, and setting or clearing it changes at most that bit: exactly that bit when the state differed, nothing when it already had the value |
| Frames.CDiv | components/SparkFun_SerLCD_ESP-IDF_Library/SerLCD.cpp:351 | C's `/` on `long`: the quotient's magnitude is the floor of the magnitudes' quotient, and a non-zero quotient is positive exactly when dividend and divisor agree in sign, so it rounds toward zero |
| Frames.Map | components/SparkFun_SerLCD_ESP-IDF_Library/SerLCD.cpp:349-352 | `map(x, in_min, in_max, out_min, out_max)`: (x - in_min) * (out_max - out_min) divided with C division by (in_max - in_min), plus out_min; its properties are the Map lemmas below |
| Frames.CDivTruncates | components/SparkFun_SerLCD_ESP-IDF_Library/SerLCD.cpp:349-352 | the division in `map` is C's: the remainder is smaller than the divisor in magnitude and has the dividend's sign |
| Frames.CDivNatural | components/SparkFun_SerLCD_ESP-IDF_Library/SerLCD.cpp:349-352 | for a non-negative dividend and a positive divisor, C division equals floor division |
| Frames.CDivExact | components/SparkFun_SerLCD_ESP-IDF_Library/SerLCD.cpp:349-352 | dividing a multiple of d by d is exact |
| Frames.CDivRange | components/SparkFun_SerLCD_ESP-IDF_Library/SerLCD.cpp:349-352 | a dividend in [0, d*w] gives a quotient in [0, w] |
| Frames.MapEndpoints | components/SparkFun_SerLCD_ESP-IDF_Library/SerLCD.cpp:349-352 | `map` takes in_min to out_min and in_max to out_max |
| Frames.MapWithinRange | components/SparkFun_SerLCD_ESP-IDF_Library/SerLCD.cpp:349-352 | for ascending ranges, `map` takes the input range into the output range |
| Frames.MapFromZero | components/SparkFun_SerLCD_ESP-IDF_Library/SerLCD.cpp:349-352 | from a zero-based range of naturals, `map` is x * out_max / in_max rounded down |
| Frames.BrightnessStep | components/SparkFun_SerLCD_ESP-IDF_Library/SerLCD.cpp:618-620 | the step a channel intensity is folded to is below 30 |
| Frames.BrightnessStepFloor | components/SparkFun_SerLCD_ESP-IDF_Library/SerLCD.cpp:618-620 | the step is the largest s with s * 255 <= v * 29 |
| Frames.BrightnessStepIsMap | components/SparkFun_SerLCD_ESP-IDF_Library/SerLCD.cpp:618-620 | the step is what `map(v, 0, 255, 0, 29)` returns |
| Frames.BrightnessStepOnto | components/SparkFun_SerLCD_ESP-IDF_Library/SerLCD.cpp:618-620 | every one of the 30 steps is produced by some intensity |
| Frames.BrightnessStepMonotone | components/SparkFun_SerLCD_ESP-IDF_Library/SerLCD.cpp:618-620 | a brighter request never gives a lower step |
| Frames.ChannelCommand | components/SparkFun_SerLCD_ESP-IDF_Library/SerLCD.cpp:618-620 | the channel byte lies in [base, base + 30): red in [128,157], green in [158,187], blue in [188,217] |
| Frames.ChannelCommandIsMap | components/SparkFun_SerLCD_ESP-IDF_Library/SerLCD.cpp:618-620 | the channel byte equals the base plus `map(v, 0, 255, 0, 29)`, and the conversion to `uint8_t` does not truncate |
| Frames.Unpack | components/SparkFun_SerLCD_ESP-IDF_Library/SerLCD.cpp:601-606 | the three channels repack into the low 24 bits of the argument |
| Frames.UnpackPack | components/SparkFun_SerLCD_ESP-IDF_Library/SerLCD.cpp:649-654 | unpacking recovers the packed red, green and blue whatever the top byte holds |
| Frames.ClampRow | components/SparkFun_SerLCD_ESP-IDF_Library/SerLCD.cpp:366 | the row becomes min(row, MAX_ROWS - 1) |
| Frames.CursorCommand | components/SparkFun_SerLCD_ESP-IDF_Library/SerLCD.cpp:361-370 | the instruction has the set-DDRAM-address bit set; its low 7 bits are those of the column plus the clamped row's offset, truncated to 8 bits |
| Frames.CursorFrame | components/SparkFun_SerLCD_ESP-IDF_Library/SerLCD.cpp:361-371 | the frame decodes as the single set-DDRAM-address instruction |
| Frames.CursorFrameExample | components/SparkFun_SerLCD_ESP-IDF_Library/SerLCD.cpp:361-371 | `setCursor(0, 1)` sends SPECIAL_COMMAND, then LCD_SETDDRAMADDR \| 0x40 |
| Frames.StrLen | components/SparkFun_SerLCD_ESP-IDF_Library/SerLCD.cpp:454-459 | `strlen` is the index of the first NUL: that byte is zero and none before it is |
| Frames.CommandFrame | components/SparkFun_SerLCD_ESP-IDF_Library/SerLCD.cpp:284-292 | the frame is exactly the two bytes 0x7C, c; it decodes as `Setting(c)` when c takes no data, and does not decode on its own otherwise |
| Frames.ClearFrameBytes | components/SparkFun_SerLCD_ESP-IDF_Library/SerLCD.cpp:331-334 | `clear()` sends exactly 0x7C 0x2D |
| Frames.SpecialFrame | components/SparkFun_SerLCD_ESP-IDF_Library/SerLCD.cpp:299-306 | the frame is two bytes and decodes as the one instruction c |
| Frames.RepeatedSpecialFrame | components/SparkFun_SerLCD_ESP-IDF_Library/SerLCD.cpp:315-324 | the repeated frame holds exactly 2 * n bytes |
| Frames.RepeatedSpecialFrameAt | components/SparkFun_SerLCD_ESP-IDF_Library/SerLCD.cpp:317-322 | SPECIAL_COMMAND sits at every even index and c at every odd index |
| Frames.RepeatedSpecialFrameEncodes | components/SparkFun_SerLCD_ESP-IDF_Library/SerLCD.cpp:315-324 | the repeated frame is the encoding of n copies of `Special(c)` |
| Frames.RepeatedSpecialFrameDecodes | components/SparkFun_SerLCD_ESP-IDF_Library/SerLCD.cpp:315-324 | the firmware reads n copies of the instruction from the repeated frame |
| Frames.Repeat | components/SparkFun_SerLCD_ESP-IDF_Library/SerLCD.cpp:315-324 | n copies of one command: length n, every element that command |
| Frames.InitFrame | components/SparkFun_SerLCD_ESP-IDF_Library/SerLCD.cpp:264-276 | six bytes that decode as display control from the mirror, entry mode from the mirror, then clear |
| Frames.GlyphSlot | components/SparkFun_SerLCD_ESP-IDF_Library/SerLCD.cpp:380 | `location & 0x7` is below 8 and equals the location modulo 8, so out-of-range slots wrap |
| Frames.GlyphFrame | components/SparkFun_SerLCD_ESP-IDF_Library/SerLCD.cpp:378-390 | ten bytes: 0x7C, a create code in [27,34], then the first eight charmap rows in order; they decode as one `Glyph` of the wrapped slot |
| Frames.WriteCharFrame | components/SparkFun_SerLCD_ESP-IDF_Library/SerLCD.cpp:397-402 | two bytes with a print code in [35,42] that decode as printing the wrapped slot |
| Frames.ChannelIsSetting | components/SparkFun_SerLCD_ESP-IDF_Library/SerLCD.cpp:83-85 | a channel command byte is a plain setting that takes no data bytes |
| Frames.BacklightFrame | components/SparkFun_SerLCD_ESP-IDF_Library/SerLCD.cpp:621-640 | the backlight frame is one 10-byte buffer |
| Frames.BacklightFrameDecodes | components/SparkFun_SerLCD_ESP-IDF_Library/SerLCD.cpp:621-640 | the frame decodes as display off, red, green, blue, then display on with every other control bit as before |
| Frames.BracketedSettingsDecode | components/SparkFun_SerLCD_ESP-IDF_Library/SerLCD.cpp:626-638 | three data-less settings between two instructions decode as those five commands in order |
| Frames.FastBacklightFrame | components/SparkFun_SerLCD_ESP-IDF_Library/SerLCD.cpp:660-672 | 0x7C, 0x2B, then the raw r, g, b with no remapping; decodes as one `Rgb(r, g, b)` |
| Frames.ContrastFrame | components/SparkFun_SerLCD_ESP-IDF_Library/SerLCD.cpp:751-761 | three bytes that decode as one `Contrast(v)` |
| Frames.AddressFrame | components/SparkFun_SerLCD_ESP-IDF_Library/SerLCD.cpp:771-779 | three bytes that decode as one `Address(a)` |
| Frames.TextByteDecodes | components/SparkFun_SerLCD_ESP-IDF_Library/SerLCD.cpp:408-417 | a byte that is not a prefix is read as a literal character |
| I2c.Bus.WriteToDevice | components/SparkFun_SerLCD_ESP-IDF_Library/SerLCD.cpp:441 | one transfer attempt consumes the next bus reply and is logged with its address, bytes, ticks and result |
| I2c.Bus.DelayMs | components/SparkFun_SerLCD_ESP-IDF_Library/SerLCD.cpp:442 | a delay is logged with its length and changes nothing else |
| I2c.Attempts | components/SparkFun_SerLCD_ESP-IDF_Library/SerLCD.cpp:439-447 | 1 to 3 attempts; every attempt before the last timed out; stopping early means the last reply was not a timeout |
| I2c.WriteTraceAt | components/SparkFun_SerLCD_ESP-IDF_Library/SerLCD.cpp:440-447 | attempt j transfers the whole buffer to the address with the 10 ms timeout, and a delay of ms follows every attempt, the last included |
| I2c.WriteTraceLength | components/SparkFun_SerLCD_ESP-IDF_Library/SerLCD.cpp:440-447 | k attempts leave exactly 2 * k events |
| I2c.RetryStopsAfterTimeouts | components/SparkFun_SerLCD_ESP-IDF_Library/SerLCD.cpp:447 | n timeouts (n < 3) followed by any other reply mean exactly n + 1 attempts |
| I2c.RetryExhausted | components/SparkFun_SerLCD_ESP-IDF_Library/SerLCD.cpp:447 | timeouts on every attempt use the whole budget of three |
| I2c.NoRetryUnlessTimeout | components/SparkFun_SerLCD_ESP-IDF_Library/SerLCD.cpp:447 | a first reply that is not a timeout, success or another error, ends the write after one attempt |
| SerLcd.SerLCD.constructor | components/SparkFun_SerLCD_ESP-IDF_Library/SerLCD.cpp:105-107 | a new driver has display on, cursor off, blink off, left-to-right entry, no autoscroll, and address 0x72 |
| SerLcd.SerLCD.Write | components/SparkFun_SerLCD_ESP-IDF_Library/SerLCD.cpp:436-448 | the first size bytes are sent to the current address in `Attempts` tries, each followed by a delay of ms; the call returns size whatever the bus replied |
| SerLcd.SerLCD.WriteByte | components/SparkFun_SerLCD_ESP-IDF_Library/SerLCD.cpp:408-417 | one retrying write of the byte with 10 ms per attempt, then 10 ms more; returns 1 |
| SerLcd.SerLCD.WriteBuffer | components/SparkFun_SerLCD_ESP-IDF_Library/SerLCD.cpp:422-431 | one retrying write of the first size bytes with 10 ms per attempt, then 20 ms more; returns size |
| SerLcd.SerLCD.WriteString | components/SparkFun_SerLCD_ESP-IDF_Library/SerLCD.cpp:454-459 | a null string sends nothing and returns 0; otherwise the bytes before the NUL are sent as in `write(buffer, size)` and their number is returned |
| SerLcd.SerLCD.Init | components/SparkFun_SerLCD_ESP-IDF_Library/SerLCD.cpp:264-276 | the init frame built from the two mirrors is sent with 60 ms per attempt |
| SerLcd.SerLCD.Begin | components/SparkFun_SerLCD_ESP-IDF_Library/SerLCD.cpp:129-135 | initialises the display at the current address |
| SerLcd.SerLCD.BeginAt | components/SparkFun_SerLCD_ESP-IDF_Library/SerLCD.cpp:119-124 | adopts the address, then sends the init frame there; the other mirrors are unchanged |
| SerLcd.SerLCD.Command | components/SparkFun_SerLCD_ESP-IDF_Library/SerLCD.cpp:284-292 | sends [0x7C, c] through `write(buffer, size)` |
| SerLcd.SerLCD.SpecialCommand | components/SparkFun_SerLCD_ESP-IDF_Library/SerLCD.cpp:299-306 | sends [SPECIAL_COMMAND, c] with 50 ms per attempt |
| SerLcd.SerLCD.SpecialCommandRepeat | components/SparkFun_SerLCD_ESP-IDF_Library/SerLCD.cpp:315-324 | sends the 2 * count byte repeated frame in one write with 60 ms per attempt |
| SerLcd.SerLCD.FillPairs | components/SparkFun_SerLCD_ESP-IDF_Library/SerLCD.cpp:317-322 | the filled buffer equals the repeated frame |
| SerLcd.SerLCD.Clear | components/SparkFun_SerLCD_ESP-IDF_Library/SerLCD.cpp:331-334 | sends the clear setting |
| SerLcd.SerLCD.Home | components/SparkFun_SerLCD_ESP-IDF_Library/SerLCD.cpp:341-344 | sends the return-home instruction |
| SerLcd.SerLCD.SetCursor | components/SparkFun_SerLCD_ESP-IDF_Library/SerLCD.cpp:361-371 | sends the cursor instruction with 50 ms per attempt, then 10 ms more |
| SerLcd.SerLCD.CreateChar | components/SparkFun_SerLCD_ESP-IDF_Library/SerLCD.cpp:378-390 | the copy loop sends exactly the glyph frame with 60 ms per attempt |
| SerLcd.SerLCD.WriteChar | components/SparkFun_SerLCD_ESP-IDF_Library/SerLCD.cpp:397-402 | sends the print-glyph setting of the wrapped slot |
| SerLcd.SerLCD.NoDisplay | components/SparkFun_SerLCD_ESP-IDF_Library/SerLCD.cpp:464-468 | clears DISPLAYON in the mirror, then sends display control built from the new mirror; the other fields are unchanged |
| SerLcd.SerLCD.Display | components/SparkFun_SerLCD_ESP-IDF_Library/SerLCD.cpp:473-477 | sets DISPLAYON in the mirror, then sends display control built from the new mirror; the other fields are unchanged |
| SerLcd.SerLCD.NoCursor | components/SparkFun_SerLCD_ESP-IDF_Library/SerLCD.cpp:482-486 | clears CURSORON in the mirror, then sends display control built from the new mirror; the other fields are unchanged |
| SerLcd.SerLCD.Cursor | components/SparkFun_SerLCD_ESP-IDF_Library/SerLCD.cpp:491-495 | sets CURSORON in the mirror, then sends display control built from the new mirror; the other fields are unchanged |
| SerLcd.SerLCD.NoBlink | components/SparkFun_SerLCD_ESP-IDF_Library/SerLCD.cpp:500-504 | clears BLINKON in the mirror, then sends display control built from the new mirror; the other fields are unchanged |
| SerLcd.SerLCD.Blink | components/SparkFun_SerLCD_ESP-IDF_Library/SerLCD.cpp:509-513 | sets BLINKON in the mirror, then sends display control built from the new mirror; the other fields are unchanged |
| SerLcd.SerLCD.ScrollDisplayLeft | components/SparkFun_SerLCD_ESP-IDF_Library/SerLCD.cpp:519-522 | sends the display-shift-left instruction |
| SerLcd.SerLCD.ScrollDisplayLeftBy | components/SparkFun_SerLCD_ESP-IDF_Library/SerLCD.cpp:530-533 | sends count display-shift-left instructions in one frame |
| SerLcd.SerLCD.ScrollDisplayRight | components/SparkFun_SerLCD_ESP-IDF_Library/SerLCD.cpp:539-542 | sends the display-shift-right instruction |
| SerLcd.SerLCD.ScrollDisplayRightBy | components/SparkFun_SerLCD_ESP-IDF_Library/SerLCD.cpp:550-553 | sends count display-shift-right instructions in one frame |
| SerLcd.SerLCD.MoveCursorLeft | components/SparkFun_SerLCD_ESP-IDF_Library/SerLCD.cpp:558-561 | sends the cursor-shift-left instruction |
| SerLcd.SerLCD.MoveCursorLeftBy | components/SparkFun_SerLCD_ESP-IDF_Library/SerLCD.cpp:568-571 | sends count cursor-shift-left instructions in one frame |
| SerLcd.SerLCD.MoveCursorRight | components/SparkFun_SerLCD_ESP-IDF_Library/SerLCD.cpp:576-579 | sends the cursor-shift-right instruction |
| SerLcd.SerLCD.MoveCursorRightBy | components/SparkFun_SerLCD_ESP-IDF_Library/SerLCD.cpp:586-589 | sends count cursor-shift-right instructions in one frame |
| SerLcd.SerLCD.SetBacklightRgb | components/SparkFun_SerLCD_ESP-IDF_Library/SerLCD.cpp:601-609 | same as `SetBacklight` on the unpacked channels |
| SerLcd.SerLCD.SetBacklight | components/SparkFun_SerLCD_ESP-IDF_Library/SerLCD.cpp:615-646 | sends the backlight frame built with DISPLAYON cleared, with 100 ms per attempt; afterwards the mirror has DISPLAYON set and its other bits as before |
| SerLcd.SerLCD.SetFastBacklightRgb | components/SparkFun_SerLCD_ESP-IDF_Library/SerLCD.cpp:649-657 | same as `SetFastBacklight` on the unpacked channels |
| SerLcd.SerLCD.SetFastBacklight | components/SparkFun_SerLCD_ESP-IDF_Library/SerLCD.cpp:660-672 | sends [0x7C, 0x2B, r, g, b] through `write(buffer, size)` |
| SerLcd.SerLCD.EnableSystemMessages | components/SparkFun_SerLCD_ESP-IDF_Library/SerLCD.cpp:676-679 | sends the enable-system-messages setting |
| SerLcd.SerLCD.DisableSystemMessages | components/SparkFun_SerLCD_ESP-IDF_Library/SerLCD.cpp:683-686 | sends the disable-system-messages setting |
| SerLcd.SerLCD.EnableSplash | components/SparkFun_SerLCD_ESP-IDF_Library/SerLCD.cpp:689-692 | sends the enable-splash setting |
| SerLcd.SerLCD.DisableSplash | components/SparkFun_SerLCD_ESP-IDF_Library/SerLCD.cpp:695-698 | sends the disable-splash setting |
| SerLcd.SerLCD.SaveSplash | components/SparkFun_SerLCD_ESP-IDF_Library/SerLCD.cpp:701-706 | sends the save-splash setting |
| SerLcd.SerLCD.LeftToRight | components/SparkFun_SerLCD_ESP-IDF_Library/SerLCD.cpp:712-716 | sets ENTRYLEFT in the entry mode mirror, then sends entry mode built from the new mirror; the other fields are unchanged |
| SerLcd.SerLCD.RightToLeft | components/SparkFun_SerLCD_ESP-IDF_Library/SerLCD.cpp:721-725 | clears ENTRYLEFT in the entry mode mirror, then sends entry mode built from the new mirror; the other fields are unchanged |
| SerLcd.SerLCD.Autoscroll | components/SparkFun_SerLCD_ESP-IDF_Library/SerLCD.cpp:731-735 | sets ENTRYSHIFTINCREMENT in the entry mode mirror, then sends entry mode built from the new mirror; the other fields are unchanged |
| SerLcd.SerLCD.NoAutoscroll | components/SparkFun_SerLCD_ESP-IDF_Library/SerLCD.cpp:740-744 | clears ENTRYSHIFTINCREMENT in the entry mode mirror, then sends entry mode built from the new mirror; the other fields are unchanged |
| SerLcd.SerLCD.SetContrast | components/SparkFun_SerLCD_ESP-IDF_Library/SerLCD.cpp:751-761 | sends the contrast frame through `write(buffer, size)` and changes no field |
| SerLcd.SerLCD.SetAddress | components/SparkFun_SerLCD_ESP-IDF_Library/SerLCD.cpp:771-782 | sends the address frame to the old address, then adopts the new one; every later frame goes to it |
| SerLcd.SerLCD.GetAddress | components/SparkFun_SerLCD_ESP-IDF_Library/SerLCD.cpp:789-792 | returns the current address |

## Left out

- The I2C transfer `i2c_master_write_to_device` is a call into ESP-IDF. It is
  the `Bus` oracle. The bus can answer `Ok`, `Timeout` or `Failed`, and
  `Failed` stands for every other `esp_err_t`. Nothing about how the display
  reacts to the bytes is modelled beyond the command grammar.
- `DELAY` (`vTaskDelay`) has no time semantics here. Only the requested number
  of milliseconds is recorded in the log.
- The tick conversions are modelled with an assumed value.
  `pdMS_TO_TICKS` is left out. `10 / portTICK_PERIOD_MS` assumes the ESP-IDF
  default tick period of 10 ms, which gives one tick (`BUS_TIMEOUT_TICKS`).
- `ESP_LOGI` logging is left out. So is the log line's read of `buffer[1]` in
  `write(buffer, size, ms)`, which reads out of bounds when `size` is 1, as
  `write(b)` passes.
- The commented-out serial and SPI transports (lines 137-258) are dead code.
- `begin` also stores the `i2c_port_t` handle. The model has only one bus,
  so nothing is stored.
- `print()` comes from a base class that is not part of this model.
- SerLCD.h is not part of this model. So the `LCD_*` and OpenLCD constants, and
  the field defaults, are taken from two places:
  - the HD44780 instruction set;
  - OpenLCD's command list at lines 49-85.

  The defaults used are display on with cursor and blink off, left-to-right
  entry without shift, and address 0x72.
- Frames.CDivTruncates: `map` works on 32-bit `long`. The model computes on
  unbounded integers, so overflow of `(x - in_min) * (out_max - out_min)` is
  not modelled. The driver only calls `map` with values up to 255 * 29, where
  no overflow occurs.
- SerLcd.SerLCD.Write: the `uint16_t ms` parameter is modelled as a natural
  number, so delays longer than 65535 ms are not truncated. Every caller passes
  a constant of at most 100.
- SerLcd.SerLCD.Write: the buffer is passed by value, as a sequence, instead
  of as a pointer. So aliasing between the buffer and the driver is not
  modelled. The model takes the frame the code passes, not a copy of it.
- SerLcd.SerLCD.FillPairs: the loop of `specialCommand(c, count)` is a
  separate static method. It works on a fresh array, exactly as the
  variable-length local buffer does.
- Overloads get their own names in Dafny: `WriteByte`, `WriteBuffer`,
  `WriteString`, `SpecialCommandRepeat`, `BeginAt`, the `...By(count)` forms,
  and `SetBacklightRgb` and `SetFastBacklightRgb`.
- Error reporting: `write` returns `size` whatever the bus answered, and the
  model does the same. No operation reports failure to its caller. This
  follows the code, not a design in which `write` would return an error.
