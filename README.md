# SSD1306 SPI driver model

A Dafny model of the Arduino driver in `ssd1306-lib.c`, which drives an
SSD1306 OLED controller over SPI with a DC (data/command) line. It covers:

- the RAM framebuffer `vram`;
- the byte stream the driver clocks out to the controller.

The code is in two modules:

- `Ssd1306Spec` (`ssd1306_spec.dfy`) holds the pure part:
  - the panel geometry and the page layout of the buffer;
  - the index and mask arithmetic of `pixel`;
  - the command tables;
  - the byte streams seen as sequences of bus events;
  - the lemmas about all of these.
- `Ssd1306` (`ssd1306_driver.dfy`) holds the class `Driver`, which has three pieces of state:
  - the buffer, as a nullable `array<bv8>`;
  - the level of the DC line;
  - a ghost trace `bus` of every `SPI.transfer`, each recorded with the DC level it went out with.

  Every driver function is a method on `Driver`. Its postcondition gives the new buffer, or the events appended to `bus`, in terms of the functions of `Ssd1306Spec`.

`WIDTH`, `HEIGHT`, the colour codes `WHITE`, `BLACK` and `INVERSE` and the
controller opcodes are defined outside the file. The model handles them as follows:

- Opcodes whose value the file states in a comment are module constants, for example `SETCONTRAST = 0x81`.
- The rest are constructor parameters of `Driver`:
  - `Geometry` for the width and height;
  - `Palette` for the colour codes;
  - `Opcodes` for PAGEADDR, COLUMNADDR, SETSTARTLINE, SEGREMAP, DEACTIVATE_SCROLL and DISPLAYON.

  Nothing is assumed about them, except where a property needs the three colour codes to be distinct, as the labels of one C `switch` must be.

The C integer behaviour is written out:

- `y / 8` truncates toward zero (`CDiv8`).
- `y & 7` is `y` modulo 8 (`BitOf`).
- The `uint8_t` arguments `WIDTH - 1` and `HEIGHT - 1` are reduced modulo 256 (`LowByte`).
- The flush counter is a `uint16_t`, so it is the buffer size modulo 65536 (`FlushCount`).

The model follows the code as written in three places:

- The flush sends `vram[0]` on every transfer, because `ptr` is never advanced. See the findings below.
- `pixel` has no bounds check. `Driver.Pixel` therefore requires an on-screen pixel, and `Driver.PixelChecked` adds the check.
- `start` flushes the freshly cleared buffer before the reset pulse, as `clear(); afisare();` at ssd1306-lib.c:57-58 does.

## Model

| member | source | states |
|---|---|---|
| Ssd1306.Driver.constructor | ssd1306-lib.c:54 | A new driver holds no buffer, which is what the `!vram` test of `start` relies on. It has the DC line low and has sent nothing. The colour codes must be distinct, and `Valid()` keeps that fact. |
| Ssd1306.Driver.SpiTransfer | ssd1306-lib.c:19 | One `SPI.transfer` appends one event: the byte and the current DC level. |
| Ssd1306.Driver.SetDc | ssd1306-lib.c:18 | `digitalWrite(dc, …)` sets the DC level that later transfers carry. |
| Ssd1306.Driver.Command1 | ssd1306-lib.c:14-20 | Appends exactly one command-mode event carrying `c`, and leaves DC low. |
| Ssd1306.Driver.CommandList | ssd1306-lib.c:23-28 | Appends the first `n` table entries, in index order, all in command mode. The loop decrements `n` and advances through the table. |
| Ssd1306.Driver.Command | ssd1306-lib.c:31-39 | Appends exactly one command-mode event carrying `c`. |
| Ssd1306.Driver.Clear | ssd1306-lib.c:42-46 | Afterwards every byte of the buffer is zero, whatever it held before. Clearing twice is therefore the same as clearing once. |
| Ssd1306.Driver.Pixel | ssd1306-lib.c:162-168 | For an on-screen pixel, the new buffer is `Plot` of the old one with the operation the colour selects. Only the addressed byte can change. |
| Ssd1306.Driver.PixelChecked | ssd1306-lib.c:162-168 | The bounds-checked `pixel`. It draws exactly when (x, y) is on screen; otherwise the buffer is unchanged. |
| Ssd1306.Driver.SendAddressWindow | ssd1306-lib.c:139-147 | Appends the command-mode header PAGEADDR, 0, 0xFF, COLUMNADDR, 0, `WIDTH - 1`. |
| Ssd1306.Driver.Afisare | ssd1306-lib.c:134-159 | Appends `AfisareStream`: the header, then `count` data-mode copies of `vram[0]`. It leaves DC high and the buffer unchanged. |
| Ssd1306.Driver.AfisareIntended | ssd1306-lib.c:149-155 | The corrected flush: `ptr` advances and the loop runs once per buffer byte. It sends the header, then every buffer byte in order in data mode. The buffer is unchanged. |
| Ssd1306.Driver.Contrast | ssd1306-lib.c:121-131 | Appends exactly SETCONTRAST, then the level, both in command mode. The buffer is unchanged. |
| Ssd1306.Driver.Start | ssd1306-lib.c:49-118 | When the buffer is missing and cannot be obtained, nothing is sent. Otherwise it keeps or freshly obtains the buffer, leaves it all zero, and sends the flush of the zero buffer followed by the 26 init command bytes, and leaves DC low. On the malloc-failure return the DC level is unchanged. |
| Ssd1306.Driver.SendInitSequence | ssd1306-lib.c:68-114 | Appends `InitBytes` in command mode. |
| Ssd1306.Driver.SendInitHead | ssd1306-lib.c:69-86 | Appends init1, `HEIGHT - 1`, init2 and 0x14 in command mode. |
| Ssd1306.Driver.SendInitMiddle | ssd1306-lib.c:88-102 | Appends init3, init4b and 0xCF in command mode. |
| Ssd1306.Driver.SendInitTail | ssd1306-lib.c:104-114 | Appends SETPRECHARGE, 0xF1 and init5 in command mode. |
| Ssd1306Spec.IndexInBuffer | ssd1306-lib.c:164-166 | For every on-screen pixel, `x + (y/8)*WIDTH` lies inside the `WIDTH*((HEIGHT+7)/8)`-byte buffer. |
| Ssd1306Spec.AddressInjective | ssd1306-lib.c:164-166 | Two on-screen pixels share a byte exactly when they share x and `y/8`. They share a byte and a bit exactly when they are the same pixel. |
| Ssd1306Spec.SamePageSameByte | ssd1306-lib.c:164-166 | Pixels in one column and one page share a byte and differ only in bit `y & 7`. |
| Ssd1306Spec.OpFor | ssd1306-lib.c:163-167 | WHITE selects set and any other colour matching none of the three labels selects nothing. When the labels are distinct, BLACK selects clear and INVERSE selects toggle. Both directions are stated. |
| Ssd1306Spec.MaskValue | ssd1306-lib.c:164-166 | `1 << k` for k in 0..7 is the byte with only bit k set. |
| Ssd1306Spec.ApplyChangesOneBit | ssd1306-lib.c:164-166 | `\|=`, `&= ~` and `^=` with the mask give bit k its set, clear or flipped value and leave the other 7 bits unchanged. |
| Ssd1306Spec.Plot | ssd1306-lib.c:162-167 | One `pixel` call keeps the buffer length and leaves every byte except the addressed one unchanged. |
| Ssd1306Spec.PlotSemantics | ssd1306-lib.c:162-167 | After a `pixel` call the target pixel has the operation's value and every other on-screen pixel keeps its value. |
| Ssd1306Spec.OtherColourKeepsBuffer | ssd1306-lib.c:162-167 | A colour that is none of WHITE, BLACK or INVERSE leaves the buffer unchanged. |
| Ssd1306Spec.ToggleTwice | ssd1306-lib.c:166 | Toggling a pixel twice restores the original buffer. |
| Ssd1306Spec.SetThenClear | ssd1306-lib.c:164-165 | After WHITE the pixel is lit; after WHITE then BLACK it is dark. |
| Ssd1306Spec.ZerosAllDark | ssd1306-lib.c:42-46 | In the buffer `clear` leaves, no pixel is lit. |
| Ssd1306Spec.UncheckedIndexAliases | ssd1306-lib.c:164-166 | Without the bounds check, off-screen pixel (WIDTH, 0) writes the bit of on-screen pixel (0, 8), and the first row past the last page indexes one past the end of the buffer. |
| Ssd1306Spec.EventsAppend | ssd1306-lib.c:27 | Sending `a` then `b` is the same as sending `a + b`. |
| Ssd1306Spec.DataBytesAppend | ssd1306-lib.c:152-155 | The display data received from two consecutive streams is the data of the first followed by the data of the second. |
| Ssd1306Spec.DataBytesOfEvents | ssd1306-lib.c:7 | Command-mode bytes carry no display data; data-mode bytes arrive unchanged and in order. |
| Ssd1306Spec.FlushCount | ssd1306-lib.c:149 | The `uint16_t` count is at most the buffer size and below 65536, and equals the buffer size whenever the size fits. |
| Ssd1306Spec.Fill | ssd1306-lib.c:153-155 | `n` copies of one byte: length `n`, every element that byte. |
| Ssd1306Spec.AfisareStream | ssd1306-lib.c:139-155 | The flush as written is `6 + count` events: the six header bytes in command mode, then data-mode events all carrying `vram[0]`. |
| Ssd1306Spec.AfisareDelivers | ssd1306-lib.c:149-155 | The display receives exactly `count` data bytes from the flush as written, each equal to `vram[0]`. |
| Ssd1306Spec.IntendedFlushDelivers | ssd1306-lib.c:149-155 | The flush with `ptr` advanced delivers the buffer to the display byte for byte. |
| Ssd1306Spec.FlushRepeatsFirstByte | ssd1306-lib.c:153-155 | On a 2×8 panel whose columns are 0x00 and 0xFF, the flush as written delivers 0x00, 0x00, not the buffer. |
| Ssd1306Spec.UniformFlushAgrees | ssd1306-lib.c:57-58 | For a buffer whose bytes are all equal and whose size fits in 16 bits, the flush as written equals the intended flush. This covers the zeroed buffer `start` sends. |
| Ssd1306Spec.InitBytes | ssd1306-lib.c:69-114 | The init stream of `start` is 26 bytes long. |
| Ssd1306Spec.InitLayout | ssd1306-lib.c:69-114 | The init stream is, in order: init1, `HEIGHT-1`, init2, 0x14, init3, init4b, 0xCF, SETPRECHARGE, 0xF1, init5. It opens with DISPLAYOFF and ends with DISPLAYON. |

## Left out

- The SPI transport is an Arduino API outside this file and is not modelled: `SPI.begin`, `beginTransaction`, `endTransaction` and `SPISettings`. Only `SPI.transfer` is modelled, as an append to the trace.
- The chip-select and reset pins, the `delay` calls and the reset pulse (ssd1306-lib.c:60-66, 116) are hardware timing and GPIO, with no data effect. Only the DC level is modelled.
- `pgm_read_byte` and PROGMEM are an AVR memory-space detail. The tables are immutable sequences.
- `malloc` is modelled only as its outcome: the `obtained` flag of `Start`. A fresh buffer's contents are irrelevant because `clear` runs next.
- `start` is declared `void` yet executes `return false`. No return value is modelled.
- What the register values mean to the controller is not modelled. Only the order, count and DC mode of the bytes are.
- The initial level of the DC pin is unknown to the source. The constructor starts it low; every operation sets DC before its first transfer, so nothing depends on it.
- Ssd1306.Driver.Pixel: the index `x + (y/8)*WIDTH` is computed in unbounded integers. On a 16-bit `int` target the C expression overflows once the buffer holds more than 32768 bytes, since the largest on-screen index is one less than the size. The precondition keeps the index inside the buffer, but not inside a 16-bit `int`, so such panels are not modelled faithfully.
- Ssd1306.Driver.Clear, Ssd1306.Driver.Start, Ssd1306Spec.FlushCount: the buffer size `WIDTH * ((HEIGHT + 7) / 8)` is `int` arithmetic at ssd1306-lib.c:45, 54 and 149. On a 16-bit `int` target it overflows once the size exceeds 32767 bytes. The model computes the size in unbounded integers (`BufferSize`) and takes the flush count as that size modulo 65536, as if the overflow wrapped before the `uint16_t` conversion.
- Ssd1306.Driver.Clear, Ssd1306.Driver.Pixel, Ssd1306.Driver.Afisare: these require the buffer to have been obtained. In the source, calling `clear`, `pixel` or `afisare` before a successful `start` dereferences the null `vram` (ssd1306-lib.c:45, 154, 164). That undefined behaviour is not modelled.
- Ssd1306.Driver.AfisareIntended: besides advancing `ptr`, it counts the loop in unbounded integers over the whole buffer rather than in a `uint16_t`. For a buffer of 65536 bytes or more it therefore differs from adding `ptr++` alone, which would still send only `size % 65536` bytes.
- Ssd1306.Driver.CommandList: the count `n` is a `uint8_t` in the source. The model takes any `n` up to the table length; every caller passes a table's own size, which is at most 6.

## Findings

| source | as written | input that shows it | evidently intended | confidence | as-written member | corrected member |
|---|---|---|---|---|---|---|
| ssd1306-lib.c:150-155 | `while (count--) SPI.transfer(*ptr);` never advances `ptr`, so every data byte is `vram[0]` | a 2×8 panel with buffer [0x00, 0xFF]: the display receives [0x00, 0x00] | `SPI.transfer(*ptr++)`, sending the whole buffer in order | high (not executed) | Ssd1306Spec.FlushRepeatsFirstByte | Ssd1306.Driver.AfisareIntended |
| ssd1306-lib.c:162-166 | `pixel` indexes `vram[x + (y/8)*WIDTH]` with no bounds check | `pixel(WIDTH, 0, WHITE)` sets pixel (0, 8) on a panel taller than 8 rows; `y = 8*Pages` writes one past the end | off-screen pixels ignored | medium (not executed) | Ssd1306Spec.UncheckedIndexAliases | Ssd1306.Driver.PixelChecked |
