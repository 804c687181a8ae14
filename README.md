# PICSimLab peripheral parts, modelled in Dafny

PICSimLab simulates a microcontroller board together with peripheral "parts"
placed beside it. Each part is a small state machine over byte-sized fields. The
board calls it once per step through `PreProcess`, `Process` and `PostProcess`, and
the GUI calls it for mouse, key and control events. Each part also saves its
configuration as a comma-separated preference string and reads it back.

This project models six parts over an abstract pin bus:

- **IO Virtual Term** (`virtual_vterm.dfy`): a serial terminal. Typed text is
  staged, with the chosen line ending, into the UART driver's output buffer. The
  RX pin feeds the driver (an idle 1 when unconnected) and the driver's bit is
  driven onto TX. A `show` byte carries window visibility (bit 0) and a change
  flag (bit 7).
- **Push buttons** (`part_push_buttons.dfy`): eight buttons with a configurable
  active level. A press or release sets the level of every button whose region
  contains the pointer, and each step drives the eight levels onto their pins.
- **Potentiometers** (`part_pot.dfy`): four sliders. A press grabs a slider and
  moves it to the pointer, clamped to the track. A move drags only a grabbed
  slider, and a release lets go. A refresh counter throttles the analog writes.
- **PCD8544 LCD** (`part_lcd_pcd8544.dfy`): five pins routed to the display
  engine.
- **SSD1306 OLED** (`output_lcd_ssd1306.dfy`): SPI mode, or I2C over a shared
  open-collector line. The line is released in `PreProcess`; in `Process` the
  display's bit is contributed and the line is then read back onto SDA.
- **MAX72xx LED matrix** (`output_led_matrix.dfy`): three input pins and an IO
  output pin that the part registers with the board's pin allocator. It writes
  the output pin only when the value changes.

Shared modules:
- `pin_bus.dfy` models the board's pin bus as the parts see it: 1-based pin
  levels (pin 0 is "not connected" and writes to it are ignored), analog values,
  wired-AND pull-up lines, and the IO-pin allocator. It also keeps a ghost log of
  every call, so contracts can state the order of bus operations.
- `prefs.dfy` holds the decimal, comma-joined preference format, with a proved
  round trip.
- `part_maps.dfy` holds the input-region hit test, output records, C's `!`, and
  `atoi`.

Each part is a class whose fields are the source's fields. Fixed-size C arrays
are Dafny arrays. A method that loops over the input regions is proved against a
fold over the region list, taken in map order, and lemmas state the fold's
meaning slider by slider or button by button. Where the source repeats one
statement for indices 0..7 or 0..3, the model writes a `for` loop over the same
indices in the same order. The foreign device engines (`vterm_io`, `vterm_rst`,
`vterm_set_speed`, `lcd_pcd8544_io`, `lcd_ssd1306_I2C_io`, `lcd_ssd1306_SPI_io`,
`ldd_max72xx_io`) are function-valued constants given to each part at
construction. Their state is opaque, apart from the fields the parts read.

## Model

| member | source | states |
|---|---|---|
| Prefs.DecodeEncode | src/parts/part_push_buttons.cc:287-309 | Decoding the comma-joined decimal string of any non-empty list of integers gives back exactly that list. |
| Prefs.Decimal | src/parts/part_push_buttons.cc:292 | The decimal text of a number is non-empty, all digits, has no leading zero, and contains no comma. |
| Prefs.DecimalValue | src/parts/part_push_buttons.cc:292 | The digits of the decimal text of n read back as n. |
| Prefs.SplitJoin | src/parts/part_push_buttons.cc:300 | Splitting a comma-joined list of comma-free fields at its commas gives back the fields. |
| PartMaps.LastHitExists | src/parts/part_push_buttons.cc:181-184 | A region with id k contains the pointer (bounds inclusive on all four sides) exactly when a last such region in map order exists. |
| PartMaps.AtoiDecimal | src/parts/part_push_buttons.cc:407-414 | `atoi` of a decimal number followed by any text that does not start with a digit gives that number. |
| PinBus.WiredAnd | src/parts/output_LCD_ssd1306.cc:197-202 | A contributor pulls the shared line to 0 when it drives 0; otherwise the line keeps its value. |
| PinBus.DriveAllLast | src/parts/part_push_buttons.cc:165-172 | After a sequence of pin writes, a connected pin holds the value of the last write to it. |
| PinBus.DriveAllOther | src/parts/part_push_buttons.cc:165-172 | A pin that the sequence of writes does not name keeps its level. |
| PushButtons.InputId | src/parts/part_push_buttons.cc:241-257 | B1..B8 and J1 map to their positions in the name table; an unknown name gives 0xFFFF. |
| PushButtons.OutputId | src/parts/part_push_buttons.cc:259-285 | Known output names map to their positions in the name table; an unknown name gives 1. |
| PushButtons.SettingsRoundTrip | src/parts/part_push_buttons.cc:287-309 | The preference string holds the eight pins and then `active`, and reading it back restores all nine. |
| PushButtons.ButtonFoldAt | src/parts/part_push_buttons.cc:176-239 | After a press (level `active`) or a release (level `!active`), button k holds the event's level iff one of its regions contains the pointer; otherwise it keeps its level. Regions of other ids, such as J1, change nothing. |
| PushButtons.PushButtons.constructor | src/parts/part_push_buttons.cc:43-79 | Active level 1, all pins 0, every button released. |
| PushButtons.PushButtons.Reset | src/parts/part_push_buttons.cc:81-113 | Releases every button, then drives the complement of the released level onto the eight pins and after it the released level, in index order; nothing else on the bus changes. |
| PushButtons.ResetEndsReleased | src/parts/part_push_buttons.cc:95-111 | After Reset's two passes, every connected pin carries `!active`. |
| PushButtons.PushButtons.PreProcess | src/parts/part_push_buttons.cc:160-174 | Issues exactly the eight SetPin calls (pin i, level i), in index order, and touches nothing else on the bus. |
| PushButtons.PreProcessDrives | src/parts/part_push_buttons.cc:165-172 | After PreProcess, a connected pin named once carries its button's level, and every other pin keeps its level. |
| PushButtons.PushButtons.EvMouseButtonPress | src/parts/part_push_buttons.cc:176-207 | The button levels become the press fold over the region map. |
| PushButtons.PushButtons.EvMouseButtonRelease | src/parts/part_push_buttons.cc:209-239 | The button levels become the release fold over the region map. |
| PushButtons.PushButtons.WritePreferences | src/parts/part_push_buttons.cc:287-295 | The string written decodes to the part's current pins and polarity. |
| PushButtons.PushButtons.ReadPreferences | src/parts/part_push_buttons.cc:297-309 | A well-formed string sets pins and polarity; a malformed one leaves them unchanged. Either way every button ends released. |
| PushButtons.PushButtons.ReadPropertiesWindow | src/parts/part_push_buttons.cc:404-426 | Pins are read with `atoi` and truncated to a byte. `active` is 1 iff the polarity text is exactly "HIGH". Every button ends released. |
| Potentiometers.InputId | src/parts/part_pot.cc:265-276 | PO1..PO4 map to 0..3; an unknown name gives 0xFFFF. |
| Potentiometers.OutputId | src/parts/part_pot.cc:278-294 | Known output names map to their positions in the name table; an unknown name gives 1. |
| Potentiometers.SliderClamps | src/parts/part_pot.cc:157-183 | For a region 10 to 255 pixels tall, the slider offset is the pointer's offset from the top, clamped to the height less 10. |
| Potentiometers.SliderShortRegion | src/parts/part_pot.cc:157-183 | For a region under 10 pixels tall, the unsigned limit wraps and the offset is unclamped. |
| Potentiometers.PressAt | src/parts/part_pot.cc:150-188 | A press grabs slider k iff one of its regions contains the pointer, and sets its value from the last such region; other sliders are unchanged. |
| Potentiometers.MoveAt | src/parts/part_pot.cc:218-263 | A move changes slider k's value only while it is grabbed and one of its regions contains the pointer; grab flags never change. |
| Potentiometers.ReleaseAt | src/parts/part_pot.cc:190-216 | A release lets go of slider k iff one of its regions contains the pointer, and never changes a value. |
| Potentiometers.NextRefresh | src/parts/part_pot.cc:134-146 | Whatever the counter held, after one Process it lies within 1..100001. |
| Potentiometers.RefreshCountsUp | src/parts/part_pot.cc:134-146 | From a counter value r, n steps that do not pass the limit leave it at r + n. |
| Potentiometers.SettingsRoundTrip | src/parts/part_pot.cc:296-310 | The preference string holds the four pins and then the four values, and reading it back restores all eight. |
| Potentiometers.Pot.constructor | src/parts/part_pot.cc:42-71 | Pins, values and grab flags all start at 0. |
| Potentiometers.AnalogAllLast | src/parts/part_pot.cc:136-144 | After a sequence of analog writes, a connected pin holds the voltage of the last write to it. |
| Potentiometers.AnalogAllOther | src/parts/part_pot.cc:136-144 | An analog pin that the sequence of writes does not name keeps its value. |
| Potentiometers.Pot.Process | src/parts/part_pot.cc:129-148 | When the counter has passed the limit, the four analog writes are made in index order, the analog map becomes their result, and the counter restarts; otherwise the bus is untouched. Digital levels, pull-ups and IO pins never change. The counter then advances. |
| Potentiometers.ProcessPushes | src/parts/part_pot.cc:136-144 | After a refresh, a connected pin named by one slider only carries that slider's voltage, and an analog pin no slider names keeps its value. |
| Potentiometers.Pot.MouseButtonPress | src/parts/part_pot.cc:150-188 | The sliders become the press fold over the region map. |
| Potentiometers.Pot.MouseButtonRelease | src/parts/part_pot.cc:190-216 | The sliders become the release fold over the region map. |
| Potentiometers.Pot.MouseMove | src/parts/part_pot.cc:218-263 | The sliders become the move fold over the region map. |
| Potentiometers.Pot.WritePreferences | src/parts/part_pot.cc:296-304 | The string written decodes to the current pins and values. |
| Potentiometers.Pot.ReadPreferences | src/parts/part_pot.cc:306-310 | A well-formed string sets pins and values; a malformed one changes nothing. Grab flags are never touched. |
| Potentiometers.Pot.ReadPropertiesWindow | src/parts/part_pot.cc:375-385 | The pins are taken from the combo texts only when the window was closed with a nonzero tag. |
| LcdPcd8544.InputId | src/parts/part_LCD_pcd8544.cc:138-143 | Every input name is unknown (0xFFFF): the part has no input regions. |
| LcdPcd8544.OutputId | src/parts/part_LCD_pcd8544.cc:145-163 | P1..P5, F1..F3 and LCD map to 0..8; an unknown name gives 1. |
| LcdPcd8544.PinsRoundTrip | src/parts/part_LCD_pcd8544.cc:166-181 | The preference string holds exactly the five pins, and reading it back restores them. |
| LcdPcd8544.UnconnectedReadsBeforeArray | src/parts/part_LCD_pcd8544.cc:284 | With the pins the constructor sets, every pin read in Process is at index -1. |
| LcdPcd8544.ConnectedReadsInside | src/parts/part_LCD_pcd8544.cc:284 | With all five pins connected, every read index is in 0..254, none negative. |
| LcdPcd8544.Lcd.constructor | src/parts/part_LCD_pcd8544.cc:35-58 | All five pins start at 0 (not connected). |
| LcdPcd8544.Lcd.ProcessAsWritten | src/parts/part_LCD_pcd8544.cc:275-287 | Steps the engine with the levels of pins 3, 4, 1, 0 and 2, in that argument order. It is defined only when none of the five read indices it computes is negative. |
| LcdPcd8544.Lcd.Process | src/parts/part_LCD_pcd8544.cc:275-287 | Corrected: steps the engine exactly as written when all five pins are connected, and otherwise leaves it alone. |
| LcdPcd8544.Lcd.WritePreferences | src/parts/part_LCD_pcd8544.cc:166-174 | The string written decodes to the five pins. |
| LcdPcd8544.Lcd.ReadPreferences | src/parts/part_LCD_pcd8544.cc:176-181 | A well-formed string sets the five pins; a malformed one leaves them. |
| LcdPcd8544.Lcd.ReadPropertiesWindow | src/parts/part_LCD_pcd8544.cc:254-265 | The pins are taken from the combo texts only when the window tag is nonzero. |
| LcdSsd1306.InputId | src/parts/output_LCD_ssd1306.cc:115-118 | Every input name is unknown (0xFFFF). |
| LcdSsd1306.OutputId | src/parts/output_LCD_ssd1306.cc:120-142 | PN_1..PN_5, PN_F1, PN_F2 and DS_LCD map to 0..7; an unknown name gives 1. |
| LcdSsd1306.SettingsRoundTrip | src/parts/output_LCD_ssd1306.cc:144-156 | The preference string holds the five pins and then the mode, and reading it back restores all six. |
| LcdSsd1306.Lcd.constructor | src/parts/output_LCD_ssd1306.cc:38-62 | All pins start at 0 and the mode is SPI. |
| LcdSsd1306.Lcd.PreProcess | src/parts/output_LCD_ssd1306.cc:187-191 | Releases the SDA pull-up line iff the mode is I2C and SDA is connected; otherwise the bus is untouched. |
| LcdSsd1306.Lcd.Process | src/parts/output_LCD_ssd1306.cc:193-211 | I2C: with SCL and SDA connected, the display's bit is wired-ANDed onto the line. With SDA connected, the line is then read and driven onto SDA. The bus calls come in exactly that order. SPI: the engine is stepped only when all five pins are connected, and the bus is untouched. |
| LcdSsd1306.I2cTick | src/parts/output_LCD_ssd1306.cc:187-211 | Within one step the line is reset, then written, then read. SDA then carries exactly the display's bit (0 or 1), whatever the line held before. |
| LcdSsd1306.Lcd.PostProcess | src/parts/output_LCD_ssd1306.cc:213-216 | The display output's redraw flag is set when the engine's update flag is; nothing else changes. |
| LcdSsd1306.Lcd.WritePreferences | src/parts/output_LCD_ssd1306.cc:144-150 | The string written decodes to the current pins and mode. |
| LcdSsd1306.Lcd.ReadPreferences | src/parts/output_LCD_ssd1306.cc:152-156 | A well-formed string sets pins and mode; a malformed one leaves them. |
| LcdSsd1306.Lcd.ReadPropertiesWindow | src/parts/output_LCD_ssd1306.cc:173-185 | Takes the five selected pins; the mode is SPI (0) when the text is exactly "SPI", and I2C (1) for any other text. |
| LedMatrix.InputId | src/parts/output_LED_matrix.cc:119-122 | Every input name is unknown (0xFFFF). |
| LedMatrix.OutputId | src/parts/output_LED_matrix.cc:124-144 | PN_1..PN_4, PN_F1, PN_F2 and LM_LED map to 0..6; an unknown name gives 1. |
| LedMatrix.SettingsRoundTrip | src/parts/output_LED_matrix.cc:146-164 | The preference string holds three input pins, the output pin, the angle and the model, and reading it back restores all six. |
| LedMatrix.Matrix.constructor | src/parts/output_LED_matrix.cc:38-64 | Pins, angle and model start at 0. DOUT is registered once, taking any free pin, and the part then holds one registration; levels, pull-ups and analog values are untouched. |
| LedMatrix.Matrix.Destroy | src/parts/output_LED_matrix.cc:66-70 | Gives the output pin back, so registrations and releases pair up; nothing else on the bus changes. |
| LedMatrix.Matrix.Process | src/parts/output_LED_matrix.cc:192-204 | With the three inputs connected, the driver sees DIN, CLK and CS, and DOUT is written only when the output differs from its level. DOUT then carries the output. With any input unconnected, nothing changes. |
| LedMatrix.Matrix.PostProcess | src/parts/output_LED_matrix.cc:206-209 | The matrix output's redraw flag is set when the driver's update flag is; nothing else changes. |
| LedMatrix.Matrix.WritePreferences | src/parts/output_LED_matrix.cc:146-153 | The string written decodes to the current settings. |
| LedMatrix.Matrix.ReadPreferences | src/parts/output_LED_matrix.cc:155-164 | Restores the settings, unregisters the held pin and then registers DOUT with the stored pin, so exactly one registration is held. |
| LedMatrix.Matrix.ReadPropertiesWindow | src/parts/output_LED_matrix.cc:184-190 | Takes the three pins. The angle comes from `atoi`, and the model is 0 when the text is exactly "FC16", and 1 for any other text. |
| VirtualTerm.InputId | src/parts/virtual_vterm.cc:280-288 | PB_TERM and VT_VTERM map to 0 and 1; an unknown name gives 0xFFFF. |
| VirtualTerm.OutputId | src/parts/virtual_vterm.cc:290-306 | PB_TERM and VT_VTERM both give 4, because the terminal's id is declared in the line-ending enum. An unknown name gives 1 (PN_TX). |
| VirtualTerm.EndingFor | src/parts/virtual_vterm.cc:168-177 | The four exact combo texts select endings 0..3 in order; any other text keeps the current ending. |
| VirtualTerm.Staged | src/parts/virtual_vterm.cc:347-367 | The staged buffer begins with the text followed by its ending, its count is their total length, and the rest of the buffer is kept. |
| VirtualTerm.StagedEnding | src/parts/virtual_vterm.cc:353-366 | After the text comes nothing (NONE), '\n' (NL), '\r' (CR), or '\r' then '\n' (NL+CR). |
| VirtualTerm.ToggleShow | src/parts/virtual_vterm.cc:387-396 | Bit 0 of `show` flips, bit 7 is set, and bits 1-6 are cleared. |
| VirtualTerm.TxLed | src/parts/virtual_vterm.cc:403-406 | The TX LED's value is 2 iff bit 1 of the driver's LEDs is set, else 0. |
| VirtualTerm.RxLed | src/parts/virtual_vterm.cc:408-411 | The RX LED's value is 1 iff bit 0 of the driver's LEDs is set, else 0. |
| VirtualTerm.SettingsRoundTrip | src/parts/virtual_vterm.cc:308-330 | The preference string holds the two pins, the ending, the speed, `show` and the window position, and reading it back restores all seven. |
| VirtualTerm.Term.constructor | src/parts/virtual_vterm.cc:43-111 | Pins 0, `show` 0, no pending send, speed 9600, ending NL; the driver is reset. |
| VirtualTerm.Term.Reset | src/parts/virtual_vterm.cc:195-217 | The driver is reset and set to the current speed. |
| VirtualTerm.Term.ButtonEvent | src/parts/virtual_vterm.cc:144-152 | Send queues the edit box's text; any other control changes nothing here. |
| VirtualTerm.Term.KeyEvent | src/parts/virtual_vterm.cc:154-162 | Enter (code 13) in the edit box queues its text; anything else changes nothing. |
| VirtualTerm.Term.Event | src/parts/virtual_vterm.cc:164-193 | The speed combo sets the speed with `atoi` and passes it to the driver. The ending combo selects an ending by its exact text. |
| VirtualTerm.Term.Stage | src/parts/virtual_vterm.cc:350-366 | Copies the pending text and its ending into the output buffer and clears the pending send. |
| VirtualTerm.Term.PreProcess | src/parts/virtual_vterm.cc:347-370 | A pending send is staged only when the driver's buffer is empty, and otherwise stays pending. Exactly one Process follows. |
| VirtualTerm.Term.Process | src/parts/virtual_vterm.cc:372-385 | The driver sees RX's level, or 1 when RX is unconnected. Its result, truncated to a byte, is the one write to TX. |
| VirtualTerm.Term.OnMouseButtonPress | src/parts/virtual_vterm.cc:387-396 | Button 1 on the terminal input toggles `show`; anything else leaves it. |
| VirtualTerm.Term.PostProcess | src/parts/virtual_vterm.cc:398-415 | Each LED output's value and redraw flag change only when its LED bit changes. The terminal output is flagged for redraw when bit 7 of `show` is set or bytes have arrived. |
| VirtualTerm.Term.WritePreferences | src/parts/virtual_vterm.cc:308-319 | The string written decodes to the current settings, with the window at 100,100 when there is none. |
| VirtualTerm.Term.ReadPreferences | src/parts/virtual_vterm.cc:321-330 | A well-formed string sets pins, ending, speed and `show`, and moves the window. Bit 7 of `show` is forced on either way, and the driver is reset at the speed. |
| VirtualTerm.RestoreWritten | src/parts/virtual_vterm.cc:308-330 | Reading back what was written restores pins, ending and speed, and gives `show` back with bit 7 on. |
| VirtualTerm.Term.ReadPropertiesWindow | src/parts/virtual_vterm.cc:340-345 | Takes RX, TX and the speed (read with `atoi`), then resets the driver. |

## Findings

| source | as written | input that shows it | evidently intended | confidence | as-written member | corrected member |
|---|---|---|---|---|---|---|
| src/parts/part_LCD_pcd8544.cc:284 | Process indexes the pin array with `input_pins[k]-1` without checking that the pin is connected. | A freshly placed LCD has all five pins at 0, so the first Process reads index -1, before the array. | Step the engine only when all five pins are connected, as the SSD1306 and LED-matrix parts do. | medium, not executed | LcdPcd8544.Lcd.ProcessAsWritten, LcdPcd8544.UnconnectedReadsBeforeArray | LcdPcd8544.Lcd.Process, LcdPcd8544.ConnectedReadsInside |

## Left out

- The board (scheduler, timers, instruction counter, CPU thread and debugger accessors): src/lib/board.h only declares them, so their behaviour is not part of this model.
- The VCD dump part (src/parts/virtual_VCD_Dump_an.h): it exists to write floating-point samples to a file.
- The board's pin bus, pull-up bus and IO-pin allocator are modelled as the interface the parts call. The pull-up line is the AND of the contributions since its last reset, so a part contributing twice in one step would be ANDed rather than replaced (no modelled part does that). The allocator hands out pins counting up from the board's pin count plus one.
- The device engines and the UART driver are foreign code, taken as functions of opaque state. Only the fields the parts read are modelled (update flags, the vterm output buffer and its counts, the LED bits).
- Rendering and UI: drawing, canvas, bitmaps, fonts, `ConfigurePropertiesWindow`, and the vterm window layout and its Clear button. So are the effects of `DrawOutput`, which clears the show flag and the LED bits and drains the received text under a mutex (concurrency).
- GUI controls appear as parameters: combo texts, selected pins, the edit box text, the window tag and the window position.
- Potentiometer voltages: the voltage `5.0*(148-v)/148.0` is computed on reals, so floating-point rounding is not modelled.
- Preference parsing: `sscanf` with a partly matching string fills only some fields, and `%hhu` wraps values above 255. The model treats a string that is not exactly the right number of decimal fields in range as unparsed and leaves the fields unchanged. The 32-bit widths of `%u` and `%i` fields (speed, angle, model, window position) are not enforced.
- VirtualTerm.Term.Stage: the edit text is taken as a sequence of characters, one buffer entry each; its encoding into the driver's byte buffer (and so the byte count of non-ASCII text) is not modelled.
- VirtualTerm.Term.ReadPreferences: on an unparsed string the source moves the window to the uninitialised locals `x` and `y`; the model keeps the window position.
- LedMatrix.Matrix.ReadPreferences: on an unparsed string the source registers DOUT with an uninitialised local; the model asks for the pin it already holds.
- PartMaps.Atoi: leading white space, signs and overflow are not modelled; the result is the value of the leading decimal digits (0 if none).
- Potentiometers.Pot.constructor: the source never initialises the refresh counter, so its first value is a constructor parameter.
- The base part's `Reset`, which the PCD8544, SSD1306 and LED-matrix parts call after reading preferences, is not shown; it is treated as changing nothing this model holds.
- The size of the board's pin array: it is declared outside the parts, so the PCD8544 guard is stated as every read index lying in 0..254, the range a connected byte pin index less one can take.
- VirtualTerm.Term.PreProcess: requires the pending text and its ending to fit the driver's output buffer; the source copies without a bound, and the buffer size is not visible.
- LedMatrix.Matrix.Process: requires a registered DOUT pin when the inputs are connected, since the source reads that pin's level at index `output_pins[0]-1`.
- Push buttons and potentiometers receive mouse events with button and state arguments that their handlers ignore; the model ignores them too.
