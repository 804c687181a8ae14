/**
 * The SSD1306 OLED display. In I2C mode it shares the SDA line with the board
 * through a wired-AND pull-up bus; in SPI mode it only reads five pins.
 */
module LcdSsd1306 {
  import opened Wrappers
  import opened PinBus
  import opened PartMaps
  import Prefs

  const OutputNames: seq<string> := ["PN_1", "PN_2", "PN_3", "PN_4", "PN_5", "PN_F1", "PN_F2", "DS_LCD"]
  const LcdOutput := 7

  /** type_com: 0 is SPI, anything else is I2C. */
  const Spi: Byte := 0
  const I2c: Byte := 1

  /** GetInputId: the part has no input regions. */
  function InputId(name: string): (r: U16)
    ensures r == NoInput
  {
    NoInput
  }

  /** GetOutputId: the id of an output region name; an unknown name gets 1, the id of PN_2. */
  function OutputId(name: string): (r: U16)
    ensures r < |OutputNames|
    ensures name in OutputNames ==> OutputNames[r] == name
    ensures name !in OutputNames ==> r == NoOutput && OutputNames[r] == "PN_2"
  {
    if name == "PN_1" then 0
    else if name == "PN_2" then 1
    else if name == "PN_3" then 2
    else if name == "PN_4" then 3
    else if name == "PN_5" then 4
    else if name == "PN_F1" then 5
    else if name == "PN_F2" then 6
    else if name == "DS_LCD" then 7
    else NoOutput
  }

  /** Six byte fields: the five pins, then type_com. */
  datatype Settings = Settings(pins: seq<Byte>, typeCom: Byte)

  function EncodeSettings(s: Settings): string
    requires |s.pins| == 5
  {
    Prefs.Encode(s.pins + [s.typeCom])
  }

  function DecodeSettings(text: string): Option<Settings> {
    match Prefs.Decode(text)
    case Some(xs) =>
      if |xs| == 6 && forall i :: 0 <= i < 6 ==> 0 <= xs[i] < 0x100 then
        var bytes: seq<Byte> := xs;
        Some(Settings(bytes[..5], bytes[5]))
      else None
    case None => None
  }

  lemma SettingsRoundTrip(s: Settings)
    requires |s.pins| == 5
    ensures DecodeSettings(EncodeSettings(s)) == Some(s)
  {
    var xs := s.pins + [s.typeCom];
    Prefs.DecodeEncode(xs);
    assert xs[..5] == s.pins;
  }

  /** The type_com a Type Com. combo text selects: SPI only for exactly "SPI". */
  function ModeFor(text: string): Byte {
    if text == "SPI" then Spi else I2c
  }

  type I2cIo = (Engine, Byte, Byte) -> (Engine, Byte)
  type SpiIo = (Engine, Byte, Byte, Byte, Byte, Byte) -> Engine

  class Lcd {
    const inputPins: array<Byte>
    var typeCom: Byte
    var lcd: Engine
    var outputs: seq<Output>
    /** lcd_ssd1306_I2C_io and lcd_ssd1306_SPI_io, the foreign display engine. */
    const i2cIo: I2cIo
    const spiIo: SpiIo

    ghost predicate Valid()
      reads this
    {
      inputPins.Length == 5 && |outputs| == |OutputNames|
    }

    function Snapshot(): Settings
      reads this, inputPins
    {
      Settings(inputPins[..], typeCom)
    }

    /** The pull-up bus id of the SDA line: the array index of the pin. */
    function Sda(): int
      reads this, inputPins
      requires Valid()
    {
      inputPins[1] as int - 1
    }

    constructor (i2cIo: I2cIo, spiIo: SpiIo, init: Engine, outputs: seq<Output>)
      requires |outputs| == |OutputNames|
      ensures Valid() && fresh(inputPins)
      ensures inputPins[..] == [0, 0, 0, 0, 0] && typeCom == Spi
      ensures lcd == init && this.outputs == outputs && this.i2cIo == i2cIo && this.spiIo == spiIo
    {
      this.i2cIo := i2cIo;
      this.spiIo := spiIo;
      lcd := init;
      this.outputs := outputs;
      typeCom := Spi;
      inputPins := new Byte[5](_ => 0);
      new;
      assert inputPins[..] == [0, 0, 0, 0, 0];
    }

    /** In I2C mode with SDA connected, the SDA pull-up line is released (set to 1)
      * before any part drives it this step; otherwise nothing happens. */
    method PreProcess(bus: Bus)
      requires Valid() && bus.Valid()
      modifies bus
      ensures bus.Valid()
      ensures typeCom != Spi && inputPins[1] > 0 ==>
                bus.pullups == old(bus.pullups)[Sda() := 1] && bus.log == old(bus.log) + [ResetPullup(Sda())]
      ensures !(typeCom != Spi && inputPins[1] > 0) ==> bus.pullups == old(bus.pullups) && bus.log == old(bus.log)
      ensures bus.levels == old(bus.levels) && bus.analog == old(bus.analog)
      ensures bus.ioPins == old(bus.ioPins) && bus.ioNext == old(bus.ioNext)
    {
      if typeCom != Spi && inputPins[1] > 0 {
        bus.ResetPullupBus(inputPins[1] as int - 1);
      }
    }

    /** One step. I2C: with SCL and SDA connected the engine sees (SDA, SCL) and its
      * SDA output is wired-ANDed onto the line; with SDA connected the line's value is
      * then driven onto the SDA pin. SPI: with all five pins connected the engine
      * sees pins 1, 0, 4, 2, 3 in that order, and the bus is left alone. */
    method Process(bus: Bus)
      requires Valid() && bus.Valid()
      modifies this`lcd, bus
      ensures bus.Valid()
      ensures bus.analog == old(bus.analog) && bus.ioPins == old(bus.ioPins) && bus.ioNext == old(bus.ioNext)
      ensures typeCom != Spi ==>
        var contributes := inputPins[0] > 0 && inputPins[1] > 0;
        var step := if contributes then i2cIo(old(lcd), old(bus.Level(inputPins[1])), old(bus.Level(inputPins[0])))
                    else (old(lcd), 1);
        var line := if contributes then WiredAnd(old(bus.PullupLine(Sda())), step.1) else old(bus.PullupLine(Sda()));
        && lcd == step.0
        && bus.pullups == (if contributes then old(bus.pullups)[Sda() := line] else old(bus.pullups))
        && bus.levels == (if inputPins[1] > 0 then old(bus.levels)[inputPins[1] := line] else old(bus.levels))
        && bus.log == old(bus.log)
                      + (if contributes then [SetPullup(Sda(), step.1)] else [])
                      + (if inputPins[1] > 0 then [GetPullup(Sda()), SetPin(inputPins[1], line)] else [])
      ensures typeCom == Spi ==>
        && bus.levels == old(bus.levels) && bus.pullups == old(bus.pullups) && bus.log == old(bus.log)
        && lcd == (if forall k :: 0 <= k < 5 ==> inputPins[k] > 0
                   then spiIo(old(lcd), old(bus.Level(inputPins[1])), old(bus.Level(inputPins[0])),
                              old(bus.Level(inputPins[4])), old(bus.Level(inputPins[2])), old(bus.Level(inputPins[3])))
                   else old(lcd))
    {
      if typeCom != Spi {
        if inputPins[0] > 0 && inputPins[1] > 0 {
          var step := i2cIo(lcd, bus.Level(inputPins[1]), bus.Level(inputPins[0]));
          lcd := step.0;
          bus.SetPullupBus(inputPins[1] as int - 1, step.1);
        }
        if inputPins[1] > 0 {
          var line := bus.GetPullupBus(inputPins[1] as int - 1);
          bus.SetPinLevel(inputPins[1], line);
        }
      } else {
        if inputPins[0] > 0 && inputPins[1] > 0 && inputPins[2] > 0 && inputPins[3] > 0 && inputPins[4] > 0 {
          lcd := spiIo(lcd, bus.Level(inputPins[1]), bus.Level(inputPins[0]), bus.Level(inputPins[4]),
                       bus.Level(inputPins[2]), bus.Level(inputPins[3]));
        }
      }
    }

    /** Marks the display output for redraw when the engine asks for it; the flag
      * is never cleared here. */
    method PostProcess()
      requires Valid()
      modifies this`outputs
      ensures Valid()
      ensures outputs[LcdOutput].update == (old(outputs[LcdOutput].update) || lcd.update)
      ensures outputs[LcdOutput].value == old(outputs[LcdOutput].value)
      ensures forall k :: 0 <= k < |outputs| && k != LcdOutput ==> outputs[k] == old(outputs[k])
    {
      if lcd.update {
        outputs := outputs[LcdOutput := outputs[LcdOutput].(update := true)];
      }
    }

    /** The preference string, which reads back as the current settings. */
    method WritePreferences() returns (text: string)
      requires Valid()
      ensures DecodeSettings(text) == Some(Snapshot())
    {
      text := EncodeSettings(Snapshot());
      SettingsRoundTrip(Snapshot());
    }

    /** Restores pins and mode; the base part's Reset that follows changes nothing
      * this model holds. */
    method ReadPreferences(text: string)
      requires Valid()
      modifies this`typeCom, inputPins
      ensures DecodeSettings(text).Some? ==> Snapshot() == DecodeSettings(text).value
      ensures DecodeSettings(text).None? ==> Snapshot() == old(Snapshot())
    {
      match DecodeSettings(text) {
        case Some(s) =>
          for k := 0 to 5
            invariant forall j :: 0 <= j < k ==> inputPins[j] == s.pins[j]
          {
            inputPins[k] := s.pins[k];
          }
          typeCom := s.typeCom;
          assert inputPins[..] == s.pins;
        case None =>
      }
    }

    /** Takes the five selected pins and the mode combo text. */
    method ReadPropertiesWindow(selected: seq<Byte>, modeText: string)
      requires Valid() && |selected| == 5
      modifies this`typeCom, inputPins
      ensures inputPins[..] == selected
      ensures modeText == "SPI" ==> typeCom == Spi
      ensures modeText != "SPI" ==> typeCom == I2c
    {
      for k := 0 to 5
        invariant forall j :: 0 <= j < k ==> inputPins[j] == selected[j]
      {
        inputPins[k] := selected[k];
      }
      typeCom := ModeFor(modeText);
    }
  }

  /** One I2C step as the board schedules it, PreProcess then Process, on a part whose
    * SCL and SDA are both connected: the line is released, the display's bit is
    * wired-ANDed onto it, and the SDA pin then carries exactly that bit (0 or 1),
    * whatever the line held before. */
  method I2cTick(part: Lcd, bus: Bus)
    requires part.Valid() && bus.Valid()
    requires part.typeCom != Spi && part.inputPins[0] > 0 && part.inputPins[1] > 0
    modifies part`lcd, bus
    ensures bus.Valid()
    ensures var step := part.i2cIo(old(part.lcd), old(bus.Level(part.inputPins[1])), old(bus.Level(part.inputPins[0])));
      && part.lcd == step.0
      && bus.Level(part.inputPins[1]) == (if step.1 == 0 then 0 else 1)
      && bus.log == old(bus.log) + [ResetPullup(part.Sda()), SetPullup(part.Sda(), step.1),
                                    GetPullup(part.Sda()), SetPin(part.inputPins[1], bus.Level(part.inputPins[1]))]
  {
    part.PreProcess(bus);
    part.Process(bus);
  }
}
