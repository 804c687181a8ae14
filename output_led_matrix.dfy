/**
 * The MAX72xx LED matrix: three input pins (DIN, CS, CLK) feed the matrix
 * driver, whose serial output is written to an IO pin the part registers with
 * the board's allocator for its whole life.
 */
module LedMatrix {
  import opened Wrappers
  import opened PinBus
  import opened PartMaps
  import Prefs

  const OutputNames: seq<string> := ["PN_1", "PN_2", "PN_3", "PN_4", "PN_F1", "PN_F2", "LM_LED"]
  const LedOutput := 6

  /** The name the output pin is registered under. */
  const Dout: string := "DOUT"

  /** GetInputId: the part has no input regions. */
  function InputId(name: string): (r: U16)
    ensures r == NoInput
  {
    NoInput
  }

  /** GetOutputId: the id of an output region name; an unknown name gets 1, the id of PN_2. */
  function OutputId(name: string): (r: U16)
    ensures r < |OutputNames|
    ensures name in OutputNames ==> OutputNames[r] == name
    ensures name !in OutputNames ==> r == NoOutput && OutputNames[r] == "PN_2"
  {
    if name == "PN_1" then 0
    else if name == "PN_2" then 1
    else if name == "PN_3" then 2
    else if name == "PN_4" then 3
    else if name == "PN_F1" then 4
    else if name == "PN_F2" then 5
    else if name == "LM_LED" then 6
    else NoOutput
  }

  /** The three input pins and the output pin as bytes, then angle and model as
    * signed integers. */
  datatype Settings = Settings(pins: seq<Byte>, outPin: Byte, angle: int, lmode: int)

  function EncodeSettings(s: Settings): string
    requires |s.pins| == 3
  {
    Prefs.Encode(s.pins + [s.outPin, s.angle, s.lmode])
  }

  function DecodeSettings(text: string): Option<Settings> {
    match Prefs.Decode(text)
    case Some(xs) =>
      if |xs| == 6 && forall i :: 0 <= i < 4 ==> 0 <= xs[i] < 0x100 then
        var bytes: seq<Byte> := xs[..4];
        Some(Settings(bytes[..3], bytes[3], xs[4], xs[5]))
      else None
    case None => None
  }

  lemma SettingsRoundTrip(s: Settings)
    requires |s.pins| == 3
    ensures DecodeSettings(EncodeSettings(s)) == Some(s)
  {
    var xs := s.pins + [s.outPin, s.angle, s.lmode];
    Prefs.DecodeEncode(xs);
    assert xs[..4][..3] == s.pins;
  }

  /** The model a combo text selects: 0 (FC16) only for exactly "FC16", otherwise 1 (Parola). */
  function ModelFor(text: string): int {
    if text == "FC16" then 0 else 1
  }

  type LddIo = (Engine, Byte, Byte, Byte) -> (Engine, Byte)

  class Matrix {
    const inputPins: array<Byte>
    const outputPins: array<Byte>
    var angle: int
    var lmode: int
    var ldd: Engine
    var outputs: seq<Output>
    /** ldd_max72xx_io, the foreign matrix driver. */
    const io: LddIo
    /** How often the part has asked the allocator for its output pin, and how
      * often it has given one back. */
    ghost var registrations: nat
    ghost var releases: nat

    ghost predicate Valid()
      reads this
    {
      && inputPins.Length == 3 && outputPins.Length == 1 && inputPins != outputPins
      && |outputs| == |OutputNames|
      && releases <= registrations <= releases + 1
    }

    /** The part holds exactly one registered pin: it has not been destroyed. */
    ghost predicate Holding()
      reads this
    {
      registrations == releases + 1
    }

    function Snapshot(): Settings
      reads this, inputPins, outputPins
      requires Valid()
    {
      Settings(inputPins[..], outputPins[0], angle, lmode)
    }

    /** All three input pins are connected. */
    predicate Connected()
      reads this, inputPins
      requires Valid()
    {
      inputPins[0] > 0 && inputPins[1] > 0 && inputPins[2] > 0
    }

    /** Registers the DOUT pin, taking whatever pin the allocator hands out. */
    constructor (bus: Bus, io: LddIo, init: Engine, outputs: seq<Output>)
      requires bus.Valid() && |outputs| == |OutputNames|
      modifies bus
      ensures Valid() && Holding() && fresh(inputPins) && fresh(outputPins)
      ensures inputPins[..] == [0, 0, 0] && angle == 0 && lmode == 0
      ensures ldd == init && this.outputs == outputs && this.io == io
      ensures bus.Valid()
      ensures bus.log == old(bus.log) + [RegisterIO(Dout, 0, outputPins[0])]
      ensures outputPins[0] != 0 ==> bus.ioPins == old(bus.ioPins)[outputPins[0] := Dout]
      ensures outputPins[0] == 0 ==> bus.ioPins == old(bus.ioPins)
      ensures bus.levels == old(bus.levels) && bus.pullups == old(bus.pullups) && bus.analog == old(bus.analog)
    {
      this.io := io;
      ldd := init;
      this.outputs := outputs;
      angle := 0;
      lmode := 0;
      inputPins := new Byte[3](_ => 0);
      var pin := bus.RegisterIOpin(Dout, 0);
      outputPins := new Byte[1](_ => pin);
      registrations := 1;
      releases := 0;
      new;
      assert inputPins[..] == [0, 0, 0];
    }

    /** The destructor: gives the output pin back, so every registration is paired
      * with one release. */
    method Destroy(bus: Bus)
      requires Valid() && Holding() && bus.Valid()
      modifies this`releases, bus
      ensures Valid() && registrations == releases
      ensures bus.Valid()
      ensures bus.ioPins == old(bus.ioPins) - {outputPins[0]}
      ensures bus.log == old(bus.log) + [UnregisterIO(outputPins[0])]
      ensures bus.levels == old(bus.levels) && bus.pullups == old(bus.pullups) && bus.analog == old(bus.analog)
      ensures bus.ioNext == old(bus.ioNext)
    {
      bus.UnregisterIOpin(outputPins[0]);
      releases := releases + 1;
    }

    /** One step: with all inputs connected the driver sees (DIN, CLK, CS) and its
      * output is written to the DOUT pin only when it differs from the pin's level;
      * either way the pin then carries the driver's output. Reading the DOUT level
      * needs a registered pin, which the source assumes. */
    method Process(bus: Bus)
      requires Valid() && bus.Valid()
      requires Connected() ==> outputPins[0] != 0
      modifies this`ldd, bus
      ensures bus.Valid()
      ensures bus.analog == old(bus.analog) && bus.pullups == old(bus.pullups)
      ensures bus.ioPins == old(bus.ioPins) && bus.ioNext == old(bus.ioNext)
      ensures !Connected() ==> ldd == old(ldd) && bus.levels == old(bus.levels) && bus.log == old(bus.log)
      ensures Connected() ==>
        var step := io(old(ldd), old(bus.Level(inputPins[0])), old(bus.Level(inputPins[2])), old(bus.Level(inputPins[1])));
        var differs := step.1 != old(bus.Level(outputPins[0]));
        && ldd == step.0
        && bus.Level(outputPins[0]) == step.1
        && bus.levels == (if differs then old(bus.levels)[outputPins[0] := step.1] else old(bus.levels))
        && bus.log == old(bus.log) + (if differs then [WritePin(outputPins[0], step.1)] else [])
    {
      if inputPins[0] > 0 && inputPins[1] > 0 && inputPins[2] > 0 {
        var step := io(ldd, bus.Level(inputPins[0]), bus.Level(inputPins[2]), bus.Level(inputPins[1]));
        ldd := step.0;
        if step.1 != bus.Level(outputPins[0]) {
          bus.WritePinLevel(outputPins[0], step.1);
        }
      }
    }

    /** Marks the matrix output for redraw when the driver asks for it. */
    method PostProcess()
      requires Valid()
      modifies this`outputs
      ensures Valid()
      ensures outputs[LedOutput].update == (old(outputs[LedOutput].update) || ldd.update)
      ensures outputs[LedOutput].value == old(outputs[LedOutput].value)
      ensures forall k :: 0 <= k < |outputs| && k != LedOutput ==> outputs[k] == old(outputs[k])
    {
      if ldd.update {
        outputs := outputs[LedOutput := outputs[LedOutput].(update := true)];
      }
    }

    /** The preference string, which reads back as the current settings. */
    method WritePreferences() returns (text: string)
      requires Valid()
      ensures DecodeSettings(text) == Some(Snapshot())
    {
      text := EncodeSettings(Snapshot());
      SettingsRoundTrip(Snapshot());
    }

    /** Restores the settings, then gives back the held output pin and registers DOUT
      * again asking for the stored pin (0 asks the allocator for any free one). A
      * string that does not parse leaves the settings and asks for the held pin. */
    method ReadPreferences(bus: Bus, text: string)
      requires Valid() && Holding() && bus.Valid()
      modifies this`angle, this`lmode, this`registrations, this`releases, inputPins, outputPins, bus
      ensures Valid() && Holding() && bus.Valid()
      ensures var wanted := if DecodeSettings(text).Some? then DecodeSettings(text).value.outPin else old(outputPins[0]);
        && (wanted != 0 ==> outputPins[0] == wanted)
        && bus.log == old(bus.log) + [UnregisterIO(old(outputPins[0])), RegisterIO(Dout, wanted, outputPins[0])]
      ensures outputPins[0] != 0 ==> bus.ioPins == (old(bus.ioPins) - {old(outputPins[0])})[outputPins[0] := Dout]
      ensures outputPins[0] == 0 ==> bus.ioPins == old(bus.ioPins) - {old(outputPins[0])}
      ensures bus.levels == old(bus.levels) && bus.pullups == old(bus.pullups) && bus.analog == old(bus.analog)
      ensures DecodeSettings(text).Some? ==>
        var s := DecodeSettings(text).value;
        inputPins[..] == s.pins && angle == s.angle && lmode == s.lmode
      ensures DecodeSettings(text).None? ==>
        inputPins[..] == old(inputPins[..]) && angle == old(angle) && lmode == old(lmode)
    {
      var outp := outputPins[0];
      match DecodeSettings(text) {
        case Some(s) =>
          for k := 0 to 3
            invariant forall j :: 0 <= j < k ==> inputPins[j] == s.pins[j]
            invariant outputPins[0] == old(outputPins[0]) && unchanged(bus)
            invariant registrations == old(registrations) && releases == old(releases)
          {
            inputPins[k] := s.pins[k];
          }
          assert inputPins[..] == s.pins;
          outp, angle, lmode := s.outPin, s.angle, s.lmode;
        case None =>
      }
      bus.UnregisterIOpin(outputPins[0]);
      releases := releases + 1;
      var pin := bus.RegisterIOpin(Dout, outp);
      outputPins[0] := pin;
      registrations := registrations + 1;
    }

    /** Takes the three selected pins, the angle combo read with atoi, and the model
      * combo (0 only for "FC16"). */
    method ReadPropertiesWindow(selected: seq<Byte>, angleText: string, modelText: string)
      requires Valid() && |selected| == 3
      modifies this`angle, this`lmode, inputPins
      ensures inputPins[..] == selected
      ensures angle == Atoi(angleText)
      ensures modelText == "FC16" ==> lmode == 0
      ensures modelText != "FC16" ==> lmode == 1
    {
      for k := 0 to 3
        invariant forall j :: 0 <= j < k ==> inputPins[j] == selected[j]
      {
        inputPins[k] := selected[k];
      }
      angle := Atoi(angleText);
      lmode := ModelFor(modelText);
    }
  }
}
