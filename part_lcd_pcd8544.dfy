/**
 * The PCD8544 (Nokia 5110) LCD: five input pins routed to the display engine on
 * every Process.
 */
module LcdPcd8544 {
  import opened Wrappers
  import opened PinBus
  import opened PartMaps
  import Prefs

  const OutputNames: seq<string> := ["P1", "P2", "P3", "P4", "P5", "F1", "F2", "F3", "LCD"]

  /** get_in_id: the part has no input regions, so every name is unknown. */
  function InputId(name: string): (r: U16)
    ensures r == NoInput
  {
    NoInput
  }

  /** get_out_id: the id of an output region name; an unknown name gets 1, the id of P2. */
  function OutputId(name: string): (r: U16)
    ensures r < |OutputNames|
    ensures name in OutputNames ==> OutputNames[r] == name
    ensures name !in OutputNames ==> r == NoOutput && OutputNames[r] == "P2"
  {
    if name == "P1" then 0
    else if name == "P2" then 1
    else if name == "P3" then 2
    else if name == "P4" then 3
    else if name == "P5" then 4
    else if name == "F1" then 5
    else if name == "F2" then 6
    else if name == "F3" then 7
    else if name == "LCD" then 8
    else NoOutput
  }

  /** "%hhu,%hhu,%hhu,%hhu,%hhu": exactly the five pin indices. */
  function EncodePins(pins: seq<Byte>): string
    requires |pins| == 5
  {
    Prefs.Encode(pins)
  }

  function DecodePins(text: string): Option<seq<Byte>> {
    match Prefs.Decode(text)
    case Some(xs) =>
      if |xs| == 5 && forall i :: 0 <= i < 5 ==> 0 <= xs[i] < 0x100 then
        var pins: seq<Byte> := xs;
        Some(pins)
      else None
    case None => None
  }

  lemma PinsRoundTrip(pins: seq<Byte>)
    requires |pins| == 5
    ensures DecodePins(EncodePins(pins)) == Some(pins)
  {
    Prefs.DecodeEncode(pins);
  }

  /** The 0-based positions in the board's pin array that Process reads, in the
    * engine's argument order: pins 3, 4, 1, 0 and 2, each less one. */
  function ReadIndices(pins: seq<Byte>): seq<int>
    requires |pins| == 5
  {
    [pins[3] as int - 1, pins[4] as int - 1, pins[1] as int - 1, pins[0] as int - 1, pins[2] as int - 1]
  }

  /** As written, Process indexes the pin array with pin - 1 without a guard: for the
    * pins the constructor sets (all 0, not connected) every read is at index -1,
    * before the start of the array. */
  lemma UnconnectedReadsBeforeArray()
    ensures forall k :: 0 <= k < 5 ==> ReadIndices([0, 0, 0, 0, 0])[k] == -1
  {
  }

  /** When every pin is connected, every read index is in 0..254, the range a
    * 1-based byte pin index less one can take. */
  lemma ConnectedReadsInside(pins: seq<Byte>)
    requires |pins| == 5 && forall k :: 0 <= k < 5 ==> pins[k] != 0
    ensures forall k :: 0 <= k < 5 ==> 0 <= ReadIndices(pins)[k] < 0xFF
  {
  }

  type LcdIo = (Engine, Byte, Byte, Byte, Byte, Byte) -> Engine

  class Lcd {
    const inputPins: array<Byte>
    var lcd: Engine
    /** lcd_pcd8544_io, the foreign display engine. */
    const io: LcdIo

    ghost predicate Valid()
      reads this
    {
      inputPins.Length == 5
    }

    /** The engine after one step with the five routed levels; the bus is read at the
      * 1-based pin index, which is the array index plus one. */
    ghost function Stepped(bus: Bus): Engine
      reads this, inputPins, bus
      requires Valid()
      requires forall k :: 0 <= k < 5 ==> inputPins[k] != 0
    {
      io(lcd, bus.Level(inputPins[3]), bus.Level(inputPins[4]), bus.Level(inputPins[1]),
          bus.Level(inputPins[0]), bus.Level(inputPins[2]))
    }

    ghost predicate AllConnected()
      reads this, inputPins
      requires Valid()
    {
      forall k :: 0 <= k < 5 ==> inputPins[k] != 0
    }

    /** lcd_pcd8544_init and lcd_pcd8544_rst give the engine's first state, init. */
    constructor (io: LcdIo, init: Engine)
      ensures Valid() && fresh(inputPins)
      ensures inputPins[..] == [0, 0, 0, 0, 0] && lcd == init && this.io == io
    {
      this.io := io;
      lcd := init;
      inputPins := new Byte[5](_ => 0);
      new;
      assert inputPins[..] == [0, 0, 0, 0, 0];
    }

    /** Process as written: no guard, so it is defined only when none of the five
      * read indices is negative; it passes pins 3, 4, 1, 0, 2 to the engine in that
      * order. */
    method ProcessAsWritten(bus: Bus)
      requires Valid() && bus.Valid()
      requires forall k :: 0 <= k < 5 ==> 0 <= ReadIndices(inputPins[..])[k]
      modifies this`lcd
      ensures AllConnected() && lcd == old(Stepped(bus))
    {
      ghost var ix := ReadIndices(inputPins[..]);
      assert ix[0] >= 0 && ix[1] >= 0 && ix[2] >= 0 && ix[3] >= 0 && ix[4] >= 0;
      lcd := io(lcd, bus.Level(inputPins[3]), bus.Level(inputPins[4]), bus.Level(inputPins[1]),
                bus.Level(inputPins[0]), bus.Level(inputPins[2]));
    }

    /** Process with the guard the SSD1306 and LED-matrix parts use: the engine is
      * stepped only when all five pins are connected, so every read index is in
      * 0..254 and none is negative; when it steps it does exactly what the unguarded
      * code does. */
    method Process(bus: Bus)
      requires Valid() && bus.Valid()
      modifies this`lcd
      ensures AllConnected() ==> lcd == old(Stepped(bus))
      ensures !AllConnected() ==> lcd == old(lcd)
      ensures AllConnected() ==> forall k :: 0 <= k < 5 ==> 0 <= ReadIndices(inputPins[..])[k] < 0xFF
    {
      if inputPins[0] > 0 && inputPins[1] > 0 && inputPins[2] > 0 && inputPins[3] > 0 && inputPins[4] > 0 {
        ConnectedReadsInside(inputPins[..]);
        ProcessAsWritten(bus);
      }
    }

    /** The preference string, which reads back as the five pins. */
    method WritePreferences() returns (text: string)
      requires Valid()
      ensures DecodePins(text) == Some(inputPins[..])
    {
      text := EncodePins(inputPins[..]);
      PinsRoundTrip(inputPins[..]);
    }

    /** Restores the five pins; the base part's Reset that follows changes nothing
      * this model holds. */
    method ReadPreferences(text: string)
      requires Valid()
      modifies inputPins
      ensures DecodePins(text).Some? ==> inputPins[..] == DecodePins(text).value
      ensures DecodePins(text).None? ==> inputPins[..] == old(inputPins[..])
    {
      match DecodePins(text) {
        case Some(pins) =>
          for k := 0 to 5
            invariant forall j :: 0 <= j < k ==> inputPins[j] == pins[j]
          {
            inputPins[k] := pins[k];
          }
          assert inputPins[..] == pins;
        case None =>
      }
    }

    /** Takes the five pin combos, but only when the window was closed with OK (a
      * nonzero tag). */
    method ReadPropertiesWindow(tag: int, pinTexts: seq<string>)
      requires Valid() && |pinTexts| == 5
      modifies inputPins
      ensures tag != 0 ==> forall k :: 0 <= k < 5 ==> inputPins[k] == ToByte(Atoi(pinTexts[k]))
      ensures tag == 0 ==> inputPins[..] == old(inputPins[..])
    {
      if tag != 0 {
        for k := 0 to 5
          invariant forall j :: 0 <= j < k ==> inputPins[j] == ToByte(Atoi(pinTexts[j]))
        {
          inputPins[k] := ToByte(Atoi(pinTexts[k]));
        }
      }
    }
  }
}
