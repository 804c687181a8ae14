/**
 * The eight push buttons. Each button drives one output pin; pressing it drives
 * the configured active level, releasing it drives the complement. The levels
 * are kept in output_value and put on the pins at the start of every tick.
 */
module PushButtons {
  import opened Wrappers
  import opened PinBus
  import opened PartMaps
  import Prefs

  /** Input region names in the order of their ids (I_B1 .. I_B8, I_J1). */
  const InputNames: seq<string> := ["B1", "B2", "B3", "B4", "B5", "B6", "B7", "B8", "J1"]

  /** Output region names in the order of their ids (O_P1 .. O_P8, O_B1 .. O_B8, O_J1). */
  const OutputNames: seq<string> :=
    ["P1", "P2", "P3", "P4", "P5", "P6", "P7", "P8",
     "B1", "B2", "B3", "B4", "B5", "B6", "B7", "B8", "J1"]

  /** get_in_id: the id of an input region name. */
  function InputId(name: string): (r: U16)
    ensures r == NoInput <==> name !in InputNames
    ensures r != NoInput ==> r < |InputNames| && InputNames[r] == name
  {
    if name == "B1" then 0
    else if name == "B2" then 1
    else if name == "B3" then 2
    else if name == "B4" then 3
    else if name == "B5" then 4
    else if name == "B6" then 5
    else if name == "B7" then 6
    else if name == "B8" then 7
    else if name == "J1" then 8
    else NoInput
  }

  /** get_out_id: the id of an output region name; an unknown name gets 1, the id of P2. */
  function OutputId(name: string): (r: U16)
    ensures r < |OutputNames|
    ensures name in OutputNames ==> OutputNames[r] == name
    ensures name !in OutputNames ==> r == NoOutput && OutputNames[r] == "P2"
  {
    if name == "P1" then 0
    else if name == "P2" then 1
    else if name == "P3" then 2
    else if name == "P4" then 3
    else if name == "P5" then 4
    else if name == "P6" then 5
    else if name == "P7" then 6
    else if name == "P8" then 7
    else if name == "B1" then 8
    else if name == "B2" then 9
    else if name == "B3" then 10
    else if name == "B4" then 11
    else if name == "B5" then 12
    else if name == "B6" then 13
    else if name == "B7" then 14
    else if name == "B8" then 15
    else if name == "J1" then 16
    else NoOutput
  }

  /** The part's persistent fields: the eight pin indices and the active level. */
  datatype Settings = Settings(pins: seq<Byte>, active: Byte)

  predicate WellFormed(s: Settings) {
    |s.pins| == 8
  }

  /** "%hhu,%hhu,%hhu,%hhu,%hhu,%hhu,%hhu,%hhu,%hhu": the 8 pins, then active. */
  function EncodeSettings(s: Settings): string
    requires WellFormed(s)
  {
    Prefs.Encode(s.pins + [s.active])
  }

  function DecodeSettings(text: string): Option<Settings> {
    match Prefs.Decode(text)
    case Some(xs) =>
      if |xs| == 9 && forall i :: 0 <= i < 9 ==> 0 <= xs[i] < 0x100 then
        var pins: seq<Byte> := xs[..8];
        Some(Settings(pins, xs[8]))
      else None
    case None => None
  }

  lemma SettingsRoundTrip(s: Settings)
    requires WellFormed(s)
    ensures DecodeSettings(EncodeSettings(s)) == Some(s)
  {
    Prefs.DecodeEncode(s.pins + [s.active]);
    assert (s.pins + [s.active])[..8] == s.pins;
  }

  /** One region of a mouse event: a hit on button region Bk sets level k-1. */
  function ButtonStep(vals: seq<Byte>, r: Region, x: U32, y: U32, level: Byte): seq<Byte> {
    if Hit(r, x, y) && r.id < 8 && r.id < |vals| then vals[r.id := level] else vals
  }

  /** A mouse event applied to every region of the map, in map order. */
  function ButtonFold(vals: seq<Byte>, rs: seq<Region>, x: U32, y: U32, level: Byte): seq<Byte> {
    if rs == [] then vals
    else ButtonStep(ButtonFold(vals, rs[..|rs| - 1], x, y, level), rs[|rs| - 1], x, y, level)
  }

  /** The same level for all eight buttons. */
  function Repeat8(c: Byte): seq<Byte> {
    [c, c, c, c, c, c, c, c]
  }

  /** After a press or release, button k is at the event's level iff one of its
    * regions was hit; every other entry is as before. */
  lemma {:induction false} ButtonFoldAt(vals: seq<Byte>, rs: seq<Region>, x: U32, y: U32, level: Byte, k: int)
    requires |vals| == 8 && 0 <= k < 8
    ensures |ButtonFold(vals, rs, x, y, level)| == 8
    ensures ButtonFold(vals, rs, x, y, level)[k] == if AnyHit(rs, k, x, y) then level else vals[k]
    decreases |rs|
  {
    if rs != [] {
      var init := rs[..|rs| - 1];
      ButtonFoldAt(vals, init, x, y, level, k);
      if AnyHit(init, k, x, y) {
        var j :| 0 <= j < |init| && Hit(init[j], x, y) && init[j].id == k;
        assert rs[j] == init[j];
      }
      if AnyHit(rs, k, x, y) && !(Hit(rs[|rs| - 1], x, y) && rs[|rs| - 1].id == k) {
        var j :| 0 <= j < |rs| && Hit(rs[j], x, y) && rs[j].id == k;
        assert init[j] == rs[j];
      }
    }
  }

  class PushButtons {
    /** The input regions of the part's map. */
    const inputs: seq<Region>
    const outputPins: array<Byte>
    const outputValue: array<Byte>
    var active: Byte

    ghost predicate Valid()
      reads this
    {
      outputPins.Length == 8 && outputValue.Length == 8 && outputPins != outputValue
    }

    /** Every button released: each level is !active. */
    ghost predicate AllReleased()
      reads this, outputValue
    {
      forall k :: 0 <= k < outputValue.Length ==> outputValue[k] == Not(active)
    }

    function Snapshot(): (s: Settings)
      reads this, outputPins
      requires Valid()
      ensures WellFormed(s)
    {
      Settings(outputPins[..], active)
    }

    constructor (inputs: seq<Region>)
      ensures Valid() && fresh(outputPins) && fresh(outputValue)
      ensures this.inputs == inputs && active == 1
      ensures outputPins[..] == [0, 0, 0, 0, 0, 0, 0, 0]
      ensures AllReleased()
    {
      this.inputs := inputs;
      active := 1;
      outputPins := new Byte[8](_ => 0);
      outputValue := new Byte[8](_ => Not(1));
    }

    /** Releases every button, then forces every pin through the opposite level and
      * back, so that a change is seen on each connected pin. */
    method Reset(bus: Bus)
      requires Valid() && bus.Valid()
      modifies outputValue, bus
      ensures bus.Valid() && AllReleased()
      ensures bus.log == old(bus.log)
                         + Writes(outputPins[..], Repeat8(Not(Not(active))))
                         + Writes(outputPins[..], outputValue[..])
      ensures bus.levels == DriveAll(DriveAll(old(bus.levels), outputPins[..], Repeat8(Not(Not(active)))),
                                     outputPins[..], outputValue[..])
      ensures bus.pullups == old(bus.pullups) && bus.ioPins == old(bus.ioPins)
      ensures bus.analog == old(bus.analog) && bus.ioNext == old(bus.ioNext)
    {
      for k := 0 to 8
        invariant forall j :: 0 <= j < k ==> outputValue[j] == Not(active)
        invariant unchanged(bus)
      {
        outputValue[k] := Not(active);
      }
      assert outputValue[..] == Repeat8(Not(active));
      DrivePins(bus, Repeat8(Not(Not(active))));
      DrivePins(bus, outputValue[..]);
    }

    /** Drives vals[i] onto output_pins[i] for i = 0 .. 7, in that order. */
    method DrivePins(bus: Bus, vals: seq<Byte>)
      requires Valid() && bus.Valid() && |vals| == 8
      modifies bus
      ensures bus.Valid()
      ensures bus.log == old(bus.log) + Writes(outputPins[..], vals)
      ensures bus.levels == DriveAll(old(bus.levels), outputPins[..], vals)
      ensures bus.pullups == old(bus.pullups) && bus.ioPins == old(bus.ioPins)
      ensures bus.analog == old(bus.analog) && bus.ioNext == old(bus.ioNext)
    {
      for i := 0 to 8
        invariant bus.Valid()
        invariant bus.log == old(bus.log) + Writes(outputPins[..i], vals[..i])
        invariant bus.levels == DriveAll(old(bus.levels), outputPins[..i], vals[..i])
        invariant bus.pullups == old(bus.pullups) && bus.ioPins == old(bus.ioPins)
        invariant bus.analog == old(bus.analog) && bus.ioNext == old(bus.ioNext)
      {
        bus.SetPinLevel(outputPins[i], vals[i]);
        assert outputPins[..i + 1][..i] == outputPins[..i] && vals[..i + 1][..i] == vals[..i];
      }
      assert outputPins[..8] == outputPins[..] && vals[..8] == vals;
    }

    /** Drives output_value[i] onto output_pins[i] for i = 0 .. 7, in that order. */
    method PreProcess(bus: Bus)
      requires Valid() && bus.Valid()
      modifies bus
      ensures bus.Valid()
      ensures bus.log == old(bus.log) + Writes(outputPins[..], outputValue[..])
      ensures bus.levels == DriveAll(old(bus.levels), outputPins[..], outputValue[..])
      ensures bus.pullups == old(bus.pullups) && bus.ioPins == old(bus.ioPins)
      ensures bus.analog == old(bus.analog) && bus.ioNext == old(bus.ioNext)
    {
      DrivePins(bus, outputValue[..]);
    }

    /** A press: each region containing (x, y) that is button region Bk drives level
      * k-1 to active. */
    method EvMouseButtonPress(button: nat, x: U32, y: U32, state: nat)
      requires Valid()
      modifies outputValue
      ensures outputValue[..] == ButtonFold(old(outputValue[..]), inputs, x, y, active)
    {
      for i := 0 to |inputs|
        invariant outputValue[..] == ButtonFold(old(outputValue[..]), inputs[..i], x, y, active)
      {
        assert inputs[..i + 1][..i] == inputs[..i];
        if Hit(inputs[i], x, y) && inputs[i].id < 8 {
          outputValue[inputs[i].id] := active;
        }
      }
      assert inputs[..|inputs|] == inputs;
    }

    /** A release: each region containing (x, y) that is button region Bk drives
      * level k-1 back to !active. */
    method EvMouseButtonRelease(button: nat, x: U32, y: U32, state: nat)
      requires Valid()
      modifies outputValue
      ensures outputValue[..] == ButtonFold(old(outputValue[..]), inputs, x, y, Not(active))
    {
      for i := 0 to |inputs|
        invariant outputValue[..] == ButtonFold(old(outputValue[..]), inputs[..i], x, y, Not(active))
      {
        assert inputs[..i + 1][..i] == inputs[..i];
        if Hit(inputs[i], x, y) && inputs[i].id < 8 {
          outputValue[inputs[i].id] := Not(active);
        }
      }
      assert inputs[..|inputs|] == inputs;
    }

    /** The preference string, which reads back as the current settings. */
    method WritePreferences() returns (text: string)
      requires Valid()
      ensures DecodeSettings(text) == Some(Snapshot())
    {
      text := EncodeSettings(Snapshot());
      SettingsRoundTrip(Snapshot());
    }

    /** Restores the pins and the active level, then releases every button. */
    method ReadPreferences(text: string)
      requires Valid()
      modifies outputPins, this`active, outputValue
      ensures AllReleased()
      ensures DecodeSettings(text).Some? ==> Snapshot() == DecodeSettings(text).value
      ensures DecodeSettings(text).None? ==> Snapshot() == old(Snapshot())
    {
      match DecodeSettings(text) {
        case Some(s) =>
          for k := 0 to 8
            invariant forall j :: 0 <= j < k ==> outputPins[j] == s.pins[j]
          {
            outputPins[k] := s.pins[k];
          }
          assert outputPins[..] == s.pins;
          active := s.active;
        case None =>
      }
      ghost var pinsNow, activeNow := outputPins[..], active;
      for k := 0 to 8
        invariant forall j :: 0 <= j < k ==> outputValue[j] == Not(active)
        invariant active == activeNow && outputPins[..] == pinsNow
      {
        outputValue[k] := Not(active);
      }
    }

    /** Takes the pin of each of the eight combos and the polarity combo: active is
      * 1 iff its text is exactly "HIGH"; then every button is released. */
    method ReadPropertiesWindow(pinTexts: seq<string>, polarityText: string)
      requires Valid() && |pinTexts| == 8
      modifies outputPins, this`active, outputValue
      ensures forall k :: 0 <= k < 8 ==> outputPins[k] == ToByte(Atoi(pinTexts[k]))
      ensures active == 1 <==> polarityText == "HIGH"
      ensures active == 0 <==> polarityText != "HIGH"
      ensures AllReleased()
    {
      for k := 0 to 8
        invariant forall j :: 0 <= j < k ==> outputPins[j] == ToByte(Atoi(pinTexts[j]))
      {
        outputPins[k] := ToByte(Atoi(pinTexts[k]));
      }
      active := if polarityText == "HIGH" then 1 else 0;
      for k := 0 to 8
        invariant forall j :: 0 <= j < k ==> outputValue[j] == Not(active)
        invariant forall j :: 0 <= j < 8 ==> outputPins[j] == ToByte(Atoi(pinTexts[j]))
        invariant active == if polarityText == "HIGH" then 1 else 0
      {
        outputValue[k] := Not(active);
      }
    }
  }

  /** After Reset, every connected output pin is at the released level: the last of
    * its two writes is !active. */
  lemma ResetEndsReleased(levels: map<int, Byte>, pins: seq<Byte>, vals: seq<Byte>, active: Byte, k: int)
    requires |pins| == 8 && |vals| == 8 && 0 <= k < 8 && pins[k] != 0
    requires forall j :: 0 <= j < 8 ==> vals[j] == Not(active)
    ensures var after := DriveAll(DriveAll(levels, pins, Repeat8(Not(Not(active)))), pins, vals);
            pins[k] in after && after[pins[k]] == Not(active)
  {
    DriveAllSame(DriveAll(levels, pins, Repeat8(Not(Not(active)))), pins, vals, Not(active), pins[k]);
  }

  /** After PreProcess, a pin named by exactly one button carries that button's level,
    * and a pin named by none keeps its level. */
  lemma PreProcessDrives(levels: map<int, Byte>, pins: seq<Byte>, vals: seq<Byte>, k: int, p: int)
    requires |pins| == 8 && |vals| == 8 && 0 <= k < 8 && pins[k] != 0
    requires forall j :: 0 <= j < 8 && j != k ==> pins[j] != pins[k]
    requires p !in pins
    ensures var after := DriveAll(levels, pins, vals);
            pins[k] in after && after[pins[k]] == vals[k]
            && (p in after <==> p in levels) && (p in levels ==> after[p] == levels[p])
  {
    DriveAllLast(levels, pins, vals, k);
    DriveAllOther(levels, pins, vals, p);
  }
}
