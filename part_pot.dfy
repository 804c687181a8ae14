/**
 * The four-slider potentiometer. Pressing inside slider k grabs it and moves it
 * to the pointer, dragging moves it only while it is grabbed, releasing lets go.
 * Every 100001 calls of Process the slider positions are pushed to the analog
 * pins as voltages.
 */
module Potentiometers {
  import opened Wrappers
  import opened PinBus
  import opened PartMaps
  import Prefs

  const InputNames: seq<string> := ["PO1", "PO2", "PO3", "PO4"]
  const OutputNames: seq<string> := ["P1", "P2", "P3", "P4", "PO1", "PO2", "PO3", "PO4"]

  /** get_in_id: the id of an input region name. */
  function InputId(name: string): (r: U16)
    ensures r == NoInput <==> name !in InputNames
    ensures r != NoInput ==> r < |InputNames| && InputNames[r] == name
  {
    if name == "PO1" then 0
    else if name == "PO2" then 1
    else if name == "PO3" then 2
    else if name == "PO4" then 3
    else NoInput
  }

  /** get_out_id: the id of an output region name; an unknown name gets 1, the id of P2. */
  function OutputId(name: string): (r: U16)
    ensures r < |OutputNames|
    ensures name in OutputNames ==> OutputNames[r] == name
    ensures name !in OutputNames ==> r == NoOutput && OutputNames[r] == "P2"
  {
    if name == "P1" then 0
    else if name == "P2" then 1
    else if name == "P3" then 2
    else if name == "P4" then 3
    else if name == "PO1" then 4
    else if name == "PO2" then 5
    else if name == "PO3" then 6
    else if name == "PO4" then 7
    else NoOutput
  }

  /** Refresh threshold: the analog pins are pushed when the counter exceeds it. */
  const RefreshLimit := 100000

  /** The voltage of a slider at offset v from the top of its 148-pixel track. */
  function Volts(v: Byte): real {
    5.0 * (148 - v) as real / 148.0
  }

  /** The slider offset for a pointer at height y inside region r, computed as the
    * source does: the limit l = y2 - y1 - 10 is an unsigned int and the offset an
    * unsigned char. */
  function Slider(r: Region, y: U32): Byte
    requires r.y1 <= y
  {
    var l := (r.y2 - r.y1 - 10) % 0x1_0000_0000;
    var v := ToByte(y - r.y1);
    if v >= l then ToByte(l) else v
  }

  /** For a region between 10 and 255 pixels tall the offset is y - y1, clamped to
    * the height less the 10-pixel knob. */
  lemma SliderClamps(r: Region, y: U32)
    requires r.y1 <= y <= r.y2
    requires 10 <= r.y2 - r.y1 < 0x100
    ensures Slider(r, y) == if y - r.y1 <= r.y2 - r.y1 - 10 then y - r.y1 else r.y2 - r.y1 - 10
  {
  }

  /** For a region less than 10 pixels tall the limit wraps around and no clamp applies. */
  lemma SliderShortRegion(r: Region, y: U32)
    requires r.y1 <= y <= r.y2
    requires r.y2 - r.y1 < 10
    ensures Slider(r, y) == y - r.y1
  {
  }

  /** Positions and grab flags of the four sliders. */
  datatype Sliders = Sliders(values: seq<Byte>, active: seq<Byte>)

  predicate Four(s: Sliders) {
    |s.values| == 4 && |s.active| == 4
  }

  function PressStep(s: Sliders, r: Region, x: U32, y: U32): Sliders
    requires Four(s)
  {
    if Hit(r, x, y) && r.id < 4 then Sliders(s.values[r.id := Slider(r, y)], s.active[r.id := 1]) else s
  }

  function MoveStep(s: Sliders, r: Region, x: U32, y: U32): Sliders
    requires Four(s)
  {
    if Hit(r, x, y) && r.id < 4 && s.active[r.id] != 0 then Sliders(s.values[r.id := Slider(r, y)], s.active)
    else s
  }

  function ReleaseStep(s: Sliders, r: Region, x: U32, y: U32): Sliders
    requires Four(s)
  {
    if Hit(r, x, y) && r.id < 4 then Sliders(s.values, s.active[r.id := 0]) else s
  }

  datatype MouseEvent = Press | Move | Release

  /** A mouse event applied to every region of the map, in map order. */
  function SliderFold(s: Sliders, rs: seq<Region>, x: U32, y: U32, ev: MouseEvent): (t: Sliders)
    requires Four(s)
    ensures Four(t)
  {
    if rs == [] then s
    else
      var before := SliderFold(s, rs[..|rs| - 1], x, y, ev);
      var r := rs[|rs| - 1];
      match ev
      case Press => PressStep(before, r, x, y)
      case Move => MoveStep(before, r, x, y)
      case Release => ReleaseStep(before, r, x, y)
  }

  /** A press grabs slider k iff one of its regions is hit, and moves it to the
    * pointer in the last such region; the other sliders are untouched. */
  lemma {:induction false} PressAt(s: Sliders, rs: seq<Region>, x: U32, y: U32, k: int)
    requires Four(s) && 0 <= k < 4
    ensures var t := SliderFold(s, rs, x, y, Press);
            && t.active[k] == (if AnyHit(rs, k, x, y) then 1 else s.active[k])
            && t.values[k] == match LastHit(rs, k, x, y)
                              case Some(r) => Slider(r, y)
                              case None => s.values[k]
    decreases |rs|
  {
    LastHitExists(rs, k, x, y);
    if rs != [] {
      PressAt(s, rs[..|rs| - 1], x, y, k);
      LastHitExists(rs[..|rs| - 1], k, x, y);
    }
  }

  /** A drag moves slider k only while it is grabbed, to the pointer in the last hit
    * region of slider k; no grab flag changes. */
  lemma {:induction false} MoveAt(s: Sliders, rs: seq<Region>, x: U32, y: U32, k: int)
    requires Four(s) && 0 <= k < 4
    ensures var t := SliderFold(s, rs, x, y, Move);
            && t.active == s.active
            && t.values[k] == if s.active[k] == 0 then s.values[k]
                              else match LastHit(rs, k, x, y)
                                   case Some(r) => Slider(r, y)
                                   case None => s.values[k]
    decreases |rs|
  {
    if rs != [] {
      MoveAt(s, rs[..|rs| - 1], x, y, k);
    }
  }

  /** A release lets go of slider k iff one of its regions is hit, and moves nothing. */
  lemma {:induction false} ReleaseAt(s: Sliders, rs: seq<Region>, x: U32, y: U32, k: int)
    requires Four(s) && 0 <= k < 4
    ensures var t := SliderFold(s, rs, x, y, Release);
            && t.values == s.values
            && t.active[k] == (if AnyHit(rs, k, x, y) then 0 else s.active[k])
    decreases |rs|
  {
    LastHitExists(rs, k, x, y);
    if rs != [] {
      ReleaseAt(s, rs[..|rs| - 1], x, y, k);
      LastHitExists(rs[..|rs| - 1], k, x, y);
    }
  }

  /** The refresh counter after one Process. */
  function NextRefresh(r: nat): (r': nat)
    ensures 1 <= r' <= RefreshLimit + 1
  {
    (if r > RefreshLimit then 0 else r) + 1
  }

  function RefreshAfter(r: nat, n: nat): nat
    decreases n
  {
    if n == 0 then r else RefreshAfter(NextRefresh(r), n - 1)
  }

  /** Between two pushes the counter only counts up: from r, the next
    * RefreshLimit + 1 - r calls do not push. */
  lemma {:induction false} RefreshCountsUp(r: nat, n: nat)
    requires 1 <= r && r + n <= RefreshLimit + 1
    ensures RefreshAfter(r, n) == r + n
    decreases n
  {
    if n > 0 {
      RefreshCountsUp(r + 1, n - 1);
    }
  }

  /** The calls that push slider k's voltage to analog pin k, for k = 0 .. 3. */
  function AnalogWrites(pins: seq<Byte>, vals: seq<Byte>): seq<Call>
    requires |pins| == |vals|
  {
    seq(|pins|, i requires 0 <= i < |pins| => SetAPin(pins[i], Volts(vals[i])))
  }

  /** The analog map after setting pins[i] to the voltage of vals[i] for i = 0, 1, ...
    * in turn; pin 0 is not connected and is skipped. */
  function AnalogAll(analog: map<int, real>, pins: seq<Byte>, vals: seq<Byte>): map<int, real>
    requires |pins| == |vals|
  {
    if pins == [] then analog
    else
      var before := AnalogAll(analog, pins[..|pins| - 1], vals[..|vals| - 1]);
      var p := pins[|pins| - 1];
      if p == 0 then before else before[p := Volts(vals[|vals| - 1])]
  }

  /** Later writes win: a connected pin written last at index i holds the voltage
    * of vals[i]. */
  lemma {:induction false} AnalogAllLast(analog: map<int, real>, pins: seq<Byte>, vals: seq<Byte>, i: int)
    requires |pins| == |vals| && 0 <= i < |pins| && pins[i] != 0
    requires forall j :: i < j < |pins| ==> pins[j] != pins[i]
    ensures pins[i] in AnalogAll(analog, pins, vals)
    ensures AnalogAll(analog, pins, vals)[pins[i]] == Volts(vals[i])
    decreases |pins|
  {
    if i < |pins| - 1 {
      AnalogAllLast(analog, pins[..|pins| - 1], vals[..|vals| - 1], i);
    }
  }

  /** A pin none of the writes names keeps its voltage (or stays unset). */
  lemma {:induction false} AnalogAllOther(analog: map<int, real>, pins: seq<Byte>, vals: seq<Byte>, p: int)
    requires |pins| == |vals| && p !in pins
    ensures p in AnalogAll(analog, pins, vals) <==> p in analog
    ensures p in analog ==> AnalogAll(analog, pins, vals)[p] == analog[p]
    decreases |pins|
  {
    if pins != [] {
      assert p !in pins[..|pins| - 1];
      AnalogAllOther(analog, pins[..|pins| - 1], vals[..|vals| - 1], p);
    }
  }

  /** The persistent fields: the four pin indices and the four slider positions. */
  datatype Settings = Settings(pins: seq<Byte>, values: seq<Byte>)

  predicate WellFormed(s: Settings) {
    |s.pins| == 4 && |s.values| == 4
  }

  /** "%hhu,%hhu,%hhu,%hhu,%hhu,%hhu,%hhu,%hhu": the 4 pins, then the 4 positions. */
  function EncodeSettings(s: Settings): string
    requires WellFormed(s)
  {
    Prefs.Encode(s.pins + s.values)
  }

  function DecodeSettings(text: string): Option<Settings> {
    match Prefs.Decode(text)
    case Some(xs) =>
      if |xs| == 8 && forall i :: 0 <= i < 8 ==> 0 <= xs[i] < 0x100 then
        var pins: seq<Byte> := xs[..4];
        var values: seq<Byte> := xs[4..];
        Some(Settings(pins, values))
      else None
    case None => None
  }

  lemma SettingsRoundTrip(s: Settings)
    requires WellFormed(s)
    ensures DecodeSettings(EncodeSettings(s)) == Some(s)
  {
    Prefs.DecodeEncode(s.pins + s.values);
    assert (s.pins + s.values)[..4] == s.pins && (s.pins + s.values)[4..] == s.values;
  }

  class Pot {
    const inputs: seq<Region>
    const inputPins: array<Byte>
    const values: array<Byte>
    const active: array<Byte>
    var refresh: nat

    ghost predicate Valid()
      reads this
    {
      && inputPins.Length == 4 && values.Length == 4 && active.Length == 4
      && inputPins != values && inputPins != active && values != active
    }

    function State(): (s: Sliders)
      reads this, values, active
      requires Valid()
      ensures Four(s)
    {
      Sliders(values[..], active[..])
    }

    function Snapshot(): (s: Settings)
      reads this, inputPins, values
      requires Valid()
      ensures WellFormed(s)
    {
      Settings(inputPins[..], values[..])
    }

    /** The refresh counter is not initialised by the constructor: its first value is
      * whatever the object's memory held, given here as refresh0. */
    constructor (inputs: seq<Region>, refresh0: nat)
      ensures Valid() && fresh(inputPins) && fresh(values) && fresh(active)
      ensures this.inputs == inputs && refresh == refresh0
      ensures inputPins[..] == [0, 0, 0, 0] && values[..] == [0, 0, 0, 0] && active[..] == [0, 0, 0, 0]
    {
      this.inputs := inputs;
      refresh := refresh0;
      inputPins := new Byte[4](_ => 0);
      values := new Byte[4](_ => 0);
      active := new Byte[4](_ => 0);
      new;
      assert inputPins[..] == [0, 0, 0, 0] && values[..] == [0, 0, 0, 0] && active[..] == [0, 0, 0, 0];
    }

    /** Pushes the four voltages once the counter has passed the limit, then counts. */
    method Process(bus: Bus)
      requires Valid() && bus.Valid()
      modifies this`refresh, bus
      ensures bus.Valid()
      ensures refresh == NextRefresh(old(refresh))
      ensures old(refresh) > RefreshLimit ==> bus.log == old(bus.log) + AnalogWrites(inputPins[..], values[..])
      ensures old(refresh) > RefreshLimit ==> bus.analog == AnalogAll(old(bus.analog), inputPins[..], values[..])
      ensures old(refresh) <= RefreshLimit ==> bus.log == old(bus.log) && bus.analog == old(bus.analog)
      ensures bus.levels == old(bus.levels) && bus.pullups == old(bus.pullups)
      ensures bus.ioPins == old(bus.ioPins) && bus.ioNext == old(bus.ioNext)
    {
      if refresh > RefreshLimit {
        refresh := 0;
        for k := 0 to 4
          invariant bus.Valid() && refresh == 0
          invariant bus.log == old(bus.log) + AnalogWrites(inputPins[..k], values[..k])
          invariant bus.analog == AnalogAll(old(bus.analog), inputPins[..k], values[..k])
          invariant bus.levels == old(bus.levels) && bus.pullups == old(bus.pullups)
          invariant bus.ioPins == old(bus.ioPins) && bus.ioNext == old(bus.ioNext)
        {
          bus.SetAnalog(inputPins[k], Volts(values[k]));
          assert inputPins[..k + 1][..k] == inputPins[..k] && values[..k + 1][..k] == values[..k];
        }
        assert inputPins[..4] == inputPins[..] && values[..4] == values[..];
      }
      refresh := refresh + 1;
    }

    method MouseButtonPress(button: nat, x: U32, y: U32, state: nat)
      requires Valid()
      modifies values, active
      ensures State() == SliderFold(old(State()), inputs, x, y, Press)
    {
      for i := 0 to |inputs|
        invariant State() == SliderFold(old(State()), inputs[..i], x, y, Press)
      {
        assert inputs[..i + 1][..i] == inputs[..i];
        var r := inputs[i];
        if Hit(r, x, y) {
          var l := (r.y2 - r.y1 - 10) % 0x1_0000_0000;
          if r.id < 4 {
            values[r.id] := ToByte(y - r.y1);
            if values[r.id] >= l {
              values[r.id] := ToByte(l);
            }
            active[r.id] := 1;
          }
        }
      }
      assert inputs[..|inputs|] == inputs;
    }

    method MouseButtonRelease(button: nat, x: U32, y: U32, state: nat)
      requires Valid()
      modifies active
      ensures State() == SliderFold(old(State()), inputs, x, y, Release)
    {
      for i := 0 to |inputs|
        invariant State() == SliderFold(old(State()), inputs[..i], x, y, Release)
      {
        assert inputs[..i + 1][..i] == inputs[..i];
        if Hit(inputs[i], x, y) && inputs[i].id < 4 {
          active[inputs[i].id] := 0;
        }
      }
      assert inputs[..|inputs|] == inputs;
    }

    method MouseMove(button: nat, x: U32, y: U32, state: nat)
      requires Valid()
      modifies values
      ensures State() == SliderFold(old(State()), inputs, x, y, Move)
    {
      for i := 0 to |inputs|
        invariant State() == SliderFold(old(State()), inputs[..i], x, y, Move)
      {
        assert inputs[..i + 1][..i] == inputs[..i];
        var r := inputs[i];
        if Hit(r, x, y) {
          var l := (r.y2 - r.y1 - 10) % 0x1_0000_0000;
          if r.id < 4 && active[r.id] != 0 {
            values[r.id] := ToByte(y - r.y1);
            if values[r.id] >= l {
              values[r.id] := ToByte(l);
            }
          }
        }
      }
      assert inputs[..|inputs|] == inputs;
    }

    /** The preference string, which reads back as the current pins and positions. */
    method WritePreferences() returns (text: string)
      requires Valid()
      ensures DecodeSettings(text) == Some(Snapshot())
    {
      text := EncodeSettings(Snapshot());
      SettingsRoundTrip(Snapshot());
    }

    /** Restores the pins and positions; the grab flags are left alone. */
    method ReadPreferences(text: string)
      requires Valid()
      modifies inputPins, values
      ensures DecodeSettings(text).Some? ==> Snapshot() == DecodeSettings(text).value
      ensures DecodeSettings(text).None? ==> Snapshot() == old(Snapshot())
      ensures active[..] == old(active[..])
    {
      match DecodeSettings(text) {
        case Some(s) =>
          for k := 0 to 4
            invariant forall j :: 0 <= j < k ==> inputPins[j] == s.pins[j] && values[j] == s.values[j]
          {
            inputPins[k] := s.pins[k];
            values[k] := s.values[k];
          }
          assert inputPins[..] == s.pins && values[..] == s.values;
        case None =>
      }
    }

    /** Takes the four pin combos, but only when the window was closed with OK (a
      * nonzero tag). */
    method ReadPropertiesWindow(tag: int, pinTexts: seq<string>)
      requires Valid() && |pinTexts| == 4
      modifies inputPins
      ensures tag != 0 ==> forall k :: 0 <= k < 4 ==> inputPins[k] == ToByte(Atoi(pinTexts[k]))
      ensures tag == 0 ==> inputPins[..] == old(inputPins[..])
    {
      if tag != 0 {
        for k := 0 to 4
          invariant forall j :: 0 <= j < k ==> inputPins[j] == ToByte(Atoi(pinTexts[j]))
        {
          inputPins[k] := ToByte(Atoi(pinTexts[k]));
        }
      }
    }
  }

  /** After a refresh, a connected pin named by one slider only carries that slider's
    * voltage, and an analog pin no slider names keeps its value. */
  lemma ProcessPushes(analog: map<int, real>, pins: seq<Byte>, vals: seq<Byte>, k: int, p: int)
    requires |pins| == 4 && |vals| == 4 && 0 <= k < 4 && pins[k] != 0
    requires forall j :: 0 <= j < 4 && j != k ==> pins[j] != pins[k]
    requires p !in pins
    ensures var after := AnalogAll(analog, pins, vals);
            pins[k] in after && after[pins[k]] == Volts(vals[k])
            && (p in after <==> p in analog) && (p in analog ==> after[p] == analog[p])
  {
    AnalogAllLast(analog, pins, vals, k);
    AnalogAllOther(analog, pins, vals, p);
  }
}
