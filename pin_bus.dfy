/**
 * The board's pin bus as the parts see it. Parts hold 1-based pin indices of
 * width one byte; index 0 means "not connected". The bus stores a digital level
 * per index, an analog value per index, the open-collector pull-up buses used
 * for I2C, and the IO pins that parts register for their own outputs.
 *
 * The board's real bus implementation is not part of this model; this class gives
 * the interface the parts call, with the simplest state that behaves as the parts
 * expect, and a ghost log of every call in order.
 */
module PinBus {

  type Byte = x: int | 0 <= x < 0x100
  type U16 = x: int | 0 <= x < 0x1_0000
  type U32 = x: int | 0 <= x < 0x1_0000_0000
  type I32 = x: int | -0x8000_0000 <= x < 0x8000_0000

  /** C's conversion of an int to unsigned char. */
  function ToByte(x: int): (b: Byte)
    ensures 0 <= x < 0x100 ==> b == x
    ensures (b - x) % 0x100 == 0
  {
    x % 0x100
  }

  /** One call made on the bus, as recorded in its log. */
  datatype Call =
    | SetPin(pin: Byte, value: Byte)
    | WritePin(pin: Byte, value: Byte)
    | SetAPin(pin: Byte, volts: real)
    | ResetPullup(bus: int)
    | SetPullup(bus: int, value: Byte)
    | GetPullup(bus: int)
    | RegisterIO(name: string, requested: Byte, got: Byte)
    | UnregisterIO(pin: Byte)

  /** The level map after one digital write: pin 0 is not connected and ignored. */
  function Drive(levels: map<int, Byte>, pin: Byte, value: Byte): map<int, Byte> {
    if pin == 0 then levels else levels[pin := value]
  }

  /** Wired-AND: a contributor driving 0 pulls the line low, 1 leaves it as it is. */
  function WiredAnd(line: Byte, contribution: Byte): (r: Byte)
    ensures r == 0 <==> line == 0 || contribution == 0
    ensures r != 0 ==> r == line
  {
    if contribution == 0 then 0 else line
  }

  /** The SetPin calls that drive vals[i] onto pins[i], in index order. */
  function Writes(pins: seq<Byte>, vals: seq<Byte>): seq<Call>
    requires |pins| == |vals|
  {
    seq(|pins|, i requires 0 <= i < |pins| => SetPin(pins[i], vals[i]))
  }

  /** The level map after driving vals[i] onto pins[i] for i = 0, 1, ... in turn. */
  function DriveAll(levels: map<int, Byte>, pins: seq<Byte>, vals: seq<Byte>): map<int, Byte>
    requires |pins| == |vals|
  {
    if pins == [] then levels
    else Drive(DriveAll(levels, pins[..|pins| - 1], vals[..|vals| - 1]), pins[|pins| - 1], vals[|vals| - 1])
  }

  /** Later writes win: a pin written last at index i holds vals[i]. */
  lemma {:induction false} DriveAllLast(levels: map<int, Byte>, pins: seq<Byte>, vals: seq<Byte>, i: int)
    requires |pins| == |vals| && 0 <= i < |pins| && pins[i] != 0
    requires forall j :: i < j < |pins| ==> pins[j] != pins[i]
    ensures pins[i] in DriveAll(levels, pins, vals)
    ensures DriveAll(levels, pins, vals)[pins[i]] == vals[i]
    decreases |pins|
  {
    if i < |pins| - 1 {
      DriveAllLast(levels, pins[..|pins| - 1], vals[..|vals| - 1], i);
    }
  }

  /** A pin none of the writes names keeps its level (or stays undriven). */
  lemma {:induction false} DriveAllOther(levels: map<int, Byte>, pins: seq<Byte>, vals: seq<Byte>, p: int)
    requires |pins| == |vals| && p !in pins
    ensures p in DriveAll(levels, pins, vals) <==> p in levels
    ensures p in levels ==> DriveAll(levels, pins, vals)[p] == levels[p]
    decreases |pins|
  {
    if pins != [] {
      assert p !in pins[..|pins| - 1];
      DriveAllOther(levels, pins[..|pins| - 1], vals[..|vals| - 1], p);
    }
  }

  /** When every write drives the same value c, each connected pin named ends at c. */
  lemma {:induction false} DriveAllSame(levels: map<int, Byte>, pins: seq<Byte>, vals: seq<Byte>, c: Byte, p: Byte)
    requires |pins| == |vals| && p != 0 && p in pins
    requires forall j :: 0 <= j < |vals| ==> vals[j] == c
    ensures p in DriveAll(levels, pins, vals) && DriveAll(levels, pins, vals)[p] == c
    decreases |pins|
  {
    if pins[|pins| - 1] != p {
      assert p in pins[..|pins| - 1];
      DriveAllSame(levels, pins[..|pins| - 1], vals[..|vals| - 1], c, p);
    }
  }

  class Bus {
    var levels: map<int, Byte>
    var analog: map<int, real>
    var pullups: map<int, Byte>
    var ioPins: map<int, string>
    var ioNext: int
    ghost var log: seq<Call>

    ghost predicate Valid()
      reads this
    {
      ioNext >= 1
    }

    /** A fresh bus: no pin driven, no pull-up bus, no IO pin; IO pins are handed
      * out from the index after the board's own pins. */
    constructor (pinCount: Byte)
      ensures Valid()
      ensures levels == map[] && analog == map[] && pullups == map[] && ioPins == map[] && log == []
      ensures ioNext == pinCount + 1
    {
      levels := map[];
      analog := map[];
      pullups := map[];
      ioPins := map[];
      ioNext := pinCount + 1;
      log := [];
    }

    /** The current level of a connected pin; a pin nobody has driven reads low. */
    function Level(pin: Byte): Byte
      reads this
      requires pin != 0
    {
      if pin in levels then levels[pin] else 0
    }

    method SetPinLevel(pin: Byte, value: Byte)
      requires Valid()
      modifies this
      ensures Valid()
      ensures levels == Drive(old(levels), pin, value)
      ensures log == old(log) + [SetPin(pin, value)]
      ensures analog == old(analog) && pullups == old(pullups)
      ensures ioPins == old(ioPins) && ioNext == old(ioNext)
    {
      levels := Drive(levels, pin, value);
      log := log + [SetPin(pin, value)];
    }

    method WritePinLevel(pin: Byte, value: Byte)
      requires Valid()
      modifies this
      ensures Valid()
      ensures levels == Drive(old(levels), pin, value)
      ensures log == old(log) + [WritePin(pin, value)]
      ensures analog == old(analog) && pullups == old(pullups)
      ensures ioPins == old(ioPins) && ioNext == old(ioNext)
    {
      levels := Drive(levels, pin, value);
      log := log + [WritePin(pin, value)];
    }

    method SetAnalog(pin: Byte, volts: real)
      requires Valid()
      modifies this
      ensures Valid()
      ensures analog == if pin == 0 then old(analog) else old(analog)[pin := volts]
      ensures log == old(log) + [SetAPin(pin, volts)]
      ensures levels == old(levels) && pullups == old(pullups)
      ensures ioPins == old(ioPins) && ioNext == old(ioNext)
    {
      if pin != 0 {
        analog := analog[pin := volts];
      }
      log := log + [SetAPin(pin, volts)];
    }

    /** Starts the tick's contention window: the line is released (high). */
    method ResetPullupBus(id: int)
      requires Valid()
      modifies this
      ensures Valid()
      ensures pullups == old(pullups)[id := 1]
      ensures log == old(log) + [ResetPullup(id)]
      ensures levels == old(levels) && analog == old(analog)
      ensures ioPins == old(ioPins) && ioNext == old(ioNext)
    {
      pullups := pullups[id := 1];
      log := log + [ResetPullup(id)];
    }

    /** The line value of a bus; a bus nobody has touched reads as released. */
    function PullupLine(id: int): Byte
      reads this
    {
      if id in pullups then pullups[id] else 1
    }

    method SetPullupBus(id: int, value: Byte)
      requires Valid()
      modifies this
      ensures Valid()
      ensures pullups == old(pullups)[id := WiredAnd(old(PullupLine(id)), value)]
      ensures log == old(log) + [SetPullup(id, value)]
      ensures levels == old(levels) && analog == old(analog)
      ensures ioPins == old(ioPins) && ioNext == old(ioNext)
    {
      pullups := pullups[id := WiredAnd(PullupLine(id), value)];
      log := log + [SetPullup(id, value)];
    }

    method GetPullupBus(id: int) returns (value: Byte)
      requires Valid()
      modifies this
      ensures Valid()
      ensures value == old(PullupLine(id))
      ensures log == old(log) + [GetPullup(id)]
      ensures levels == old(levels) && analog == old(analog) && pullups == old(pullups)
      ensures ioPins == old(ioPins) && ioNext == old(ioNext)
    {
      value := PullupLine(id);
      log := log + [GetPullup(id)];
    }

    /** Registers an IO pin for a part's output: the requested index when one is
      * given, otherwise the next free index; 0 when none is left. */
    method RegisterIOpin(name: string, requested: Byte) returns (pin: Byte)
      requires Valid()
      modifies this
      ensures Valid()
      ensures requested != 0 ==> pin == requested
      ensures pin != 0 ==> ioPins == old(ioPins)[pin := name]
      ensures pin == 0 ==> ioPins == old(ioPins)
      ensures log == old(log) + [RegisterIO(name, requested, pin)]
      ensures levels == old(levels) && analog == old(analog) && pullups == old(pullups)
    {
      if requested != 0 {
        pin := requested;
      } else if ioNext < 0x100 {
        pin := ioNext;
        ioNext := ioNext + 1;
      } else {
        pin := 0;
      }
      if pin != 0 {
        ioPins := ioPins[pin := name];
      }
      log := log + [RegisterIO(name, requested, pin)];
    }

    method UnregisterIOpin(pin: Byte)
      requires Valid()
      modifies this
      ensures Valid()
      ensures ioPins == old(ioPins) - {pin}
      ensures log == old(log) + [UnregisterIO(pin)]
      ensures levels == old(levels) && analog == old(analog) && pullups == old(pullups)
      ensures ioNext == old(ioNext)
    {
      ioPins := ioPins - {pin};
      log := log + [UnregisterIO(pin)];
    }
  }
}
