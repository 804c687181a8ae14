/**
 * What every part shares: the input regions read from its map file (the
 * rectangles a mouse event is tested against), the output records the renderer
 * reads (a value and a dirty flag), the released level of a button, and the
 * decimal conversion of combo-box texts.
 */
module PartMaps {
  import opened Wrappers
  import opened PinBus
  import Prefs

  /** An input region of a part's map: a rectangle and the region id. */
  datatype Region = Region(x1: U32, x2: U32, y1: U32, y2: U32, id: U16)

  /** The hit test of every part: inclusive on all four bounds. */
  predicate Hit(r: Region, x: U32, y: U32) {
    r.x1 <= x <= r.x2 && r.y1 <= y <= r.y2
  }

  /** Some region of the map that contains (x, y) has id k. */
  predicate AnyHit(rs: seq<Region>, k: int, x: U32, y: U32) {
    exists j :: 0 <= j < |rs| && Hit(rs[j], x, y) && rs[j].id == k
  }

  /** The last region of the map, in map order, that contains (x, y) and has id k. */
  function LastHit(rs: seq<Region>, k: int, x: U32, y: U32): (r: Option<Region>)
    ensures r.Some? ==> Hit(r.value, x, y) && r.value.id == k && r.value in rs
  {
    if rs == [] then None
    else if Hit(rs[|rs| - 1], x, y) && rs[|rs| - 1].id == k then Some(rs[|rs| - 1])
    else LastHit(rs[..|rs| - 1], k, x, y)
  }

  /** A region with id k is hit iff there is a last one. */
  lemma {:induction false} LastHitExists(rs: seq<Region>, k: int, x: U32, y: U32)
    ensures LastHit(rs, k, x, y).Some? <==> AnyHit(rs, k, x, y)
    decreases |rs|
  {
    if rs != [] {
      var init := rs[..|rs| - 1];
      LastHitExists(init, k, x, y);
      if AnyHit(init, k, x, y) {
        var j :| 0 <= j < |init| && Hit(init[j], x, y) && init[j].id == k;
        assert rs[j] == init[j];
      }
      if AnyHit(rs, k, x, y) && !(Hit(rs[|rs| - 1], x, y) && rs[|rs| - 1].id == k) {
        var j :| 0 <= j < |rs| && Hit(rs[j], x, y) && rs[j].id == k;
        assert init[j] == rs[j];
      }
    }
  }

  /** An output record: the value last published and the renderer's dirty flag. */
  datatype Output = Output(value: Byte, update: bool)

  /** The state of a foreign display engine (lcd_pcd8544_t, lcd_ssd1306_t,
    * ldd_max72xx_t): its redraw flag, and the registers the part never inspects. */
  datatype Engine = Engine(update: bool, regs: seq<int>)

  /** The id an input-name lookup returns for an unknown name: -1 as unsigned short. */
  const NoInput: U16 := 0xFFFF

  /** The id an output-name lookup returns for an unknown name. */
  const NoOutput: U16 := 1

  /** C's logical not on a byte: the level of a released button is !active. */
  function Not(b: Byte): Byte {
    if b == 0 then 1 else 0
  }

  /** The leading run of decimal digits. */
  function LeadingDigits(s: string): (d: string)
    ensures Prefs.AllDigits(d) && d <= s
    ensures d == s || !Prefs.IsDigit(s[|d|])
  {
    if s != [] && Prefs.IsDigit(s[0]) then [s[0]] + LeadingDigits(s[1..]) else []
  }

  /** atoi on a combo-box text: the value of its leading digits, 0 if there are none. */
  function Atoi(s: string): nat {
    Prefs.DigitsValue(LeadingDigits(s))
  }

  /** A number written in decimal and followed by a non-digit (a pin name, say) reads back. */
  lemma AtoiDecimal(n: nat, rest: string)
    requires rest == [] || !Prefs.IsDigit(rest[0])
    ensures Atoi(Prefs.Decimal(n) + rest) == n
  {
    var s := Prefs.Decimal(n) + rest;
    LeadingDigitsOf(Prefs.Decimal(n), rest);
    Prefs.DecimalValue(n);
  }

  lemma {:induction false} LeadingDigitsOf(d: string, rest: string)
    requires Prefs.AllDigits(d)
    requires rest == [] || !Prefs.IsDigit(rest[0])
    ensures LeadingDigits(d + rest) == d
    decreases |d|
  {
    if d != [] {
      assert (d + rest)[1..] == d[1..] + rest;
      LeadingDigitsOf(d[1..], rest);
    }
  }
}
