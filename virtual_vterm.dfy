/**
 * The IO Virtual Term: a serial terminal on two pins (RX into the simulated
 * board's transmitter, TX back). Text typed in its window is staged into the
 * UART driver's output buffer with the chosen line ending, and the driver
 * shifts one bit per Process.
 */
module VirtualTerm {
  import opened Wrappers
  import opened PinBus
  import opened PartMaps
  import Prefs

  /** Output ids. */
  const ORx := 0
  const OTx := 1
  const OLtx := 2
  const OLrx := 3
  const OVt := 4
  /** Input ids. */
  const ITerm := 0
  const IVt := 1
  /** Line endings; the terminal window's output id is declared in the same
    * enumeration, after the four endings, so it equals OVt. */
  const LeNone: Byte := 0
  const LeNl: Byte := 1
  const LeCr: Byte := 2
  const LeNlCr: Byte := 3
  const OTerm := 4

  /** The speed a new terminal runs at. */
  const DefaultSpeed: nat := 9600
  /** The key code of Enter in the edit box. */
  const Enter := 13
  /** The window position written when there is no window. */
  const NoWindowPos := 100

  const InputNames: seq<string> := ["PB_TERM", "VT_VTERM"]
  const OutputNames: seq<string> := ["PN_RX", "PN_TX", "LD_TX", "LD_RX", "VT_VTERM"]
  /** The texts of the line-ending combo, indexed by the ending they select. */
  const EndingNames: seq<string> := ["No line ending", "New line", "Carriage return", "Both NL and CR"]

  /** The UART driver state the part touches: the output buffer and its fill count,
    * the received-byte count, the activity LEDs, and registers it never inspects. */
  datatype Vt = Vt(buffOut: seq<char>, countOut: nat, countIn: nat, leds: bv8, regs: seq<int>)

  /** The window controls whose events reach the part. */
  datatype Control = SendButton | ClearButton | EditBox | SpeedCombo | EndingCombo | TermWindow

  /** GetInputId: the id of an input region name; an unknown name gets 0xFFFF. */
  function InputId(name: string): (r: U16)
    ensures name in InputNames ==> r < |InputNames| && InputNames[r] == name
    ensures name !in InputNames ==> r == NoInput
  {
    if name == "PB_TERM" then ITerm
    else if name == "VT_VTERM" then IVt
    else NoInput
  }

  /** GetOutputId: the id of an output region name. PB_TERM and VT_VTERM share id 4,
    * and an unknown name gets 1, the id of PN_TX. */
  function OutputId(name: string): (r: U16)
    ensures r < |OutputNames|
    ensures name in OutputNames ==> OutputNames[r] == name
    ensures name == "PB_TERM" ==> r == OTerm && r == OVt
    ensures name !in OutputNames && name != "PB_TERM" ==> r == NoOutput && OutputNames[r] == "PN_TX"
  {
    if name == "PN_RX" then ORx
    else if name == "PN_TX" then OTx
    else if name == "LD_TX" then OLtx
    else if name == "LD_RX" then OLrx
    else if name == "PB_TERM" then OTerm
    else if name == "VT_VTERM" then OVt
    else NoOutput
  }

  /** The characters appended after the typed text. */
  function Ending(lending: Byte): string {
    if lending == LeNl then "\n"
    else if lending == LeCr then "\r"
    else if lending == LeNlCr then "\r\n"
    else ""
  }

  /** The ending a line-ending combo text selects; a text outside the four keeps the
    * current ending. */
  function EndingFor(text: string, current: Byte): (r: Byte)
    ensures text in EndingNames ==> r < |EndingNames| && EndingNames[r] == text
    ensures text !in EndingNames ==> r == current
  {
    if text == "No line ending" then LeNone
    else if text == "New line" then LeNl
    else if text == "Carriage return" then LeCr
    else if text == "Both NL and CR" then LeNlCr
    else current
  }

  /** The driver with text and its ending staged at the front of the output buffer:
    * the count covers exactly the staged characters and the rest of the buffer is
    * kept. */
  function Staged(vt: Vt, text: string, lending: Byte): (r: Vt)
    requires |text| + |Ending(lending)| <= |vt.buffOut|
    ensures |r.buffOut| == |vt.buffOut|
    ensures r.countOut == |text| + |Ending(lending)|
    ensures r.buffOut[..r.countOut] == text + Ending(lending)
    ensures r.buffOut[r.countOut..] == vt.buffOut[r.countOut..]
    ensures r.countIn == vt.countIn && r.leds == vt.leds && r.regs == vt.regs
  {
    var n := |text| + |Ending(lending)|;
    vt.(buffOut := text + Ending(lending) + vt.buffOut[n..], countOut := n)
  }

  /** The show byte after a click on the terminal button: bit 0 (window visible)
    * flips, bit 7 (visibility changed) is set, and every other bit is cleared. */
  function ToggleShow(show: bv8): (r: bv8)
    ensures r & 1 != show & 1
    ensures r & 0x80 == 0x80
    ensures r & 0x7E == 0
  {
    ((show & 1) ^ 1) | 0x80
  }

  /** The TX activity LED's value: bit 1 of the driver's LEDs, as 0 or 2. */
  function TxLed(leds: bv8): (r: Byte)
    ensures r == 0 || r == 2
    ensures r == 2 <==> leds & 2 != 0
  {
    (leds & 2) as int
  }

  /** The RX activity LED's value: bit 0 of the driver's LEDs, as 0 or 1. */
  function RxLed(leds: bv8): (r: Byte)
    ensures r == 0 || r == 1
    ensures r == 1 <==> leds & 1 != 0
  {
    (leds & 1) as int
  }

  /** Seven fields: the RX and TX pins, the line ending, the speed, the show byte,
    * and the window position. */
  datatype Settings = Settings(pins: seq<Byte>, lending: Byte, speed: nat, show: Byte, x: int, y: int)

  function EncodeSettings(s: Settings): string
    requires |s.pins| == 2
  {
    Prefs.Encode(s.pins + [s.lending, s.speed, s.show, s.x, s.y])
  }

  function DecodeSettings(text: string): Option<Settings> {
    match Prefs.Decode(text)
    case Some(xs) =>
      if |xs| == 7 && 0 <= xs[0] < 0x100 && 0 <= xs[1] < 0x100 && 0 <= xs[2] < 0x100
         && 0 <= xs[3] && 0 <= xs[4] < 0x100 then
        Some(Settings([xs[0], xs[1]], xs[2], xs[3], xs[4], xs[5], xs[6]))
      else None
    case None => None
  }

  lemma SettingsRoundTrip(s: Settings)
    requires |s.pins| == 2
    ensures DecodeSettings(EncodeSettings(s)) == Some(s)
  {
    var xs := s.pins + [s.lending, s.speed, s.show, s.x, s.y];
    Prefs.DecodeEncode(xs);
    assert [xs[0], xs[1]] == s.pins;
  }

  type VtIo = (Vt, Byte) -> (Vt, int)

  class Term {
    const pins: array<Byte>
    var vt: Vt
    var speed: nat
    var sendText: bool
    var lending: Byte
    var textToSend: string
    var show: bv8
    var outputs: seq<Output>
    /** Whether the simulator runs with a GUI, and the terminal window's position. */
    const hasWindow: bool
    var winX: int
    var winY: int
    /** vterm_io, vterm_rst and vterm_set_speed, the foreign UART driver. */
    const vtIo: VtIo
    const vtRst: Vt -> Vt
    const vtSetSpeed: (Vt, nat) -> Vt

    ghost predicate Valid()
      reads this
    {
      pins.Length == 2 && |outputs| == |OutputNames|
    }

    /** The window position the preferences record. */
    function Position(): (int, int)
      reads this
    {
      if hasWindow then (winX, winY) else (NoWindowPos, NoWindowPos)
    }

    function Snapshot(): Settings
      reads this, pins
      requires Valid()
    {
      Settings(pins[..], lending, speed, show as int, Position().0, Position().1)
    }

    /** The level the driver receives: the RX pin's level, or 1 (an idle line)
      * when RX is not connected. */
    function LineIn(bus: Bus): Byte
      reads this, pins, bus
      requires Valid()
    {
      if pins[0] != 0 then bus.Level(pins[0]) else 1
    }

    /** A send is pending and the driver's output buffer is empty, so PreProcess
      * stages the text. */
    predicate Staging()
      reads this
    {
      sendText && vt.countOut == 0
    }

    /** The typed text and its ending fit the driver's output buffer. */
    predicate Fits()
      reads this
    {
      |textToSend| + |Ending(lending)| <= |vt.buffOut|
    }

    constructor (vtIo: VtIo, vtRst: Vt -> Vt, vtSetSpeed: (Vt, nat) -> Vt, init: Vt,
                 hasWindow: bool, winX: int, winY: int, outputs: seq<Output>)
      requires |outputs| == |OutputNames|
      ensures Valid() && fresh(pins)
      ensures pins[..] == [0, 0] && show == 0 && !sendText && speed == DefaultSpeed && lending == LeNl
      ensures vt == vtRst(init) && this.outputs == outputs && textToSend == ""
      ensures this.hasWindow == hasWindow && this.winX == winX && this.winY == winY
      ensures this.vtIo == vtIo && this.vtRst == vtRst && this.vtSetSpeed == vtSetSpeed
    {
      this.vtIo := vtIo;
      this.vtRst := vtRst;
      this.vtSetSpeed := vtSetSpeed;
      this.hasWindow := hasWindow;
      this.winX := winX;
      this.winY := winY;
      this.outputs := outputs;
      vt := vtRst(init);
      pins := new Byte[2](_ => 0);
      show := 0;
      sendText := false;
      speed := DefaultSpeed;
      lending := LeNl;
      textToSend := "";
      new;
      assert pins[..] == [0, 0];
    }

    /** Restarts the driver at the current speed. */
    method Reset()
      modifies this`vt
      ensures vt == vtSetSpeed(vtRst(old(vt)), speed)
    {
      vt := vtRst(vt);
      vt := vtSetSpeed(vt, speed);
    }

    /** Queues the edit box's text for sending. */
    method Submit(editText: string)
      modifies this`textToSend, this`sendText
      ensures textToSend == editText && sendText
    {
      textToSend := editText;
      sendText := true;
    }

    /** The Send button queues the edit box's text; Clear only empties the display. */
    method ButtonEvent(control: Control, editText: string)
      modifies this`textToSend, this`sendText
      ensures control == SendButton ==> textToSend == editText && sendText
      ensures control != SendButton ==> textToSend == old(textToSend) && sendText == old(sendText)
    {
      if control == SendButton {
        Submit(editText);
      }
    }

    /** Enter (key code 13) in the edit box queues its text; other keys and controls
      * do nothing. */
    method KeyEvent(control: Control, ukeysym: int, editText: string)
      modifies this`textToSend, this`sendText
      ensures control == EditBox && ukeysym == Enter ==> textToSend == editText && sendText
      ensures !(control == EditBox && ukeysym == Enter) ==>
                textToSend == old(textToSend) && sendText == old(sendText)
    {
      if control == EditBox {
        if ukeysym == Enter {
          Submit(editText);
        }
      }
    }

    /** The speed combo sets the speed (read with atoi) and tells the driver; the
      * ending combo selects one of the four endings by its exact text. */
    method Event(control: Control, text: string)
      modifies this`speed, this`vt, this`lending
      ensures control == SpeedCombo ==>
                speed == Atoi(text) && vt == vtSetSpeed(old(vt), speed) && lending == old(lending)
      ensures control == EndingCombo ==>
                lending == EndingFor(text, old(lending)) && speed == old(speed) && vt == old(vt)
      ensures control != SpeedCombo && control != EndingCombo ==>
                speed == old(speed) && vt == old(vt) && lending == old(lending)
    {
      if control == SpeedCombo {
        speed := Atoi(text);
        vt := vtSetSpeed(vt, speed);
      } else if control == EndingCombo {
        lending := EndingFor(text, lending);
      }
    }

    /** One driver step: it sees the RX level, and its result, truncated to a byte,
      * is driven onto TX. */
    method Process(bus: Bus)
      requires Valid() && bus.Valid()
      modifies this`vt, bus
      ensures bus.Valid()
      ensures var step := vtIo(old(vt), old(LineIn(bus)));
        && vt == step.0
        && bus.levels == Drive(old(bus.levels), pins[1], ToByte(step.1))
        && bus.log == old(bus.log) + [SetPin(pins[1], ToByte(step.1))]
      ensures bus.analog == old(bus.analog) && bus.pullups == old(bus.pullups)
      ensures bus.ioPins == old(bus.ioPins) && bus.ioNext == old(bus.ioNext)
    {
      var val: Byte := 1;
      if pins[0] != 0 {
        val := bus.Level(pins[0]);
      }
      var step := vtIo(vt, val);
      vt := step.0;
      bus.SetPinLevel(pins[1], ToByte(step.1));
    }

    /** Copies the pending text into the driver's output buffer, follows it with the
      * line ending, and clears the pending send. */
    method Stage()
      requires Staging() && Fits()
      modifies this`vt, this`sendText
      ensures vt == Staged(old(vt), textToSend, lending) && !sendText
    {
      sendText := false;
      ghost var buff0 := vt.buffOut;
      vt := vt.(countOut := |textToSend|);
      for i := 0 to vt.countOut
        invariant vt.countOut == |textToSend| && |vt.buffOut| == |buff0| && !sendText
        invariant vt.countIn == old(vt.countIn) && vt.leds == old(vt.leds) && vt.regs == old(vt.regs)
        invariant forall j :: 0 <= j < i ==> vt.buffOut[j] == textToSend[j]
        invariant forall j :: i <= j < |buff0| ==> vt.buffOut[j] == buff0[j]
      {
        vt := vt.(buffOut := vt.buffOut[i := textToSend[i]]);
      }
      if lending == LeNl {
        vt := vt.(buffOut := vt.buffOut[vt.countOut := '\n'], countOut := vt.countOut + 1);
      } else if lending == LeCr {
        vt := vt.(buffOut := vt.buffOut[vt.countOut := '\r'], countOut := vt.countOut + 1);
      } else if lending == LeNlCr {
        vt := vt.(buffOut := vt.buffOut[vt.countOut := '\r'], countOut := vt.countOut + 1);
        vt := vt.(buffOut := vt.buffOut[vt.countOut := '\n'], countOut := vt.countOut + 1);
      }
      ghost var staged := Staged(old(vt), textToSend, lending);
      assert vt.buffOut == staged.buffOut by {
        assert vt.buffOut[..staged.countOut] == staged.buffOut[..staged.countOut];
        assert vt.buffOut[staged.countOut..] == staged.buffOut[staged.countOut..];
        assert vt.buffOut == vt.buffOut[..staged.countOut] + vt.buffOut[staged.countOut..];
        assert staged.buffOut == staged.buffOut[..staged.countOut] + staged.buffOut[staged.countOut..];
      }
    }

    /** When a send is pending and the driver has nothing left to shift out, the text
      * and its line ending are staged and the send is cleared; a pending send waits
      * while the buffer is busy. Then one Process. */
    method PreProcess(bus: Bus)
      requires Valid() && bus.Valid()
      requires Staging() ==> Fits()
      modifies this`vt, this`sendText, bus
      ensures bus.Valid()
      ensures sendText == (old(sendText) && !old(Staging()))
      ensures var staged := if old(Staging()) then Staged(old(vt), textToSend, lending) else old(vt);
        var step := vtIo(staged, old(LineIn(bus)));
        && vt == step.0
        && bus.levels == Drive(old(bus.levels), pins[1], ToByte(step.1))
        && bus.log == old(bus.log) + [SetPin(pins[1], ToByte(step.1))]
      ensures bus.analog == old(bus.analog) && bus.pullups == old(bus.pullups)
      ensures bus.ioPins == old(bus.ioPins) && bus.ioNext == old(bus.ioNext)
    {
      if sendText {
        if vt.countOut == 0 {
          Stage();
        }
      }
      Process(bus);
    }

    /** A click on the terminal button with button 1 toggles the window. */
    method OnMouseButtonPress(inputId: int, button: int)
      modifies this`show
      ensures inputId == ITerm && button == 1 ==> show == ToggleShow(old(show))
      ensures !(inputId == ITerm && button == 1) ==> show == old(show)
    {
      if inputId == ITerm {
        if button == 1 {
          show := ((show & 0x01) ^ 1) | 0x80;
        }
      }
    }

    /** Requests a redraw of the terminal window when its visibility changed or bytes
      * arrived, and mirrors the driver's LED bits onto the two LED outputs, flagging
      * each only when its value changes. */
    method PostProcess()
      requires Valid()
      modifies this`outputs
      ensures Valid()
      ensures outputs[OTerm].value == old(outputs[OTerm].value)
      ensures outputs[OTerm].update == (old(outputs[OTerm].update) || show & 0x80 != 0 || vt.countIn != 0)
      ensures outputs[OLtx] == (if old(outputs[OLtx].value) != TxLed(vt.leds) then Output(TxLed(vt.leds), true)
                                else old(outputs[OLtx]))
      ensures outputs[OLrx] == (if old(outputs[OLrx].value) != RxLed(vt.leds) then Output(RxLed(vt.leds), true)
                                else old(outputs[OLrx]))
      ensures outputs[ORx] == old(outputs[ORx]) && outputs[OTx] == old(outputs[OTx])
    {
      var tx := TxLed(vt.leds);
      var rx := RxLed(vt.leds);
      var term := outputs[OTerm];
      if show & 0x80 != 0 {
        term := term.(update := true);
      }
      var ltx := outputs[OLtx];
      if ltx.value != tx {
        ltx := Output(tx, true);
      }
      var lrx := outputs[OLrx];
      if lrx.value != rx {
        lrx := Output(rx, true);
      }
      if vt.countIn != 0 {
        term := term.(update := true);
      }
      outputs := outputs[OLtx := ltx][OLrx := lrx][OTerm := term];
    }

    /** The preference string, which reads back as the current settings (with the
      * window at 100,100 when there is no window). */
    method WritePreferences() returns (text: string)
      requires Valid()
      ensures DecodeSettings(text) == Some(Snapshot())
    {
      text := EncodeSettings(Snapshot());
      SettingsRoundTrip(Snapshot());
    }

    /** Restores the settings, marks the window's visibility as changed so it is
      * redrawn, moves the window, and restarts the driver at the stored speed. */
    method ReadPreferences(text: string)
      requires Valid()
      modifies this`lending, this`speed, this`show, this`winX, this`winY, this`vt, pins
      ensures DecodeSettings(text).Some? ==>
        var s := DecodeSettings(text).value;
        && pins[..] == s.pins && lending == s.lending && speed == s.speed
        && show == (s.show as bv8) | 0x80
        && (hasWindow ==> winX == s.x && winY == s.y)
        && (!hasWindow ==> winX == old(winX) && winY == old(winY))
      ensures DecodeSettings(text).None? ==>
        && pins[..] == old(pins[..]) && lending == old(lending) && speed == old(speed)
        && show == old(show) | 0x80 && winX == old(winX) && winY == old(winY)
      ensures vt == vtSetSpeed(vtRst(old(vt)), speed)
    {
      match DecodeSettings(text) {
        case Some(s) =>
          pins[0] := s.pins[0];
          pins[1] := s.pins[1];
          assert pins[..] == s.pins;
          lending, speed, show := s.lending, s.speed, s.show as bv8;
          if hasWindow {
            winX, winY := s.x, s.y;
          }
        case None =>
      }
      show := show | 0x80;
      Reset();
    }

    /** Takes the RX and TX pins and the speed combo (read with atoi), then restarts
      * the driver. */
    method ReadPropertiesWindow(rx: Byte, tx: Byte, speedText: string)
      requires Valid()
      modifies this`speed, this`vt, pins
      ensures pins[..] == [rx, tx] && speed == Atoi(speedText)
      ensures vt == vtSetSpeed(vtRst(old(vt)), speed)
    {
      pins[0] := rx;
      pins[1] := tx;
      speed := Atoi(speedText);
      Reset();
      assert pins[..] == [rx, tx];
    }
  }

  /** Staging leaves the driver's buffer starting with exactly the typed text, then
    * nothing for no ending, '\n' for NL, '\r' for CR, and '\r' then '\n' for NL+CR;
    * an ending byte outside the four adds nothing. */
  lemma StagedEnding(vt: Vt, text: string, lending: Byte)
    requires |text| + |Ending(lending)| <= |vt.buffOut|
    ensures var r := Staged(vt, text, lending);
      && r.buffOut[..|text|] == text
      && (lending == LeNl ==> r.countOut == |text| + 1 && r.buffOut[|text|] == '\n')
      && (lending == LeCr ==> r.countOut == |text| + 1 && r.buffOut[|text|] == '\r')
      && (lending == LeNlCr ==> r.countOut == |text| + 2 && r.buffOut[|text|] == '\r' && r.buffOut[|text| + 1] == '\n')
      && (lending != LeNl && lending != LeCr && lending != LeNlCr ==> r.countOut == |text|)
  {
    var r := Staged(vt, text, lending);
    var m := r.buffOut[..r.countOut];
    assert r.buffOut[..|text|] == m[..|text|];
    if lending == LeNl || lending == LeCr {
      assert r.buffOut[|text|] == m[|text|];
    } else if lending == LeNlCr {
      assert r.buffOut[|text|] == m[|text|] && r.buffOut[|text| + 1] == m[|text| + 1];
    }
  }

  /** Reading back a string the part wrote restores the pins, the ending and the
    * speed, restores the show byte with bit 7 forced on, keeps the window where it
    * is, and restarts the driver at the restored speed. */
  method RestoreWritten(term: Term)
    requires term.Valid()
    modifies term`lending, term`speed, term`show, term`winX, term`winY, term`vt, term.pins
    ensures term.pins[..] == old(term.pins[..]) && term.lending == old(term.lending) && term.speed == old(term.speed)
    ensures term.show == old(term.show) | 0x80
    ensures term.winX == old(term.winX) && term.winY == old(term.winY)
    ensures term.vt == term.vtSetSpeed(term.vtRst(old(term.vt)), term.speed)
  {
    ghost var written := term.Snapshot();
    ByteBack(term.show);
    var text := term.WritePreferences();
    term.ReadPreferences(text);
    assert DecodeSettings(text) == Some(written);
  }

  lemma ByteBack(b: bv8)
    ensures (b as int) as bv8 == b
  {
  }
}
