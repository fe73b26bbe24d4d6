/** src/pc/controller/controller_wup.c: the backend that turns port 0 of
    the head USB adapter into N64 pad input. */
module ControllerWup {
  import opened CTypes
  import opened Pad
  import opened WupDecode
  import opened WupAdapter
  import opened WupRegistry

  /** `saturate`: `v * 3 / 2` in C's truncating division, clamped into
      `int8_t`. The source multiplies in `int`, so `3 * v` must fit. */
  function Saturate(v: int): (r: int8)
    requires IsInt32(3 * v)
    ensures TruncDiv(3 * v, 2) < -128 ==> r == -128
    ensures TruncDiv(3 * v, 2) > 127 ==> r == 127
    ensures -128 <= TruncDiv(3 * v, 2) <= 127 ==> r == TruncDiv(3 * v, 2)
  {
    var w := TruncDiv(v * 3, 2);
    if w < -128 then -128 else if w > 127 then 127 else w
  }

  lemma {:induction false} SaturateMonotone(u: int, v: int)
    requires IsInt32(3 * u) && IsInt32(3 * v) && u <= v
    ensures Saturate(u) <= Saturate(v)
  {
    TruncDivMonotone(3 * u, 3 * v, 2);
  }

  /** Only a centred axis gives a zero stick value, and the sign is kept. */
  lemma SaturateZero(v: int)
    requires IsInt32(3 * v)
    ensures Saturate(v) == 0 <==> v == 0
    ensures v > 0 ==> Saturate(v) > 0
    ensures v < 0 ==> Saturate(v) < 0
  {
  }

  /** Away from the clamp the scaling is symmetric about the centre. */
  lemma SaturateOdd(v: int)
    requires -85 <= v <= 85
    ensures Saturate(-v) == -Saturate(v)
  {
    TruncDivNegate(3 * v, 2);
  }

  /** The GameCube button bits of the adapter word onto N64 buttons. */
  function AdapterButtons(b: bv16): (r: bv16)
    ensures r & !(START_BUTTON | Z_TRIG | R_TRIG | A_BUTTON | B_BUTTON | L_TRIG) == 0
    ensures r & START_BUTTON != 0 <==> b & 0x0001 != 0
    ensures r & Z_TRIG != 0 <==> b & 0x0008 != 0
    ensures r & R_TRIG != 0 <==> b & 0x0004 != 0
    ensures r & A_BUTTON != 0 <==> b & 0x0100 != 0
    ensures r & B_BUTTON != 0 <==> b & 0x0200 != 0
    ensures r & L_TRIG != 0 <==> b & 0x1000 != 0
  {
    (if b & 0x0001 != 0 then START_BUTTON else 0)
    | (if b & 0x0008 != 0 then Z_TRIG else 0)
    | (if b & 0x0004 != 0 then R_TRIG else 0)
    | (if b & 0x0100 != 0 then A_BUTTON else 0)
    | (if b & 0x0200 != 0 then B_BUTTON else 0)
    | (if b & 0x1000 != 0 then L_TRIG else 0)
  }

  /** The C-stick bytes as C buttons, with strict thresholds on both sides. */
  function CButtons(cx: uint8, cy: uint8): (r: bv16)
    ensures r & !(L_CBUTTONS | R_CBUTTONS | D_CBUTTONS | U_CBUTTONS) == 0
    ensures r & L_CBUTTONS != 0 <==> cx < 0x40
    ensures r & R_CBUTTONS != 0 <==> cx > 0xC0
    ensures r & D_CBUTTONS != 0 <==> cy < 0x40
    ensures r & U_CBUTTONS != 0 <==> cy > 0xC0
    ensures r == 0 <==> 0x40 <= cx <= 0xC0 && 0x40 <= cy <= 0xC0
  {
    (if cx < 0x40 then L_CBUTTONS else 0)
    | (if cx > 0xC0 then R_CBUTTONS else 0)
    | (if cy < 0x40 then D_CBUTTONS else 0)
    | (if cy > 0xC0 then U_CBUTTONS else 0)
  }

  /** The button word after the ten `pad->button |=` tests, for the
      adapter word `b` and the C-stick bytes `cx`, `cy`: no bit is
      cleared, each adapter button presses its N64 button, the C buttons
      follow the strict thresholds, and the D-pad (which the adapter
      never reports) and the two unused bits 0x00C0 keep their bits. */
  function ReadButtons(button: bv16, b: bv16, cx: uint8, cy: uint8): (r: bv16)
    ensures button & !r == 0
    ensures r & START_BUTTON != 0 <==> button & START_BUTTON != 0 || b & 0x0001 != 0
    ensures r & Z_TRIG != 0 <==> button & Z_TRIG != 0 || b & 0x0008 != 0
    ensures r & R_TRIG != 0 <==> button & R_TRIG != 0 || b & 0x0004 != 0
    ensures r & A_BUTTON != 0 <==> button & A_BUTTON != 0 || b & 0x0100 != 0
    ensures r & B_BUTTON != 0 <==> button & B_BUTTON != 0 || b & 0x0200 != 0
    ensures r & L_TRIG != 0 <==> button & L_TRIG != 0 || b & 0x1000 != 0
    ensures r & L_CBUTTONS != 0 <==> button & L_CBUTTONS != 0 || cx < 0x40
    ensures r & R_CBUTTONS != 0 <==> button & R_CBUTTONS != 0 || cx > 0xC0
    ensures r & D_CBUTTONS != 0 <==> button & D_CBUTTONS != 0 || cy < 0x40
    ensures r & U_CBUTTONS != 0 <==> button & U_CBUTTONS != 0 || cy > 0xC0
    ensures r & (U_JPAD | D_JPAD | L_JPAD | R_JPAD) == button & (U_JPAD | D_JPAD | L_JPAD | R_JPAD)
    ensures r & 0x00C0 == button & 0x00C0
  {
    button | AdapterButtons(b) | CButtons(cx, cy)
  }

  /** The adapter's part of the button word does not depend on the
      buttons already pressed: it is ORed onto them. */
  lemma ReadButtonsSplit(button: bv16, b: bv16, cx: uint8, cy: uint8)
    ensures ReadButtons(button, b, cx, cy) == button | ReadButtons(0, b, cx, cy)
  {
    OrOnto(button, AdapterButtons(b), CButtons(cx, cy));
  }

  lemma OrOnto(x: bv16, a: bv16, c: bv16)
    ensures x | a | c == x | (0 | a | c)
  {
  }

  /** The backend ORs the same bits onto any pad: those it presses
      into a cleared one. */
  lemma WupReadOnto(pad: PadState, input: Option<AdapterInput>)
    ensures WupRead(pad, input).button == pad.button | WupRead(ZERO_PAD, input).button
  {
    if input.Some? {
      var inp := input.value;
      ReadButtonsSplit(pad.button, inp.buttons, inp.axis[2], inp.axis[3]);
      assert WupRead(pad, input).button == ReadButtons(pad.button, inp.buttons, inp.axis[2], inp.axis[3]);
      assert WupRead(ZERO_PAD, input).button == ReadButtons(0, inp.buttons, inp.axis[2], inp.axis[3]);
    } else {
      OrOnto(pad.button, 0, 0);
    }
  }

  /** The stick value of one axis byte. */
  function AxisStick(a: uint8): int8
  {
    Saturate(a as int - 128)
  }

  /** `controller_wup_read` on the pad value `pad`, given what
      `wup_get_controller_input` reported. */
  function WupRead(pad: PadState, input: Option<AdapterInput>): PadState
  {
    match input
    case None => pad
    case Some(inp) =>
      var sx, sy := AxisStick(inp.axis[0]), AxisStick(inp.axis[1]);
      var write := sx != 0 || sy != 0;
      PadState(ReadButtons(pad.button, inp.buttons, inp.axis[2], inp.axis[3]),
               if write then sx else pad.stickX, if write then sy else pad.stickY, pad.errnum)
  }

  /** Without adapter input the pad is left exactly as it was. */
  lemma NoInputKeepsPad(pad: PadState)
    ensures WupRead(pad, None) == pad
  {
  }

  /** The backend only sets buttons and never touches `errnum`. */
  lemma WupReadOnlyOrs(pad: PadState, input: Option<AdapterInput>)
    ensures OnlyOrs(pad, WupRead(pad, input)) && WupRead(pad, input).errnum == pad.errnum
  {
    if input.Some? {
      var inp := input.value;
      var r := ReadButtons(pad.button, inp.buttons, inp.axis[2], inp.axis[3]);
      assert WupRead(pad, input).button == r;
    }
  }

  /** The stick is overwritten exactly when the main-stick bytes are not
      both centred (0x80); otherwise the previous stick stays. */
  lemma WupReadStick(pad: PadState, inp: AdapterInput)
    ensures var r := WupRead(pad, Some(inp));
      if inp.axis[0] != 0x80 || inp.axis[1] != 0x80 then
        r.stickX == AxisStick(inp.axis[0]) && r.stickY == AxisStick(inp.axis[1])
      else
        r.stickX == pad.stickX && r.stickY == pad.stickY
  {
    SaturateZero(inp.axis[0] as int - 128);
    SaturateZero(inp.axis[1] as int - 128);
  }

  /** The N64 buttons of a Hyperkin report come out as the same N64
      buttons once the adapter word goes through this backend. */
  lemma HyperkinButtonsEndToEnd(p0: byte, p1: byte, button: bv16, cx: uint8, cy: uint8)
    ensures var r := ReadButtons(button, HyperkinButtons(p0, p1), cx, cy);
      && (r & START_BUTTON != 0 <==> button & START_BUTTON != 0 || p1 & 0x02 != 0)
      && (r & A_BUTTON != 0 <==> button & A_BUTTON != 0 || p0 & 0x04 != 0)
      && (r & B_BUTTON != 0 <==> button & B_BUTTON != 0 || p0 & 0x02 != 0)
      && (r & Z_TRIG != 0 <==> button & Z_TRIG != 0 || p0 & 0x40 != 0)
      && (r & R_TRIG != 0 <==> button & R_TRIG != 0 || p0 & 0x20 != 0)
      && (r & L_TRIG != 0 <==> button & L_TRIG != 0 || p0 & 0x10 != 0)
  {
  }

  /** A Hyperkin stick inside the flat 97..158 zone on both axes leaves
      the pad's stick as it was. */
  lemma HyperkinCentredKeepsStick(port: PortState, payload: seq<byte>, pad: PadState)
    requires |payload| == 8
    requires 97 <= payload[3] < 159 && 97 <= payload[4] < 159
    ensures var q := DecodeHyperkin(port, payload);
      var r := WupRead(pad, Some(AdapterInput(q.buttons, q.axis)));
      r.stickX == pad.stickX && r.stickY == pad.stickY
  {
    var q := DecodeHyperkin(port, payload);
    HyperkinFields(port, payload);
    assert q.axis[0] == 0x80 && q.axis[1] == 0x80;
    WupReadStick(pad, AdapterInput(q.buttons, q.axis));
  }

  /** The Hyperkin ramps aim at the manual's stick range, but this backend
      saturates every adapter's axes, so full deflection reaches ±120. */
  lemma HyperkinFullDeflection()
    ensures AxisStick(StickLeftRight(255)) == 120 && AxisStick(StickLeftRight(0)) == -120
    ensures AxisStick(StickUpDown(0)) == 120 && AxisStick(StickUpDown(255)) == -120
  {
  }

  /** A record that disconnects the port keeps its last button word and
      axes, and `wup_get_controller_input` does not look at `connected`:
      the backend keeps reading what was held when the controller went. */
  lemma DisconnectedPortStillRead(port: PortState, payload: seq<byte>, pad: PadState)
    requires |payload| == 9 && ConnectedType(payload[0]) == 0
    ensures var q := DecodePayload(port, payload);
      !q.connected
      && WupRead(pad, Some(AdapterInput(q.buttons, q.axis)))
         == WupRead(pad, Some(AdapterInput(port.buttons, port.axis)))
  {
    DisconnectedKeepsFields(port, payload);
  }

  /** The six `if (buttons & …) pad->button |= …` lines. */
  method PressAdapterButtons(pad: ContPad, buttons: bv16)
    modifies pad
    ensures pad.Value() == old(pad.Value()).(button := old(pad.button) | AdapterButtons(buttons))
  {
    var start, z, r := buttons & 0x0001 != 0, buttons & 0x0008 != 0, buttons & 0x0004 != 0;
    var a, b, l := buttons & 0x0100 != 0, buttons & 0x0200 != 0, buttons & 0x1000 != 0;
    if start { pad.button := pad.button | START_BUTTON; }
    if z { pad.button := pad.button | Z_TRIG; }
    if r { pad.button := pad.button | R_TRIG; }
    if a { pad.button := pad.button | A_BUTTON; }
    if b { pad.button := pad.button | B_BUTTON; }
    if l { pad.button := pad.button | L_TRIG; }
  }

  /** The four C-stick threshold lines. */
  method PressCButtons(pad: ContPad, cx: uint8, cy: uint8)
    modifies pad
    ensures pad.Value() == old(pad.Value()).(button := old(pad.button) | CButtons(cx, cy))
  {
    var left, right, down, up := cx < 0x40, cx > 0xC0, cy < 0x40, cy > 0xC0;
    if left { pad.button := pad.button | L_CBUTTONS; }
    if right { pad.button := pad.button | R_CBUTTONS; }
    if down { pad.button := pad.button | D_CBUTTONS; }
    if up { pad.button := pad.button | U_CBUTTONS; }
  }

  /** The two `saturate` calls and the conditional stick write. */
  method SetStick(pad: ContPad, ax: uint8, ay: uint8)
    modifies pad
    ensures var sx, sy := AxisStick(ax), AxisStick(ay);
      pad.Value() == if sx != 0 || sy != 0 then old(pad.Value()).(stickX := sx, stickY := sy) else old(pad.Value())
  {
    var stickX := AxisStick(ax);
    var stickY := AxisStick(ay);
    if stickX != 0 || stickY != 0 {
      pad.stickX := stickX;
      pad.stickY := stickY;
    }
  }

  /** The body of `controller_wup_read` once `wup_get_controller_input`
      has reported `input`. */
  method ApplyInput(pad: ContPad, input: Option<AdapterInput>)
    modifies pad
    ensures pad.Value() == WupRead(old(pad.Value()), input)
  {
    if input.Some? {
      var buttons, axis := input.value.buttons, input.value.axis;
      PressAdapterButtons(pad, buttons);
      PressCButtons(pad, axis[2], axis[3]);
      SetStick(pad, axis[0], axis[1]);
    }
  }

  /** `controller_wup_read` on the game's pad, reading the adapter list. */
  method Read(pad: ContPad, reg: Registry)
    requires reg.Valid()
    modifies pad
    ensures pad.Value() == WupRead(old(pad.Value()), reg.Input())
  {
    var ok, buttons, axis := reg.GetControllerInput(0, [0, 0, 0, 0, 0, 0]);
    var input := if ok then Some(AdapterInput(buttons, axis)) else None;
    ApplyInput(pad, input);
  }
}
