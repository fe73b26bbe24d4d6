/** Decoding of the USB adapter reports in src/pc/controller/wup.c: the
    status byte, the 9-byte per-port record of the 37-byte adapter report
    and the 8-byte Hyperkin N64 report, all onto the same per-port state. */
module WupDecode {
  import opened CTypes

  const STATE_NORMAL: byte := 0x10
  const STATE_WAVEBIRD: byte := 0x20

  /** The six `uint8_t` axis values of a `struct ports`. */
  type Axes = s: seq<uint8> | |s| == 6 witness [0, 0, 0, 0, 0, 0]

  /** The value of a `struct ports`. */
  datatype PortState = PortState(connected: bool, extraPower: bool, ty: byte, buttons: bv16, axis: Axes)

  /** A port as `calloc` leaves it. */
  const ZERO_PORT := PortState(false, false, 0, 0, [0, 0, 0, 0, 0, 0])

  /** `connected_type`: the controller kind announced by a status byte. */
  function ConnectedType(status: byte): (t: byte)
    ensures t == STATE_NORMAL <==> status & 0x10 != 0 && status & 0x20 == 0
    ensures t == STATE_WAVEBIRD <==> status & 0x20 != 0 && status & 0x10 == 0
    ensures t == 0 <==> (status & 0x10 != 0) == (status & 0x20 != 0)
  {
    var ty := status & (STATE_NORMAL | STATE_WAVEBIRD);
    if ty == STATE_NORMAL || ty == STATE_WAVEBIRD then ty else 0
  }

  /** `(uint16_t) hi << 8 | (uint16_t) lo` */
  function Word(hi: byte, lo: byte): (w: bv16)
    ensures w >> 8 == hi as bv16 && w & 0xFF == lo as bv16
  {
    ((hi as bv16) << 8) | (lo as bv16)
  }

  /** `handle_payload`: one 9-byte port record (status, two button bytes,
      six axis bytes) applied to the port's previous state. */
  function DecodePayload(port: PortState, payload: seq<byte>): (r: PortState)
    requires |payload| == 9
  {
    var status := payload[0];
    var t := ConnectedType(status);
    if t == 0 then
      port.(connected := false)
    else
      PortState(true, status & 0x04 != 0, t, Word(payload[1], payload[2]),
                [payload[3] as int, payload[4] as int, payload[5] as int,
                 payload[6] as int, payload[7] as int, payload[8] as int])
  }

  /** A status byte with neither or both type bits leaves the port
      disconnected and every other field as it was. */
  lemma DisconnectedKeepsFields(port: PortState, payload: seq<byte>)
    requires |payload| == 9
    requires ConnectedType(payload[0]) == 0
    ensures var r := DecodePayload(port, payload);
      !r.connected && r.extraPower == port.extraPower && r.ty == port.ty
      && r.buttons == port.buttons && r.axis == port.axis
  {
  }

  /** A connected record copies the button word and every axis byte,
      and takes the rumble-power bit 0x04 of the status. */
  lemma ConnectedCopiesRecord(port: PortState, payload: seq<byte>)
    requires |payload| == 9
    requires ConnectedType(payload[0]) != 0
    ensures var r := DecodePayload(port, payload);
      && r.connected && r.ty == ConnectedType(payload[0])
      && r.extraPower == (payload[0] & 0x04 != 0)
      && r.buttons >> 8 == payload[1] as bv16 && r.buttons & 0xFF == payload[2] as bv16
      && forall j :: 0 <= j < 6 ==> r.axis[j] == payload[j + 3] as int
  {
  }

  /** The generated button remap of `handle_hyperkin_payload`: the N64
      bits of the first two report bytes onto the adapter's bit layout. */
  function HyperkinButtons(p0: byte, p1: byte): (btns: bv16)
    ensures btns & !0x130D == 0
    ensures btns & 0x0008 != 0 <==> p0 & 0x40 != 0   // Z
    ensures btns & 0x0004 != 0 <==> p0 & 0x20 != 0   // R
    ensures btns & 0x1000 != 0 <==> p0 & 0x10 != 0   // L
    ensures btns & 0x0100 != 0 <==> p0 & 0x04 != 0   // A
    ensures btns & 0x0200 != 0 <==> p0 & 0x02 != 0   // B
    ensures btns & 0x0001 != 0 <==> p1 & 0x02 != 0   // START
  {
    var b0, b1 := p0 as bv16, p1 as bv16;
    ((b0 & 0x40) >> 3) | ((b0 & 0x20) >> 3) | ((b0 & 0x10) << 8)
    | ((b0 & 0x04) << 6) | ((b0 & 0x02) << 8) | ((b1 & 0x02) >> 1)
  }

  /** The left/right stick ramp: seven segments with breakpoints
      65, 81, 97, 159, 175, 191 onto 48..208, centred on 128. The two
      2.5-slope segments are exact in double arithmetic. */
  function StickLeftRight(x: int): (v: int)
    requires 0 <= x < 0x100
    ensures 48 <= v <= 208
    ensures x < 65 ==> v == 48
    ensures 97 <= x < 159 ==> v == 128
    ensures 191 <= x ==> v == 208
  {
    if x < 65 then 48
    else if x < 97 then (5 * x - 229) / 2
    else if x < 159 then 128
    else if x < 191 then (5 * x - 539) / 2
    else 208
  }

  /** The up/down stick ramp, inverted (a low payload is "up"):
      breakpoints 67, 83, 97, 159, 173, 189 onto 208..48. The two
      20/7-slope segments are written with decimal constants; the double
      result lies just below the exact value (2836 - 20x) / 7, resp.
      (4076 - 20x) / 7, so the truncating cast gives one less exactly
      where that value is a whole number. */
  function StickUpDown(x: int): (v: int)
    requires 0 <= x < 0x100
    ensures 48 <= v <= 208
    ensures x < 67 ==> v == 208
    ensures 97 <= x < 159 ==> v == 128
    ensures 189 <= x ==> v == 48
  {
    if x < 67 then 208
    else if x < 83 then (751 - 5 * x) / 2
    else if x < 97 then TruncBelow(2836 - 20 * x, 7)
    else if x < 159 then 128
    else if x < 173 then TruncBelow(4076 - 20 * x, 7)
    else if x < 189 then (1041 - 5 * x) / 2
    else 48
  }

  /** The truncation of a value just below `n / d`, for `n, d > 0`. */
  function TruncBelow(n: int, d: int): (v: int)
    requires n > 0 && d > 0
    ensures v * d < n <= v * d + d
  {
    if n % d == 0 then n / d - 1 else n / d
  }

  /** The four payloads where the up/down ramp is one below the exact
      line through its breakpoints. */
  lemma StickUpDownRounding()
    ensures StickUpDown(83) == 167 && StickUpDown(90) == 147
    ensures StickUpDown(159) == 127 && StickUpDown(166) == 107
  {
  }

  lemma StickLeftRightMonotone(x: int, y: int)
    requires 0 <= x <= y < 0x100
    ensures StickLeftRight(x) <= StickLeftRight(y)
  {
  }

  lemma StickUpDownAntitone(x: int, y: int)
    requires 0 <= x <= y < 0x100
    ensures StickUpDown(x) >= StickUpDown(y)
  {
  }

  /** `handle_hyperkin_payload`: an 8-byte Hyperkin report. The adapter
      has no status byte, so the port is always a connected standard
      controller without rumble power. */
  function DecodeHyperkin(port: PortState, payload: seq<byte>): PortState
    requires |payload| == 8
  {
    var axis := port.axis[0 := StickLeftRight(payload[3] as int)][1 := StickUpDown(payload[4] as int)]
                         [2 := payload[5] as int][3 := 255 - payload[6] as int];
    PortState(true, false, STATE_NORMAL, HyperkinButtons(payload[0], payload[1]), axis)
  }

  /** The decoded port is connected, a standard controller, and carries
      the remapped buttons, both stick maps, the two C-stick bytes as
      read and inverted, and the trigger bytes it had before. */
  lemma HyperkinFields(port: PortState, payload: seq<byte>)
    requires |payload| == 8
    ensures var r := DecodeHyperkin(port, payload);
      && r.connected && r.ty == STATE_NORMAL && !r.extraPower
      && r.buttons == HyperkinButtons(payload[0], payload[1])
      && r.axis[0] == StickLeftRight(payload[3] as int)
      && r.axis[1] == StickUpDown(payload[4] as int)
      && r.axis[2] == payload[5] as int && r.axis[3] == 255 - payload[6] as int
      && r.axis[4] == port.axis[4] && r.axis[5] == port.axis[5]
  {
  }
}
