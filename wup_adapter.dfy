/** The in-place side of src/pc/controller/wup.c: a `struct ports` whose
    fields `handle_payload` and `handle_hyperkin_payload` update, and a
    `struct adapter` whose reader thread dispatches each USB report to
    its four ports and keeps the last rumble packet it sent. */
module WupAdapter {
  import opened CTypes
  import opened WupDecode

  /** The identity of a `libusb_device` (the address the registry compares). */
  type DeviceId = int

  /** The only rumble packet the reader ever builds: rumble off on all four ports. */
  const RUMBLE_OFF: seq<byte> := [0x11, 0, 0, 0, 0]

  datatype Dispatched = Dispatched(ports: seq<PortState>, rumble: seq<byte>, sendRumble: bool)

  /** One turn of the reader loop of `adapter_thread` after a successful
      transfer of `report` (its length is the byte count transferred). */
  function Dispatch(ports: seq<PortState>, rumble: seq<byte>, report: seq<byte>): (r: Dispatched)
    requires |ports| == 4 && |rumble| == 5
    ensures |r.ports| == 4 && |r.rumble| == 5
  {
    if |report| == 8 then
      Dispatched(seq(4, i requires 0 <= i < 4 => DecodeHyperkin(ports[i], report)), rumble, false)
    else if |report| == 37 && report[0] == 0x21 then
      Dispatched(seq(4, i requires 0 <= i < 4 => DecodePayload(ports[i], report[1 + 9 * i .. 10 + 9 * i])),
                 RUMBLE_OFF, rumble != RUMBLE_OFF)
    else
      Dispatched(ports, rumble, false)
  }

  /** An 8-byte Hyperkin report is decoded into every port alike and
      sends no rumble. */
  lemma DispatchHyperkin(ports: seq<PortState>, rumble: seq<byte>, report: seq<byte>)
    requires |ports| == 4 && |rumble| == 5 && |report| == 8
    ensures var r := Dispatch(ports, rumble, report);
      && (forall i :: 0 <= i < 4 ==> r.ports[i] == DecodeHyperkin(ports[i], report))
      && r.rumble == rumble && !r.sendRumble
  {
  }

  /** A 37-byte report with header 0x21 gives port i the record at bytes
      1 + 9i .. 9 + 9i; the rumble packet becomes "all off" and is sent
      exactly when it differs from the one last sent. */
  lemma DispatchAdapterReport(ports: seq<PortState>, rumble: seq<byte>, report: seq<byte>)
    requires |ports| == 4 && |rumble| == 5
    requires |report| == 37 && report[0] == 0x21
    ensures var r := Dispatch(ports, rumble, report);
      && (forall i :: 0 <= i < 4 ==> r.ports[i] == DecodePayload(ports[i], report[1 + 9 * i .. 10 + 9 * i]))
      && r.rumble == RUMBLE_OFF && r.sendRumble == (rumble != RUMBLE_OFF)
  {
  }

  /** Every other report leaves the adapter as it was. */
  lemma DispatchIgnores(ports: seq<PortState>, rumble: seq<byte>, report: seq<byte>)
    requires |ports| == 4 && |rumble| == 5
    requires |report| != 8 && (|report| != 37 || report[0] != 0x21)
    ensures Dispatch(ports, rumble, report) == Dispatched(ports, rumble, false)
  {
  }

  /** After the first adapter report the stored packet is "all off", so
      the rumble is sent at most once while nothing else changes it. */
  lemma RumbleSentOnce(ports: seq<PortState>, rumble: seq<byte>, first: seq<byte>, second: seq<byte>)
    requires |ports| == 4 && |rumble| == 5
    requires |first| == 37 && first[0] == 0x21
    ensures var r := Dispatch(ports, rumble, first);
      !Dispatch(r.ports, r.rumble, second).sendRumble
  {
  }

  /** Once the stored packet is "all off", no report sends rumble and the
      packet stays "all off": by induction, after the first adapter
      report no later report sends rumble. */
  lemma RumbleStaysOff(ports: seq<PortState>, report: seq<byte>)
    requires |ports| == 4
    ensures var r := Dispatch(ports, RUMBLE_OFF, report);
      r.rumble == RUMBLE_OFF && !r.sendRumble
  {
  }

  /** Whether any of the reader turns for `reports`, in order, sends rumble. */
  predicate SendsRumble(ports: seq<PortState>, rumble: seq<byte>, reports: seq<seq<byte>>)
    requires |ports| == 4 && |rumble| == 5
    decreases |reports|
  {
    if |reports| == 0 then false
    else
      var r := Dispatch(ports, rumble, reports[0]);
      r.sendRumble || SendsRumble(r.ports, r.rumble, reports[1..])
  }

  /** After the first adapter report, no sequence of later reports sends
      rumble again. */
  lemma {:induction false} RumbleNeverResent(ports: seq<PortState>, rumble: seq<byte>,
                                             first: seq<byte>, later: seq<seq<byte>>)
    requires |ports| == 4 && |rumble| == 5
    requires |first| == 37 && first[0] == 0x21
    ensures var r := Dispatch(ports, rumble, first);
      !SendsRumble(r.ports, r.rumble, later)
  {
    var r := Dispatch(ports, rumble, first);
    DispatchAdapterReport(ports, rumble, first);
    StaysOff(r.ports, later);
  }

  lemma {:induction false} StaysOff(ports: seq<PortState>, reports: seq<seq<byte>>)
    requires |ports| == 4
    ensures !SendsRumble(ports, RUMBLE_OFF, reports)
    decreases |reports|
  {
    if |reports| > 0 {
      RumbleStaysOff(ports, reports[0]);
      StaysOff(Dispatch(ports, RUMBLE_OFF, reports[0]).ports, reports[1..]);
    }
  }

  /** `struct ports`. Its `axis[6]` member is stored inline in the
      struct, so it is a value here, not a separate heap array. */
  class Port {
    var connected: bool
    var extraPower: bool
    var ty: byte
    var buttons: bv16
    var axis: Axes

    function Model(): (p: PortState)
      reads this
    {
      PortState(connected, extraPower, ty, buttons, axis)
    }

    /** The zero-filled port of a freshly `calloc`ed adapter. */
    constructor ()
      ensures Model() == ZERO_PORT
    {
      connected, extraPower, ty, buttons := false, false, 0, 0;
      axis := [0, 0, 0, 0, 0, 0];
    }

    /** `handle_payload` on this port's 9-byte record. */
    method HandlePayload(payload: seq<byte>)
      requires |payload| == 9
      modifies this
      ensures Model() == DecodePayload(old(Model()), payload)
    {
      var status := payload[0];
      var t := ConnectedType(status);
      if t != 0 && !connected {
        ty := t;
        connected := true;
      } else if t == 0 && connected {
        connected := false;
      }
      if !connected {
        return;
      }
      extraPower := status & 0x04 != 0;
      if t != ty {
        ty := t;
      }
      buttons := Word(payload[1], payload[2]);
      for j := 0 to 6
        invariant forall k :: 0 <= k < j ==> axis[k] == payload[k + 3] as int
        invariant connected && extraPower == (status & 0x04 != 0) && ty == t
        invariant buttons == Word(payload[1], payload[2])
      {
        axis := axis[j := payload[j + 3] as int];
      }
    }

    /** `handle_hyperkin_payload` on an 8-byte report. */
    method HandleHyperkin(payload: seq<byte>)
      requires |payload| == 8
      modifies this
      ensures Model() == DecodeHyperkin(old(Model()), payload)
    {
      var t := STATE_NORMAL;
      if !connected {
        ty := t;
        connected := true;
      }
      extraPower := false;
      if t != ty {
        ty := t;
      }
      buttons := HyperkinButtons(payload[0], payload[1]);
      var lr, ud := StickLeftRight(payload[3] as int), StickUpDown(payload[4] as int);
      axis := axis[0 := lr][1 := ud][2 := payload[5] as int][3 := 255 - payload[6] as int];
    }
  }

  /** `struct adapter`: the device, its four ports and the rumble packet
      last sent to it (`rumble[5]` is inline in the struct, so a value). */
  class Adapter {
    const device: DeviceId
    const controllers: seq<Port>
    var rumble: seq<byte>

    ghost predicate Valid()
      reads this
    {
      && |controllers| == 4 && |rumble| == 5
      && (forall i, j :: 0 <= i < j < 4 ==> controllers[i] != controllers[j])
    }

    function Models(): (ms: seq<PortState>)
      reads controllers
      requires |controllers| == 4
    {
      [controllers[0].Model(), controllers[1].Model(), controllers[2].Model(), controllers[3].Model()]
    }

    /** `calloc` and `a->device = dev` in `add_adapter`. */
    constructor (dev: DeviceId)
      ensures Valid() && device == dev && fresh(controllers[0]) && fresh(controllers[1])
      ensures fresh(controllers[2]) && fresh(controllers[3])
      ensures Models() == [ZERO_PORT, ZERO_PORT, ZERO_PORT, ZERO_PORT]
      ensures rumble == [0, 0, 0, 0, 0]
    {
      var p0 := new Port();
      var p1 := new Port();
      var p2 := new Port();
      var p3 := new Port();
      device := dev;
      controllers := [p0, p1, p2, p3];
      rumble := [0, 0, 0, 0, 0];
    }

    /** The `size == 8` branch: every port decodes the
        same report. */
    method HyperkinToAllPorts(report: seq<byte>)
      requires Valid() && |report| == 8
      modifies controllers
      ensures Valid() && Models() == Dispatch(old(Models()), rumble, report).ports
    {
      ghost var before := Models();
      ghost var after := Dispatch(before, rumble, report).ports;
      DispatchHyperkin(before, rumble, report);
      for i := 0 to 4
        invariant Valid()
        invariant controllers[0].Model() == if 0 < i then after[0] else before[0]
        invariant controllers[1].Model() == if 1 < i then after[1] else before[1]
        invariant controllers[2].Model() == if 2 < i then after[2] else before[2]
        invariant controllers[3].Model() == if 3 < i then after[3] else before[3]
      {
        controllers[i].HandleHyperkin(report);
      }
    }

    /** The adapter-report branch: port `i` decodes bytes
        `1 + 9 * i .. 10 + 9 * i`, and the rumble packet is rebuilt. */
    method RecordsToPorts(report: seq<byte>) returns (packet: seq<byte>)
      requires Valid() && |report| == 37 && report[0] == 0x21
      modifies controllers
      ensures Valid() && Models() == Dispatch(old(Models()), rumble, report).ports
      ensures packet == RUMBLE_OFF
    {
      ghost var before := Models();
      packet := RUMBLE_OFF;
      ghost var after := Dispatch(before, rumble, report).ports;
      DispatchAdapterReport(before, rumble, report);
      for i := 0 to 4
        invariant controllers[0].Model() == if 0 < i then after[0] else before[0]
        invariant controllers[1].Model() == if 1 < i then after[1] else before[1]
        invariant controllers[2].Model() == if 2 < i then after[2] else before[2]
        invariant controllers[3].Model() == if 3 < i then after[3] else before[3]
        invariant packet == RUMBLE_OFF
      {
        controllers[i].HandlePayload(report[1 + 9 * i .. 10 + 9 * i]);
        packet := packet[i + 1 := 0];
      }
    }

    /** The body of the reader loop of `adapter_thread` for one
        successfully transferred `report`; `sendRumble` says whether the
        rumble packet goes out to the device. */
    method HandleReport(report: seq<byte>) returns (sendRumble: bool)
      requires Valid()
      modifies this, controllers
      ensures Valid()
      ensures Dispatched(Models(), rumble, sendRumble) == Dispatch(old(Models()), old(rumble), report)
    {
      if |report| == 8 {
        HyperkinToAllPorts(report);
        return false;
      }
      if |report| != 37 || report[0] != 0x21 {
        return false;
      }
      var packet := RecordsToPorts(report);
      sendRumble := packet != rumble;
      if sendRumble {
        rumble := packet;
      }
    }
  }
}
