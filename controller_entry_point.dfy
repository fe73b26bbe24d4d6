/** src/pc/controller/controller_entry_point.c: the libultra controller
    calls of the PC port, which merge every backend of the platform into
    the one pad the game reads. A backend is a `struct ControllerAPI`
    (src/pc/controller/controller_api.h): an `init` and a `read(pad)`.
    The recorded-TAS, keyboard and XInput backends are not part of this
    model; their effect on the pad in a frame is an input. */
module ControllerEntryPoint {
  import opened CTypes
  import opened Pad
  import opened WupRegistry
  import ControllerWup
  import ControllerSdl

  datatype Backend = RecordedTas | XInput | Sdl | Wup | Keyboard

  /** The build target, as the preprocessor tests of the source see it. */
  datatype Platform = Windows | Linux | OtherPosix

  /** `controller_implementations` for a platform: TAS first and keyboard
      last, each backend at most once, XInput only on Windows, SDL on
      every other platform, and the USB adapter only on Linux. */
  function Implementations(p: Platform): (r: seq<Backend>)
    ensures |r| >= 3 && r[0] == RecordedTas && r[|r| - 1] == Keyboard
    ensures forall i, j :: 0 <= i < j < |r| ==> r[i] != r[j]
    ensures XInput in r <==> p == Windows
    ensures Sdl in r <==> p != Windows
    ensures Wup in r <==> p == Linux
    ensures forall i, j :: 0 <= i < |r| && 0 <= j < |r| && r[i] == Sdl && r[j] == Wup ==> i < j
  {
    match p
    case Windows => [RecordedTas, XInput, Keyboard]
    case Linux => [RecordedTas, Sdl, Wup, Keyboard]
    case OtherPosix => [RecordedTas, Sdl, Keyboard]
  }

  /** What the world supplies in one frame: the effect on the pad of each
      backend whose code is not modelled, and what SDL reports. */
  datatype FrameInput = FrameInput(
    tas: PadState -> PadState, xinput: PadState -> PadState, keyboard: PadState -> PadState,
    attached: bool, joysticks: seq<ControllerSdl.Joystick>, sample: ControllerSdl.SdlSample, web: bool)

  /** Everything the reads of one frame depend on: the frame input,
      whether SDL has an open controller once its lifecycle step ran, and
      what the adapter list reports. */
  datatype Env = Env(frame: FrameInput, sdlActive: bool, wup: Option<AdapterInput>)

  /** The environment of a frame in which SDL starts from `initOk` and
      `open` and the adapter list reports `wup`. */
  function FrameEnv(frame: FrameInput, initOk: bool, open: bool, wup: Option<AdapterInput>): (env: Env)
    ensures env.frame == frame && env.wup == wup
    ensures env.sdlActive <==> initOk && ((open && frame.attached) || ControllerSdl.AnyOpens(frame.joysticks))
  {
    Env(frame, initOk && ControllerSdl.OpenAfter(initOk, open, frame.attached, frame.joysticks), wup)
  }

  /** One backend's `read` on the pad value `pad`. */
  function ReadOne(b: Backend, pad: PadState, env: Env): PadState
  {
    match b
    case RecordedTas => env.frame.tas(pad)
    case XInput => env.frame.xinput(pad)
    case Sdl => if env.sdlActive then ControllerSdl.SdlRead(pad, env.frame.sample, env.frame.web) else pad
    case Wup => ControllerWup.WupRead(pad, env.wup)
    case Keyboard => env.frame.keyboard(pad)
  }

  /** The reads of `bs`, in order, applied to `pad`: the last backend of
      `bs` reads the pad the others left. */
  function ReadAll(pad: PadState, bs: seq<Backend>, env: Env): PadState
    decreases |bs|
  {
    if |bs| == 0 then pad else ReadOne(bs[|bs| - 1], ReadAll(pad, bs[..|bs| - 1], env), env)
  }

  /** The first backend reads the pad it is given, and the others read
      what it left. */
  lemma {:induction false} ReadAllFirst(pad: PadState, b: Backend, bs: seq<Backend>, env: Env)
    ensures ReadAll(pad, [b] + bs, env) == ReadAll(ReadOne(b, pad, env), bs, env)
    decreases |bs|
  {
    if |bs| > 0 {
      assert ([b] + bs)[..|bs|] == [b] + bs[..|bs| - 1];
      ReadAllFirst(pad, b, bs[..|bs| - 1], env);
    } else {
      assert ([b] + bs)[..0] == [];
    }
  }

  /** Running two lists of backends one after the other is running their
      concatenation. */
  lemma {:induction false} ReadAllAppend(pad: PadState, xs: seq<Backend>, ys: seq<Backend>, env: Env)
    ensures ReadAll(pad, xs + ys, env) == ReadAll(ReadAll(pad, xs, env), ys, env)
    decreases |ys|
  {
    if |ys| == 0 {
      assert xs + ys == xs;
    } else {
      assert (xs + ys)[..|xs + ys| - 1] == xs + ys[..|ys| - 1];
      ReadAllAppend(pad, xs, ys[..|ys| - 1], env);
    }
  }

  /** A pad update that only ORs into the button word and keeps `errnum`. */
  ghost predicate OrsOnly(f: PadState -> PadState)
  {
    forall p :: OnlyOrs(p, f(p)) && f(p).errnum == p.errnum
  }

  lemma OnlyOrsTransitive(a: PadState, b: PadState, c: PadState)
    requires OnlyOrs(a, b) && OnlyOrs(b, c)
    ensures OnlyOrs(a, c)
  {
  }

  /** When the backends that are not modelled only add buttons, as the
      SDL and adapter backends do, no button pressed before the reads is
      lost and `errnum` keeps its value. */
  lemma {:induction false} ReadAllOnlyOrs(pad: PadState, bs: seq<Backend>, env: Env)
    requires OrsOnly(env.frame.tas) && OrsOnly(env.frame.xinput) && OrsOnly(env.frame.keyboard)
    ensures OnlyOrs(pad, ReadAll(pad, bs, env)) && ReadAll(pad, bs, env).errnum == pad.errnum
    decreases |bs|
  {
    if |bs| > 0 {
      var mid := ReadAll(pad, bs[..|bs| - 1], env);
      ReadAllOnlyOrs(pad, bs[..|bs| - 1], env);
      ReadOneOnlyOrs(bs[|bs| - 1], mid, env);
      OnlyOrsTransitive(pad, mid, ReadOne(bs[|bs| - 1], mid, env));
    }
  }

  /** Every single backend only adds buttons, under the same assumption. */
  lemma ReadOneOnlyOrs(b: Backend, pad: PadState, env: Env)
    requires OrsOnly(env.frame.tas) && OrsOnly(env.frame.xinput) && OrsOnly(env.frame.keyboard)
    ensures OnlyOrs(pad, ReadOne(b, pad, env)) && ReadOne(b, pad, env).errnum == pad.errnum
  {
    var r := ReadOne(b, pad, env);
    if b == Sdl && env.sdlActive {
      assert r == ControllerSdl.SdlRead(pad, env.frame.sample, env.frame.web);
      ControllerSdl.SdlReadOnlyOrs(pad, env.frame.sample, env.frame.web);
    } else if b == Wup {
      assert r == ControllerWup.WupRead(pad, env.wup);
      ControllerWup.WupReadOnlyOrs(pad, env.wup);
    }
  }

  /** A backend that has nothing to report leaves the pad as it is. */
  ghost predicate Idle(b: Backend, env: Env)
  {
    match b
    case RecordedTas => forall p :: env.frame.tas(p) == p
    case XInput => forall p :: env.frame.xinput(p) == p
    case Sdl => !env.sdlActive
    case Wup => env.wup.None?
    case Keyboard => forall p :: env.frame.keyboard(p) == p
  }

  /** With every backend idle the reads change nothing, so the game sees
      the zeroed pad. */
  lemma {:induction false} ReadAllIdle(pad: PadState, bs: seq<Backend>, env: Env)
    requires forall i :: 0 <= i < |bs| ==> Idle(bs[i], env)
    ensures ReadAll(pad, bs, env) == pad
    decreases |bs|
  {
    if |bs| > 0 {
      ReadAllIdle(pad, bs[..|bs| - 1], env);
      assert Idle(bs[|bs| - 1], env);
    }
  }

  /** On Linux, with the recorded TAS and the keyboard idle, the frame's
      pad is the adapter backend's read of what SDL left in the zeroed
      pad: SDL reads first and the adapter second. */
  lemma LinuxMerge(env: Env)
    requires Idle(RecordedTas, env) && Idle(Keyboard, env)
    ensures ReadAll(ZERO_PAD, Implementations(Linux), env)
      == ControllerWup.WupRead(ReadOne(Sdl, ZERO_PAD, env), env.wup)
  {
    var bs := Implementations(Linux);
    assert bs == [RecordedTas] + ([Sdl] + ([Wup] + ([Keyboard] + [])));
    ReadAllFirst(ZERO_PAD, RecordedTas, [Sdl] + ([Wup] + ([Keyboard] + [])), env);
    var p1 := ReadOne(RecordedTas, ZERO_PAD, env);
    assert p1 == ZERO_PAD;
    ReadAllFirst(p1, Sdl, [Wup] + ([Keyboard] + []), env);
    var p2 := ReadOne(Sdl, p1, env);
    ReadAllFirst(p2, Wup, [Keyboard] + [], env);
    var p3 := ReadOne(Wup, p2, env);
    ReadAllFirst(p3, Keyboard, [], env);
    assert ReadOne(Keyboard, p3, env) == p3;
  }

  /** The stick the game sees on Linux: the adapter's when its main stick
      is off centre, otherwise SDL's when its left stick is past the
      deadzone, otherwise the zero of the cleared pad. */
  lemma LinuxStick(env: Env)
    requires Idle(RecordedTas, env) && Idle(Keyboard, env)
    ensures var r := ReadAll(ZERO_PAD, Implementations(Linux), env);
      var s := env.frame.sample;
      var ly := ControllerSdl.WebFix(s.leftY, env.frame.web);
      if env.wup.Some? && (env.wup.value.axis[0] != 0x80 || env.wup.value.axis[1] != 0x80) then
        r.stickX == ControllerWup.AxisStick(env.wup.value.axis[0])
        && r.stickY == ControllerWup.AxisStick(env.wup.value.axis[1])
      else if env.sdlActive && ControllerSdl.Moved(s.leftX, ly) then
        r.stickX == ControllerSdl.StickX(s.leftX) && r.stickY == ControllerSdl.StickY(ly)
      else
        r.stickX == 0 && r.stickY == 0
  {
    LinuxMerge(env);
    var p := ReadOne(Sdl, ZERO_PAD, env);
    if env.wup.Some? {
      ControllerWup.WupReadStick(p, env.wup.value);
    }
  }

  /** The buttons the game sees on Linux are the OR of SDL's contribution
      and the adapter's, each pressed into a cleared pad (TAS and keyboard
      idle). */
  lemma LinuxButtons(env: Env)
    requires Idle(RecordedTas, env) && Idle(Keyboard, env)
    ensures var r := ReadAll(ZERO_PAD, Implementations(Linux), env);
      r.button == ReadOne(Sdl, ZERO_PAD, env).button | ControllerWup.WupRead(ZERO_PAD, env.wup).button
  {
    LinuxMerge(env);
    ControllerWup.WupReadOnto(ReadOne(Sdl, ZERO_PAD, env), env.wup);
  }

  /** The controller subsystem: the backend list of the platform and the
      state the SDL and USB adapter backends keep between calls. */
  class ControllerSystem {
    const platform: Platform
    const sdl: ControllerSdl.SdlController
    const registry: Registry
    /** The `init` calls made so far, in order. */
    ghost var inits: seq<Backend>

    constructor (p: Platform)
      ensures platform == p && inits == []
      ensures fresh(sdl) && !sdl.initOk && !sdl.open
      ensures fresh(registry) && registry.Valid() && registry.adapters == []
    {
      platform := p;
      sdl := new ControllerSdl.SdlController();
      registry := new Registry();
      inits := [];
    }

    /** One backend's `init`; only the SDL one changes state this model
        keeps. */
    method InitOne(b: Backend, sdlInitOk: bool)
      modifies this, sdl
      ensures inits == old(inits) + [b]
      ensures sdl.initOk == (old(sdl.initOk) || (b == Sdl && sdlInitOk))
      ensures sdl.open == old(sdl.open)
    {
      if b == Sdl {
        sdl.Init(sdlInitOk);
      }
      inits := inits + [b];
    }

    /** `osContInit`: every backend's `init` runs once, in array order;
        `*controllerBits` becomes 1 and the result is 0. `sdlInitOk` is
        whether `SDL_Init` succeeds. */
    method OsContInit(sdlInitOk: bool) returns (controllerBits: byte, result: int)
      modifies this, sdl
      ensures inits == old(inits) + Implementations(platform)
      ensures controllerBits == 1 && result == 0
      ensures sdl.initOk == (old(sdl.initOk) || (platform != Windows && sdlInitOk))
      ensures sdl.open == old(sdl.open)
    {
      var impls := Implementations(platform);
      for i := 0 to |impls|
        invariant inits == old(inits) + impls[..i]
        invariant sdl.initOk == (old(sdl.initOk) || (Sdl in impls[..i] && sdlInitOk))
        invariant sdl.open == old(sdl.open)
      {
        InitOne(impls[i], sdlInitOk);
        assert impls[..i + 1] == impls[..i] + [impls[i]];
      }
      assert impls[..|impls|] == impls;
      controllerBits := 1;
      result := 0;
    }

    /** `osContStartReadData` does nothing and reports success. */
    method OsContStartReadData() returns (result: int)
      ensures result == 0
    {
      result := 0;
    }

    /** One backend's `read` on the game's pad. `env` is what the frame's
        reads depend on; for SDL it must predict the lifecycle step. */
    method ReadOneBackend(b: Backend, pad: ContPad, frame: FrameInput, ghost env: Env)
      requires registry.Valid()
      requires env.frame == frame && env.wup == registry.Input()
      requires b == Sdl ==> env.sdlActive == (sdl.initOk && ControllerSdl.OpenAfter(sdl.initOk, sdl.open, frame.attached, frame.joysticks))
      modifies pad, sdl
      ensures sdl.initOk == old(sdl.initOk)
      ensures b == Sdl ==> sdl.open == ControllerSdl.OpenAfter(old(sdl.initOk), old(sdl.open), frame.attached, frame.joysticks)
      ensures b != Sdl ==> sdl.open == old(sdl.open)
      ensures registry.Valid() && registry.Input() == old(registry.Input())
      ensures pad.Value() == ReadOne(b, old(pad.Value()), env)
    {
      match b
      case RecordedTas => pad.Assign(frame.tas(pad.Value()));
      case XInput => pad.Assign(frame.xinput(pad.Value()));
      case Sdl => sdl.Read(pad, frame.attached, frame.joysticks, frame.sample, frame.web);
      case Wup => ControllerWup.Read(pad, registry);
      case Keyboard => pad.Assign(frame.keyboard(pad.Value()));
    }

    /** `osContGetReadData`: the pad is zeroed, then every backend of the
        platform reads into it once, in array order. */
    method OsContGetReadData(pad: ContPad, frame: FrameInput)
      requires registry.Valid()
      modifies pad, sdl
      ensures sdl.initOk == old(sdl.initOk)
      ensures sdl.open == if platform == Windows then old(sdl.open)
        else ControllerSdl.OpenAfter(old(sdl.initOk), old(sdl.open), frame.attached, frame.joysticks)
      ensures pad.Value() == ReadAll(ZERO_PAD, Implementations(platform),
        FrameEnv(frame, old(sdl.initOk), old(sdl.open), registry.Input()))
    {
      pad.button := 0;
      pad.stickX := 0;
      pad.stickY := 0;
      pad.errnum := 0;
      ReadBackends(pad, frame, Implementations(platform),
                   FrameEnv(frame, sdl.initOk, sdl.open, registry.Input()));
    }

    /** The loop of `osContGetReadData` over the backends `impls`. */
    method ReadBackends(pad: ContPad, frame: FrameInput, impls: seq<Backend>, ghost env: Env)
      requires forall i, j :: 0 <= i < j < |impls| ==> impls[i] != impls[j]
      requires registry.Valid() && env == FrameEnv(frame, sdl.initOk, sdl.open, registry.Input())
      modifies pad, sdl
      ensures sdl.initOk == old(sdl.initOk)
      ensures sdl.open == if Sdl in impls then env.sdlActive || (!sdl.initOk && old(sdl.open)) else old(sdl.open)
      ensures pad.Value() == ReadAll(old(pad.Value()), impls, env)
    {
      for i := 0 to |impls|
        invariant registry.Valid() && registry.Input() == env.wup
        invariant sdl.initOk == old(sdl.initOk)
        invariant Sdl !in impls[..i] ==> sdl.open == old(sdl.open)
        invariant Sdl in impls[..i] ==> sdl.open == (env.sdlActive || (!sdl.initOk && old(sdl.open)))
        invariant pad.Value() == ReadAll(old(pad.Value()), impls[..i], env)
      {
        assert impls[..i + 1][..i] == impls[..i];
        assert impls[i] == Sdl ==> Sdl !in impls[..i];
        ReadOneBackend(impls[i], pad, frame, env);
        assert Sdl in impls[..i + 1] <==> Sdl in impls[..i] || impls[i] == Sdl;
      }
      assert impls[..|impls|] == impls;
    }
  }
}
