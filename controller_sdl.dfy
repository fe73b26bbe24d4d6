/** src/pc/controller/controller_sdl.c: the SDL game-controller backend.
    The SDL library is not part of this model: what SDL reports in a frame
    (the digital buttons and the six axes of the open controller, whether
    that controller is still attached, and for each joystick whether it is
    a game controller and whether opening it succeeds) is an input. */
module ControllerSdl {
  import opened CTypes
  import opened Pad

  const DEADZONE := 4960

  /** `30 * 256`: a trigger axis above this presses the trigger. */
  const TRIGGER_THRESHOLD := 30 * 256

  /** The C-stick threshold on the right stick, strict on both sides. */
  const CSTICK_THRESHOLD := 0x4000

  /** The values SDL returns for the open controller in one frame. */
  datatype SdlSample = SdlSample(
    start: bool, leftShoulder: bool, rightShoulder: bool, a: bool, x: bool,
    leftX: int16, leftY: int16, rightX: int16, rightY: int16,
    leftTrigger: int16, rightTrigger: int16)

  /** One joystick index as `SDL_IsGameController` and
      `SDL_GameControllerOpen` see it. */
  datatype Joystick = Joystick(isGameController: bool, opens: bool)

  predicate Opens(j: Joystick)
  {
    j.isGameController && j.opens
  }

  /** Some joystick index is a game controller that opens. */
  predicate AnyOpens(joysticks: seq<Joystick>)
  {
    exists k :: 0 <= k < |joysticks| && Opens(joysticks[k])
  }

  /** Whether a controller is open after the lifecycle step of
      `controller_sdl_read`, which runs only after a successful init: an
      open controller stays open while it is attached, and otherwise the
      scan finds one exactly when some joystick is a game controller that
      opens. */
  predicate OpenAfter(initOk: bool, open: bool, attached: bool, joysticks: seq<Joystick>)
  {
    if initOk then (open && attached) || AnyOpens(joysticks) else open
  }

  /** The workaround built under `TARGET_WEB`: a vertical reading of
      -32768, which a browser bug produces for full down, becomes 32767.
      Nothing else is changed. */
  function WebFix(v: int16, web: bool): (r: int16)
    ensures web ==> r != -0x8000
    ensures r == v || (web && v == -0x8000 && r == 0x7FFF)
  {
    if web && v == -0x8000 then 0x7FFF else v
  }

  /** The five `SDL_GameControllerGetButton` lines. */
  function DigitalButtons(s: SdlSample): (r: bv16)
    ensures r & !(START_BUTTON | Z_TRIG | R_TRIG | A_BUTTON | B_BUTTON) == 0
    ensures r & START_BUTTON != 0 <==> s.start
    ensures r & Z_TRIG != 0 <==> s.leftShoulder
    ensures r & R_TRIG != 0 <==> s.rightShoulder
    ensures r & A_BUTTON != 0 <==> s.a
    ensures r & B_BUTTON != 0 <==> s.x
  {
    (if s.start then START_BUTTON else 0)
    | (if s.leftShoulder then Z_TRIG else 0)
    | (if s.rightShoulder then R_TRIG else 0)
    | (if s.a then A_BUTTON else 0)
    | (if s.x then B_BUTTON else 0)
  }

  /** The right stick as C buttons. SDL's y axis grows downwards, so a
      negative reading is up. */
  function RightStickButtons(rx: int, ry: int): (r: bv16)
    ensures r & !(L_CBUTTONS | R_CBUTTONS | U_CBUTTONS | D_CBUTTONS) == 0
    ensures r & L_CBUTTONS != 0 <==> rx < -CSTICK_THRESHOLD
    ensures r & R_CBUTTONS != 0 <==> rx > CSTICK_THRESHOLD
    ensures r & U_CBUTTONS != 0 <==> ry < -CSTICK_THRESHOLD
    ensures r & D_CBUTTONS != 0 <==> ry > CSTICK_THRESHOLD
    ensures r == 0 <==> -CSTICK_THRESHOLD <= rx <= CSTICK_THRESHOLD && -CSTICK_THRESHOLD <= ry <= CSTICK_THRESHOLD
  {
    (if rx < -CSTICK_THRESHOLD then L_CBUTTONS else 0)
    | (if rx > CSTICK_THRESHOLD then R_CBUTTONS else 0)
    | (if ry < -CSTICK_THRESHOLD then U_CBUTTONS else 0)
    | (if ry > CSTICK_THRESHOLD then D_CBUTTONS else 0)
  }

  /** The analog triggers press the same bits as the shoulder buttons. */
  function TriggerButtons(lt: int, rt: int): (r: bv16)
    ensures r & !(Z_TRIG | R_TRIG) == 0
    ensures r & Z_TRIG != 0 <==> lt > TRIGGER_THRESHOLD
    ensures r & R_TRIG != 0 <==> rt > TRIGGER_THRESHOLD
  {
    (if lt > TRIGGER_THRESHOLD then Z_TRIG else 0)
    | (if rt > TRIGGER_THRESHOLD then R_TRIG else 0)
  }

  /** The button word after every `pad->button |=` of the backend, where
      `ry` is the right stick's vertical reading after the web workaround:
      no bit is cleared, each N64 button is pressed by exactly the SDL
      inputs listed, and L, the D-pad and the two unused bits 0x00C0,
      which this backend never sets, keep their bits. */
  function SdlButtons(button: bv16, s: SdlSample, ry: int): (r: bv16)
    ensures button & !r == 0
    ensures r & START_BUTTON != 0 <==> button & START_BUTTON != 0 || s.start
    ensures r & Z_TRIG != 0 <==> button & Z_TRIG != 0 || s.leftShoulder || s.leftTrigger > TRIGGER_THRESHOLD
    ensures r & R_TRIG != 0 <==> button & R_TRIG != 0 || s.rightShoulder || s.rightTrigger > TRIGGER_THRESHOLD
    ensures r & A_BUTTON != 0 <==> button & A_BUTTON != 0 || s.a
    ensures r & B_BUTTON != 0 <==> button & B_BUTTON != 0 || s.x
    ensures r & L_CBUTTONS != 0 <==> button & L_CBUTTONS != 0 || s.rightX < -CSTICK_THRESHOLD
    ensures r & R_CBUTTONS != 0 <==> button & R_CBUTTONS != 0 || s.rightX > CSTICK_THRESHOLD
    ensures r & U_CBUTTONS != 0 <==> button & U_CBUTTONS != 0 || ry < -CSTICK_THRESHOLD
    ensures r & D_CBUTTONS != 0 <==> button & D_CBUTTONS != 0 || ry > CSTICK_THRESHOLD
    ensures r & (L_TRIG | U_JPAD | D_JPAD | L_JPAD | R_JPAD) == button & (L_TRIG | U_JPAD | D_JPAD | L_JPAD | R_JPAD)
    ensures r & 0x00C0 == button & 0x00C0
  {
    button | DigitalButtons(s) | RightStickButtons(s.rightX, ry) | TriggerButtons(s.leftTrigger, s.rightTrigger)
  }

  /** `(uint32_t)(leftx * leftx) + (uint32_t)(lefty * lefty)` with the
      32-bit wrap-around of the unsigned sum written out. */
  function MagnitudeSq(lx: int16, ly: int16): (m: int)
    ensures 0 <= m < 0x1_0000_0000
  {
    ((lx * lx) % 0x1_0000_0000 + (ly * ly) % 0x1_0000_0000) % 0x1_0000_0000
  }

  /** Neither the `int` products nor the unsigned sum can wrap for
      `int16_t` readings, so the deadzone test is on the true squared
      length of the stick vector. */
  lemma {:induction false} MagnitudeExact(lx: int16, ly: int16)
    ensures IsInt32(lx * lx) && IsInt32(ly * ly)
    ensures MagnitudeSq(lx, ly) == lx * lx + ly * ly
  {
    SquareBound(lx);
    SquareBound(ly);
    var a, b := lx * lx, ly * ly;
    ModSmall(a);
    ModSmall(b);
    ModSmall(a + b);
  }

  lemma ModSmall(x: int)
    requires 0 <= x < 0x1_0000_0000
    ensures x % 0x1_0000_0000 == x
  {
  }

  lemma SquareBound(v: int16)
    ensures 0 <= v * v <= 0x4000_0000
  {
    if v >= 0 {
      SquareMonotone(v, 0x8000);
    } else {
      var a: int := -(v as int);
      SquareMonotone(a, 0x8000);
      assert v * v == a * a;
    }
  }

  /** The stick leaves the deadzone. */
  predicate Moved(lx: int16, ly: int16)
  {
    MagnitudeSq(lx, ly) > DEADZONE * DEADZONE
  }

  /** `leftx / 409`: the game expects stick values in -80..80, and C's
      division rounds toward the centre. */
  function StickX(lx: int16): (r: int8)
    ensures -80 <= r <= 80
    ensures Abs(r) == Abs(lx) / 409
    ensures lx >= 0 ==> r >= 0
    ensures lx <= 0 ==> r <= 0
  {
    TruncDiv(lx, 409)
  }

  /** `-lefty / 409`, negated in `int` so that -32768 gives 80. SDL's y
      axis grows downwards and the N64's upwards. */
  function StickY(ly: int16): (r: int8)
    ensures -80 <= r <= 80
    ensures Abs(r) == Abs(ly) / 409
    ensures ly >= 0 ==> r <= 0
    ensures ly <= 0 ==> r >= 0
  {
    TruncDiv(-(ly as int), 409)
  }

  /** The horizontal stick is non-decreasing in the reading and the
      vertical one non-increasing. */
  lemma {:induction false} StickMonotone(u: int16, v: int16)
    requires u <= v
    ensures StickX(u) <= StickX(v)
    ensures StickY(v) <= StickY(u)
  {
    TruncDivMonotone(u, v, 409);
    TruncDivMonotone(-(v as int), -(u as int), 409);
  }

  /** The two axes scale symmetrically about the centre. */
  lemma StickOdd(v: int16)
    requires v != -0x8000
    ensures StickX(-v) == -StickX(v)
    ensures StickY(-v) == -StickY(v) == StickX(v)
  {
    TruncDivNegate(v, 409);
  }

  /** The pad update of `controller_sdl_read` (the part after an open
      controller is found) on the pad value `pad`, for sample `s`; `web`
      says whether the port was built with `TARGET_WEB`. */
  function SdlRead(pad: PadState, s: SdlSample, web: bool): PadState
  {
    var lx, ly, ry := s.leftX, WebFix(s.leftY, web), WebFix(s.rightY, web);
    var write := Moved(lx, ly);
    PadState(SdlButtons(pad.button, s, ry),
             if write then StickX(lx) else pad.stickX,
             if write then StickY(ly) else pad.stickY,
             pad.errnum)
  }

  /** The backend only sets buttons and never touches `errnum`. */
  lemma SdlReadOnlyOrs(pad: PadState, s: SdlSample, web: bool)
    ensures OnlyOrs(pad, SdlRead(pad, s, web)) && SdlRead(pad, s, web).errnum == pad.errnum
  {
    var r := SdlButtons(pad.button, s, WebFix(s.rightY, web));
    assert SdlRead(pad, s, web).button == r;
  }

  /** The stick is written exactly when the squared length of the left
      stick exceeds `DEADZONE * DEADZONE`; otherwise it is unchanged. */
  lemma SdlReadStick(pad: PadState, s: SdlSample, web: bool)
    ensures var r, ly := SdlRead(pad, s, web), WebFix(s.leftY, web);
      if s.leftX * s.leftX + ly * ly > DEADZONE * DEADZONE then
        r.stickX == StickX(s.leftX) && r.stickY == StickY(ly)
      else
        r.stickX == pad.stickX && r.stickY == pad.stickY
  {
    MagnitudeExact(s.leftX, WebFix(s.leftY, web));
  }

  /** A stick held inside the square of half-width 3507 never leaves the
      deadzone. */
  lemma {:induction false} InsideDeadzone(lx: int16, ly: int16)
    requires -3507 <= lx <= 3507 && -3507 <= ly <= 3507
    ensures !Moved(lx, ly)
  {
    MagnitudeExact(lx, ly);
    SquareMonotone(Abs(lx), 3507);
    SquareMonotone(Abs(ly), 3507);
    assert lx * lx == Abs(lx) * Abs(lx) && ly * ly == Abs(ly) * Abs(ly);
  }

  /** A stick pushed past 4960 along either axis always leaves it. */
  lemma {:induction false} PastDeadzone(lx: int16, ly: int16)
    requires lx < -DEADZONE || lx > DEADZONE || ly < -DEADZONE || ly > DEADZONE
    ensures Moved(lx, ly)
  {
    MagnitudeExact(lx, ly);
    SquareBound(lx);
    SquareBound(ly);
    if Abs(lx) > DEADZONE {
      SquareMonotone(DEADZONE + 1, Abs(lx));
      assert lx * lx == Abs(lx) * Abs(lx);
    } else {
      SquareMonotone(DEADZONE + 1, Abs(ly));
      assert ly * ly == Abs(ly) * Abs(ly);
    }
  }

  lemma SquareMonotone(a: nat, b: nat)
    requires a <= b
    ensures a * a <= b * b
  {
    assert a * a <= a * b <= b * b;
  }

  /** Under `TARGET_WEB` a full-down reading of -32768 on the right stick
      presses C-down, where a native build would read it as C-up; on the
      left stick it gives the lowest stick value instead of the highest. */
  lemma WebFullDown(button: bv16, s: SdlSample)
    requires s.rightY == -0x8000 && s.leftY == -0x8000
    ensures var r := SdlButtons(button, s, WebFix(s.rightY, true));
      r & D_CBUTTONS != 0 && (r & U_CBUTTONS != 0 <==> button & U_CBUTTONS != 0)
    ensures SdlButtons(button, s, WebFix(s.rightY, false)) & U_CBUTTONS != 0
    ensures StickY(WebFix(s.leftY, true)) == -80 && StickY(WebFix(s.leftY, false)) == 80
  {
  }

  /** The static state of controller_sdl.c: `init_ok`, and whether
      `sdl_cntrl` holds an open controller. */
  class SdlController {
    var initOk: bool
    var open: bool

    constructor ()
      ensures !initOk && !open
    {
      initOk, open := false, false;
    }

    /** `controller_sdl_init`, where `sdlInitOk` is whether `SDL_Init`
        returned 0. A failed init leaves the flag as it was. */
    method Init(sdlInitOk: bool)
      modifies this
      ensures initOk == (old(initOk) || sdlInitOk)
      ensures open == old(open)
    {
      if sdlInitOk {
        initOk := true;
      }
    }

    /** The scan over the joystick indices: open the first game controller
        that opens. Returns whether one did. */
    static method ScanJoysticks(joysticks: seq<Joystick>) returns (found: bool)
      ensures found <==> AnyOpens(joysticks)
    {
      found := false;
      var i := 0;
      while i < |joysticks| && !found
        invariant 0 <= i <= |joysticks|
        invariant found <==> exists k :: 0 <= k < i && Opens(joysticks[k])
      {
        if joysticks[i].isGameController {
          found := joysticks[i].opens;
        }
        i := i + 1;
      }
    }

    /** The controller lifecycle at the top of `controller_sdl_read`: an
        open controller that is no longer attached is closed, and without
        an open controller the joysticks are scanned. */
    method Reconnect(attached: bool, joysticks: seq<Joystick>)
      modifies this
      ensures open <==> OpenAfter(true, old(open), attached, joysticks)
      ensures initOk == old(initOk)
    {
      if open && !attached {
        open := false;
      }
      if !open {
        open := ScanJoysticks(joysticks);
      }
    }

    /** The five digital-button lines. */
    static method PressDigital(pad: ContPad, s: SdlSample)
      modifies pad
      ensures pad.Value() == old(pad.Value()).(button := old(pad.button) | DigitalButtons(s))
    {
      if s.start { pad.button := pad.button | START_BUTTON; }
      if s.leftShoulder { pad.button := pad.button | Z_TRIG; }
      if s.rightShoulder { pad.button := pad.button | R_TRIG; }
      if s.a { pad.button := pad.button | A_BUTTON; }
      if s.x { pad.button := pad.button | B_BUTTON; }
    }

    /** The four right-stick threshold lines. */
    static method PressRightStick(pad: ContPad, rx: int16, ry: int16)
      modifies pad
      ensures pad.Value() == old(pad.Value()).(button := old(pad.button) | RightStickButtons(rx, ry))
    {
      var left, right := rx < -CSTICK_THRESHOLD, rx > CSTICK_THRESHOLD;
      var up, down := ry < -CSTICK_THRESHOLD, ry > CSTICK_THRESHOLD;
      if left { pad.button := pad.button | L_CBUTTONS; }
      if right { pad.button := pad.button | R_CBUTTONS; }
      if up { pad.button := pad.button | U_CBUTTONS; }
      if down { pad.button := pad.button | D_CBUTTONS; }
    }

    /** The two trigger lines. */
    static method PressTriggers(pad: ContPad, lt: int16, rt: int16)
      modifies pad
      ensures pad.Value() == old(pad.Value()).(button := old(pad.button) | TriggerButtons(lt, rt))
    {
      var z, r := lt > TRIGGER_THRESHOLD, rt > TRIGGER_THRESHOLD;
      if z { pad.button := pad.button | Z_TRIG; }
      if r { pad.button := pad.button | R_TRIG; }
    }

    /** The deadzone test and the scaled stick write. */
    static method SetStick(pad: ContPad, lx: int16, ly: int16)
      modifies pad
      ensures pad.Value() == if Moved(lx, ly) then old(pad.Value()).(stickX := StickX(lx), stickY := StickY(ly)) else old(pad.Value())
    {
      var magnitudeSq := MagnitudeSq(lx, ly);
      if magnitudeSq > DEADZONE * DEADZONE {
        pad.stickX := StickX(lx);
        pad.stickY := StickY(ly);
      }
    }

    /** `controller_sdl_read`: without a successful init, or when no game
        controller is open after the lifecycle step, the pad is left as it
        was; otherwise the sample is merged into it. */
    method Read(pad: ContPad, attached: bool, joysticks: seq<Joystick>, s: SdlSample, web: bool)
      modifies this, pad
      ensures initOk == old(initOk)
      ensures open == OpenAfter(old(initOk), old(open), attached, joysticks)
      ensures pad.Value() == if initOk && open then SdlRead(old(pad.Value()), s, web) else old(pad.Value())
    {
      if !initOk {
        return;
      }
      Reconnect(attached, joysticks);
      if !open {
        return;
      }
      ApplySample(pad, s, web);
    }

    /** Lines 86-128 of controller_sdl.c: the sample merged into the pad. */
    static method ApplySample(pad: ContPad, s: SdlSample, web: bool)
      modifies pad
      ensures pad.Value() == SdlRead(old(pad.Value()), s, web)
    {
      var ly, ry := WebFix(s.leftY, web), WebFix(s.rightY, web);
      PressButtons(pad, s, ry);
      SetStick(pad, s.leftX, ly);
    }

    /** Lines 86-120 of controller_sdl.c, every button line, with the right stick's vertical
        reading `ry` after the web workaround. */
    static method PressButtons(pad: ContPad, s: SdlSample, ry: int16)
      modifies pad
      ensures pad.Value() == old(pad.Value()).(button := SdlButtons(old(pad.button), s, ry))
    {
      PressDigital(pad, s);
      PressRightStick(pad, s.rightX, ry);
      PressTriggers(pad, s.leftTrigger, s.rightTrigger);
    }
  }
}
