/** src/game/behaviors/cannon_door.inc.c: the trap door over a cannon.
    The object engine is not part of this model: the frame timer `oTimer`
    and whether the save file has the cannon unlocked are inputs, and the
    cannon the door spawns and the sound it plays are outputs. Positions
    and velocities are `f32` in the source and reals here. The constants
    the door writes (-0.5, 4, 0, 20000, and 400 from 4000 * 0.1) are
    exact. The sums `posY + -0.5` and `posX + 4` are exact whenever the
    exact sum is representable in `f32` (for example, for any position
    that is a multiple of 0.5 below 2^22 in magnitude); other sums are
    rounded in the source and not here. */
module CannonDoor {
  import opened CTypes

  datatype Action = Closed | CamZoom | Opening | Open

  const DRAW_DISTANCE_COEFF: real := 0.1

  /** `ACTIVE_FLAG_DEACTIVATED`, as include/object_constants.h defines it
      (that header is not part of this model). */
  const ACTIVE_FLAG_DEACTIVATED := 0

  /** The door's fields that the behaviour writes. */
  datatype DoorState = DoorState(
    action: Action, posX: real, posY: real, velX: real, velY: real,
    drawingDistance: real, activeFlags: int)

  /** The fields the behaviour only reads: the spawn position and the
      second behaviour-parameter byte. */
  datatype Home = Home(x: real, y: real, z: real, behParams2ndByte: int)

  /** The cannon object that `spawn_object` creates, with the fields the
      door sets on it. */
  datatype Cannon = Cannon(behParams2ndByte: int, posX: real, posY: real, posZ: real)

  /** One frame's outcome: the door afterwards, the cannon spawned (if
      any) and whether `SOUND_GENERAL_CANNON_UP` was played. */
  datatype StepResult = StepResult(door: DoorState, spawned: Option<Cannon>, sound: bool)

  /** `bhv_cannon_closed_init`: with the cannon unlocked, spawn a cannon at
      the home position and retire the door; otherwise change nothing. */
  function InitOutcome(s: DoorState, home: Home, unlocked: bool): (r: StepResult)
    ensures !unlocked ==> r == StepResult(s, None, false)
    ensures unlocked ==> r.spawned == Some(Cannon(home.behParams2ndByte, home.x, home.y, home.z))
    ensures unlocked ==> r.door == s.(action := Open, activeFlags := ACTIVE_FLAG_DEACTIVATED)
    ensures !r.sound
  {
    if unlocked then
      StepResult(s.(action := Open, activeFlags := ACTIVE_FLAG_DEACTIVATED),
                 Some(Cannon(home.behParams2ndByte, home.x, home.y, home.z)), false)
    else StepResult(s, None, false)
  }

  /** `cannon_door_act_opening` on frame `timer`. */
  function OpeningOutcome(s: DoorState, home: Home, timer: int, unlocked: bool): StepResult
  {
    if timer < 30 then
      StepResult(s.(velY := -0.5, posY := s.posY + -0.5, velX := 0.0), None, timer == 0)
    else if timer == 80 then
      InitOutcome(s, home, unlocked)
    else
      StepResult(s.(velX := 4.0, velY := 0.0, posX := s.posX + 4.0), None, false)
  }

  /** `bhv_cannon_closed_loop` on frame `timer`. */
  function Step(s: DoorState, home: Home, timer: int, unlocked: bool): StepResult
  {
    match s.action
    case Closed =>
      var d := s.(velX := 0.0, velY := 0.0, drawingDistance := 4000.0 * DRAW_DISTANCE_COEFF);
      StepResult(if unlocked then d.(action := CamZoom) else d, None, false)
    case CamZoom =>
      StepResult(s.(action := if timer == 60 then Opening else CamZoom, drawingDistance := 20000.0), None, false)
    case Opening => OpeningOutcome(s, home, timer, unlocked)
    case Open => StepResult(s, None, false)
  }

  /** A closed door stops, is drawn out to 400 units, and starts the
      camera zoom exactly when the cannon is unlocked. */
  lemma ClosedStep(s: DoorState, home: Home, timer: int, unlocked: bool)
    requires s.action == Closed
    ensures var r := Step(s, home, timer, unlocked);
      && r.door.velX == 0.0 && r.door.velY == 0.0 && r.door.drawingDistance == 400.0
      && (r.door.action == CamZoom <==> unlocked) && (!unlocked ==> r.door.action == Closed)
      && r.door.posX == s.posX && r.door.posY == s.posY && r.door.activeFlags == s.activeFlags
      && r.spawned.None? && !r.sound
  {
  }

  /** The zoom lasts until frame 60 with the door drawn out to 20000 units. */
  lemma CamZoomStep(s: DoorState, home: Home, timer: int, unlocked: bool)
    requires s.action == CamZoom
    ensures var r := Step(s, home, timer, unlocked);
      && r.door.drawingDistance == 20000.0
      && (r.door.action == Opening <==> timer == 60) && (timer != 60 ==> r.door.action == CamZoom)
      && r.door.(action := s.action, drawingDistance := s.drawingDistance) == s
      && r.spawned.None? && !r.sound
  {
  }

  /** For the first 30 frames of the opening the door sinks by half a
      unit a frame; the sound plays on frame 0 only. */
  lemma OpeningSinks(s: DoorState, home: Home, timer: int, unlocked: bool)
    requires s.action == Opening && timer < 30
    ensures var r := Step(s, home, timer, unlocked);
      && r.door.velY == -0.5 && r.door.posY == s.posY - 0.5 && r.door.velX == 0.0
      && r.door.posX == s.posX && r.door.action == Opening
      && r.spawned.None? && (r.sound <==> timer == 0)
  {
  }

  /** From frame 30 on, except at frame 80, it slides four units a frame. */
  lemma OpeningSlides(s: DoorState, home: Home, timer: int, unlocked: bool)
    requires s.action == Opening && timer >= 30 && timer != 80
    ensures var r := Step(s, home, timer, unlocked);
      && r.door.velX == 4.0 && r.door.velY == 0.0 && r.door.posX == s.posX + 4.0
      && r.door.posY == s.posY && r.door.action == Opening
      && r.spawned.None? && !r.sound
  {
  }

  /** At frame 80 nothing moves: an unlocked cannon replaces the door,
      spawned at the home position with the door's parameter byte, and
      otherwise the frame changes nothing. */
  lemma OpeningEnds(s: DoorState, home: Home, unlocked: bool)
    requires s.action == Opening
    ensures var r := Step(s, home, 80, unlocked);
      && r.door.posX == s.posX && r.door.posY == s.posY
      && r.door.velX == s.velX && r.door.velY == s.velY && !r.sound
      && (unlocked ==> r.door.action == Open && r.door.activeFlags == ACTIVE_FLAG_DEACTIVATED
                       && r.spawned == Some(Cannon(home.behParams2ndByte, home.x, home.y, home.z)))
      && (!unlocked ==> r.door == s && r.spawned.None?)
  {
  }

  /** The loop has no case for an open door. */
  lemma OpenIsFinal(s: DoorState, home: Home, timer: int, unlocked: bool)
    requires s.action == Open
    ensures Step(s, home, timer, unlocked) == StepResult(s, None, false)
  {
  }

  /** The door after one frame per entry of `timers`, in order. */
  function Run(s: DoorState, home: Home, timers: seq<int>, unlocked: bool): DoorState
    decreases |timers|
  {
    if |timers| == 0 then s else Run(Step(s, home, timers[0], unlocked).door, home, timers[1..], unlocked)
  }

  /** The frames `a`, `a + 1`, ..., `b - 1`, as the engine's timer counts
      them while the action does not change. */
  function Frames(a: int, b: int): (r: seq<int>)
    ensures |r| == if a <= b then b - a else 0
    ensures forall k :: 0 <= k < |r| ==> r[k] == a + k
    decreases b - a
  {
    if a >= b then [] else [a] + Frames(a + 1, b)
  }

  lemma FramesSplit(a: int, m: int, b: int)
    requires a <= m <= b
    ensures Frames(a, b) == Frames(a, m) + Frames(m, b)
  {
    assert forall k :: 0 <= k < b - a ==> Frames(a, b)[k] == (Frames(a, m) + Frames(m, b))[k];
  }

  lemma {:induction false} RunAppend(s: DoorState, home: Home, xs: seq<int>, ys: seq<int>, unlocked: bool)
    ensures Run(s, home, xs + ys, unlocked) == Run(Run(s, home, xs, unlocked), home, ys, unlocked)
    decreases |xs|
  {
    if |xs| == 0 {
      assert xs + ys == ys;
    } else {
      assert (xs + ys)[1..] == xs[1..] + ys;
      RunAppend(Step(s, home, xs[0], unlocked).door, home, xs[1..], ys, unlocked);
    }
  }

  /** Frames `a` to `b - 1` of the first 30 lower the door by half a unit
      each and leave it opening at the same horizontal place. */
  lemma {:induction false} SinkFrames(s: DoorState, home: Home, a: int, b: int, unlocked: bool)
    requires s.action == Opening && a <= b <= 30
    ensures var t := Run(s, home, Frames(a, b), unlocked);
      t.action == Opening && t.posX == s.posX && t.posY == s.posY - (b - a) as real * 0.5
    decreases b - a
  {
    if a < b {
      var s1 := Step(s, home, a, unlocked).door;
      OpeningSinks(s, home, a, unlocked);
      SinkFrames(s1, home, a + 1, b, unlocked);
    }
  }

  /** Frames `a` to `b - 1` between 30 and 80 push the door four units
      each and leave its height alone. */
  lemma {:induction false} SlideFrames(s: DoorState, home: Home, a: int, b: int, unlocked: bool)
    requires s.action == Opening && 30 <= a && a <= b <= 80
    ensures var t := Run(s, home, Frames(a, b), unlocked);
      t.action == Opening && t.posY == s.posY && t.posX == s.posX + (b - a) as real * 4.0
    decreases b - a
  {
    if a < b {
      var s1 := Step(s, home, a, unlocked).door;
      OpeningSlides(s, home, a, unlocked);
      SlideFrames(s1, home, a + 1, b, unlocked);
    }
  }

  /** The whole opening, frames 0 to 80: the door ends 15 units lower and
      200 units across, and with the cannon unlocked it is open and
      deactivated. */
  lemma FullOpening(s: DoorState, home: Home, unlocked: bool)
    requires s.action == Opening
    ensures var t := Run(s, home, Frames(0, 81), unlocked);
      && t.posY == s.posY - 15.0 && t.posX == s.posX + 200.0
      && (unlocked ==> t.action == Open && t.activeFlags == ACTIVE_FLAG_DEACTIVATED)
      && (!unlocked ==> t.action == Opening)
  {
    FramesSplit(0, 80, 81);
    FramesSplit(0, 30, 80);
    assert Frames(80, 81) == [80];
    RunAppend(s, home, Frames(0, 30) + Frames(30, 80), [80], unlocked);
    RunAppend(s, home, Frames(0, 30), Frames(30, 80), unlocked);
    SinkFrames(s, home, 0, 30, unlocked);
    var s30 := Run(s, home, Frames(0, 30), unlocked);
    SlideFrames(s30, home, 30, 80, unlocked);
    var s80 := Run(s30, home, Frames(30, 80), unlocked);
    OpeningEnds(s80, home, unlocked);
  }

  /** The door object `o` of the behaviour. */
  class CannonTrapDoor {
    var action: Action
    var posX: real
    var posY: real
    var velX: real
    var velY: real
    var drawingDistance: real
    var activeFlags: int
    const home: Home

    function State(): DoorState
      reads this
    {
      DoorState(action, posX, posY, velX, velY, drawingDistance, activeFlags)
    }

    constructor (s: DoorState, h: Home)
      ensures State() == s && home == h
    {
      action, posX, posY, velX, velY := s.action, s.posX, s.posY, s.velX, s.velY;
      drawingDistance, activeFlags := s.drawingDistance, s.activeFlags;
      home := h;
    }

    /** `bhv_cannon_closed_init`. */
    method ClosedInit(unlocked: bool) returns (spawned: Option<Cannon>)
      modifies this
      ensures StepResult(State(), spawned, false) == InitOutcome(old(State()), home, unlocked)
    {
      spawned := None;
      if unlocked {
        spawned := Some(Cannon(home.behParams2ndByte, home.x, home.y, home.z));
        action := Open;
        activeFlags := ACTIVE_FLAG_DEACTIVATED;
      }
    }

    /** `cannon_door_act_opening`. */
    method ActOpening(timer: int, unlocked: bool) returns (spawned: Option<Cannon>, sound: bool)
      modifies this
      ensures StepResult(State(), spawned, sound) == OpeningOutcome(old(State()), home, timer, unlocked)
    {
      spawned, sound := None, timer == 0;
      if timer < 30 {
        velY := -0.5;
        posY := posY + velY;
        velX := 0.0;
      } else {
        if timer == 80 {
          spawned := ClosedInit(unlocked);
          return;
        }
        velX := 4.0;
        velY := 0.0;
        posX := posX + velX;
      }
    }

    /** `bhv_cannon_closed_loop`: one frame of the door. */
    method Loop(timer: int, unlocked: bool) returns (spawned: Option<Cannon>, sound: bool)
      modifies this
      ensures StepResult(State(), spawned, sound) == Step(old(State()), home, timer, unlocked)
    {
      spawned, sound := None, false;
      match action
      case Closed =>
        velX := 0.0;
        velY := 0.0;
        drawingDistance := 4000.0 * DRAW_DISTANCE_COEFF;
        if unlocked {
          action := CamZoom;
        }
      case CamZoom =>
        if timer == 60 {
          action := Opening;
        }
        drawingDistance := 20000.0;
      case Opening =>
        spawned, sound := ActOpening(timer, unlocked);
      case Open =>
    }
  }
}
