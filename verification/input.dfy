/** The input bookkeeping of the render loop: the exposure keys polled once
    per frame (processInput), the F1 and H toggles (key_callback) and the
    first-mouse / last-position bookkeeping of the cursor (mouse_callback).
    The globals and the two ProgramState flags they touch become the fields
    of InputState; what the callbacks hand to GLFW or to the camera becomes a
    result. */
module Input {

  /** GLFW key and action codes, with GLFW's own values. */
  const KeyEscape := 256
  const KeyF1 := 290
  const KeyW := 87
  const KeyS := 83
  const KeyA := 65
  const KeyD := 68
  const KeyQ := 81
  const KeyE := 69
  const KeyH := 72
  const KeyJ := 74
  const KeyK := 75
  const Press := 1

  /** The window size the cursor starts at the centre of. */
  const ScreenWidth: real := 800.0
  const ScreenHeight: real := 600.0

  /** How much one frame with J or K held changes the exposure. */
  const ExposureStep: real := 0.03

  datatype Option<T> = None | Some(value: T)

  /** The directions processInput hands to Camera::ProcessKeyboard. */
  datatype Movement = Forward | Backward | Left | Right | Down | Up

  /** The cursor mode key_callback sets through glfwSetInputMode. */
  datatype CursorMode = CursorNormal | CursorDisabled

  /** The key that moves the camera in direction `m`. */
  function KeyOf(m: Movement): int
  {
    match m
    case Forward => KeyW
    case Backward => KeyS
    case Left => KeyA
    case Right => KeyD
    case Down => KeyQ
    case Up => KeyE
  }

  /** The position of a movement's key in the order processInput polls the
      keys: W, S, A, D, Q, E. */
  function PollRank(m: Movement): nat
  {
    match m
    case Forward => 0
    case Backward => 1
    case Left => 2
    case Right => 3
    case Down => 4
    case Up => 5
  }

  /** Movements listed in the order their keys are polled. */
  predicate InPollOrder(moves: seq<Movement>)
  {
    forall i, j :: 0 <= i < j < |moves| ==> PollRank(moves[i]) < PollRank(moves[j])
  }

  /** The movement of direction `m` if its key is held this frame. */
  function Held(pressed: set<int>, m: Movement): (moves: seq<Movement>)
    ensures moves == [] || moves == [m]
    ensures m in moves <==> KeyOf(m) in pressed
  {
    if KeyOf(m) in pressed then [m] else []
  }

  /** Putting a key's movement in front of the movements of keys polled
      later keeps the poll order. */
  lemma PrependInOrder(first: seq<Movement>, rest: seq<Movement>, rank: nat)
    requires |first| <= 1 && forall m :: m in first ==> PollRank(m) == rank
    requires InPollOrder(rest) && forall m :: m in rest ==> PollRank(m) > rank
    ensures InPollOrder(first + rest)
    ensures forall m :: m in first + rest ==> PollRank(m) >= rank
  {
    var all := first + rest;
    forall i, j | 0 <= i < j < |all|
      ensures PollRank(all[i]) < PollRank(all[j])
    {
      if i < |first| {
        assert all[i] in first && all[j] in rest;
      } else {
        assert all[i] == rest[i - |first|] && all[j] == rest[j - |first|];
      }
    }
  }

  /** The camera movements of one frame, in the order processInput polls the
      keys W, S, A, D, Q, E. */
  function Movements(pressed: set<int>): seq<Movement>
  {
    Held(pressed, Forward) + (Held(pressed, Backward) + (Held(pressed, Left)
      + (Held(pressed, Right) + (Held(pressed, Down) + Held(pressed, Up)))))
  }

  /** A movement is issued exactly for each held movement key. */
  lemma MovementsHeld(pressed: set<int>)
    ensures forall m :: m in Movements(pressed) <==> KeyOf(m) in pressed
  {
    var fromUp := Held(pressed, Up);
    var fromDown := Held(pressed, Down) + fromUp;
    var fromRight := Held(pressed, Right) + fromDown;
    var fromLeft := Held(pressed, Left) + fromRight;
    var fromBackward := Held(pressed, Backward) + fromLeft;
    forall m
      ensures m in Movements(pressed) <==> m in Held(pressed, m)
    {
      assert m in Movements(pressed) <==> m in Held(pressed, Forward) || m in fromBackward;
      assert m in fromBackward <==> m in Held(pressed, Backward) || m in fromLeft;
      assert m in fromLeft <==> m in Held(pressed, Left) || m in fromRight;
      assert m in fromRight <==> m in Held(pressed, Right) || m in fromDown;
      assert m in fromDown <==> m in Held(pressed, Down) || m in fromUp;
    }
  }

  /** The movements come in poll order, so each at most once. */
  lemma MovementsInPollOrder(pressed: set<int>)
    ensures InPollOrder(Movements(pressed))
  {
    var fromUp := Held(pressed, Up);
    var fromDown := Held(pressed, Down) + fromUp;
    var fromRight := Held(pressed, Right) + fromDown;
    var fromLeft := Held(pressed, Left) + fromRight;
    var fromBackward := Held(pressed, Backward) + fromLeft;
    PrependInOrder(Held(pressed, Down), fromUp, 4);
    PrependInOrder(Held(pressed, Right), fromDown, 3);
    PrependInOrder(Held(pressed, Left), fromRight, 2);
    PrependInOrder(Held(pressed, Backward), fromLeft, 1);
    PrependInOrder(Held(pressed, Forward), fromBackward, 0);
  }

  /** The J branch: a positive exposure drops by one step, anything else is
      clamped to exactly zero; either way the result stays above minus one
      step. */
  function Darken(exposure: real): (darkened: real)
    ensures exposure > 0.0 ==> darkened + ExposureStep == exposure
    ensures exposure <= 0.0 ==> darkened == 0.0
    ensures darkened > -ExposureStep
  {
    if exposure > 0.0 then exposure - ExposureStep else 0.0
  }

  /** The K branch: one step up, which a later J undoes for any exposure
      above minus one step. */
  function Brighten(exposure: real): (brightened: real)
    ensures brightened > exposure
    ensures exposure > -ExposureStep ==> Darken(brightened) == exposure
  {
    exposure + ExposureStep
  }

  /** The exposure after one frame: J is applied first, then K. With neither
      key held nothing changes; from above minus one step the result stays
      above it. */
  function ExposureAfter(exposure: real, jHeld: bool, kHeld: bool): (after: real)
    ensures !jHeld && !kHeld ==> after == exposure
    ensures exposure > -ExposureStep ==> after > -ExposureStep
  {
    var darkened := if jHeld then Darken(exposure) else exposure;
    if kHeld then Brighten(darkened) else darkened
  }

  /** The exposure after a run of frames, one set of held keys per frame. */
  function ExposureAfterFrames(exposure: real, frames: seq<set<int>>): real
    decreases |frames|
  {
    if frames == [] then exposure
    else ExposureAfterFrames(ExposureAfter(exposure, KeyJ in frames[0], KeyK in frames[0]), frames[1..])
  }

  /** The exposure stays above minus one step over any run of frames from
      any start above it, such as the initial 0.4. */
  lemma {:induction false} ExposureFloorForever(exposure: real, frames: seq<set<int>>)
    requires exposure > -ExposureStep
    ensures ExposureAfterFrames(exposure, frames) > -ExposureStep
    decreases |frames|
  {
    if frames != [] {
      ExposureFloorForever(ExposureAfter(exposure, KeyJ in frames[0], KeyK in frames[0]), frames[1..]);
    }
  }

  /** J and K held in the same frame: J runs first, so a positive exposure is
      left as it was, and zero or below ends at exactly one step (K before J
      would have given zero for an exposure of zero). */
  lemma BothKeys(exposure: real)
    ensures ExposureAfter(exposure, true, true) == (if exposure > 0.0 then exposure else ExposureStep)
    ensures exposure == 0.0 ==> Darken(Brighten(exposure)) == 0.0 != ExposureAfter(exposure, true, true)
  {
  }

  /** K then J (on two frames) undoes the K for any exposure above minus one
      step; J then K undoes the J only for a positive exposure. */
  lemma BrightenThenDarken(exposure: real)
    ensures exposure > -ExposureStep ==> Darken(Brighten(exposure)) == exposure
    ensures Brighten(Darken(exposure)) == exposure <==> exposure > 0.0
  {
  }

  /** Holding J alone long enough reaches exactly zero: an exposure of at
      most n - 1 steps is zero after n frames in which J is held and K is
      not. */
  lemma {:induction false} DarkenSettles(exposure: real, frames: seq<set<int>>)
    requires forall i :: 0 <= i < |frames| ==> KeyJ in frames[i] && KeyK !in frames[i]
    requires |frames| >= 1 && exposure <= (|frames| - 1) as real * ExposureStep
    ensures ExposureAfterFrames(exposure, frames) == 0.0
    decreases |frames|
  {
    var next := ExposureAfter(exposure, true, false);
    assert KeyJ in frames[0] && KeyK !in frames[0];
    assert ExposureAfterFrames(exposure, frames) == ExposureAfterFrames(next, frames[1..]);
    if exposure <= 0.0 {
      assert next == 0.0;
      if |frames| > 1 {
        DarkenSettles(0.0, frames[1..]);
      }
    } else {
      assert |frames| >= 2;
      DarkenSettles(next, frames[1..]);
    }
  }

  /** The offsets mouse_callback computes for a cursor event at (xpos, ypos):
      the first event after startup is taken as the last position, so it
      gives no movement; every later one gives the move from the last
      position, with y reversed. */
  function MouseOffset(lastX: real, lastY: real, firstMouse: bool, xpos: real, ypos: real): (offset: (real, real))
    ensures firstMouse ==> offset == (0.0, 0.0)
    ensures !firstMouse ==> lastX + offset.0 == xpos && ypos + offset.1 == lastY
  {
    var fromX := if firstMouse then xpos else lastX;
    var fromY := if firstMouse then ypos else lastY;
    (xpos - fromX, fromY - ypos)
  }

  /** The offsets of a run of cursor events, the last position carried from
      one event to the next. */
  function MouseOffsets(lastX: real, lastY: real, firstMouse: bool, events: seq<(real, real)>): (offsets: seq<(real, real)>)
    ensures |offsets| == |events|
    ensures |events| > 0 ==> offsets[0] == MouseOffset(lastX, lastY, firstMouse, events[0].0, events[0].1)
    ensures forall i :: 0 < i < |events| ==>
              offsets[i] == (events[i].0 - events[i - 1].0, events[i - 1].1 - events[i].1)
    decreases |events|
  {
    if events == [] then []
    else [MouseOffset(lastX, lastY, firstMouse, events[0].0, events[0].1)]
         + MouseOffsets(events[0].0, events[0].1, false, events[1..])
  }

  function SumX(offsets: seq<(real, real)>): real
    decreases |offsets|
  {
    if offsets == [] then 0.0 else offsets[0].0 + SumX(offsets[1..])
  }

  function SumY(offsets: seq<(real, real)>): real
    decreases |offsets|
  {
    if offsets == [] then 0.0 else offsets[0].1 + SumY(offsets[1..])
  }

  /** The offsets of a run add up to the whole move: from the last position
      (or, on the very first run, from the first event) to the final
      event, with y reversed. No movement is lost or counted twice. */
  lemma {:induction false} OffsetsTelescope(lastX: real, lastY: real, firstMouse: bool, events: seq<(real, real)>)
    requires events != []
    ensures SumX(MouseOffsets(lastX, lastY, firstMouse, events))
         == events[|events| - 1].0 - (if firstMouse then events[0].0 else lastX)
    ensures SumY(MouseOffsets(lastX, lastY, firstMouse, events))
         == (if firstMouse then events[0].1 else lastY) - events[|events| - 1].1
    decreases |events|
  {
    var offsets := MouseOffsets(lastX, lastY, firstMouse, events);
    var rest := MouseOffsets(events[0].0, events[0].1, false, events[1..]);
    assert offsets[1..] == rest;
    if |events| > 1 {
      OffsetsTelescope(events[0].0, events[0].1, false, events[1..]);
    }
  }

  /** The input state the render loop and the callbacks share: the globals
      exposure, hdr, lastX, lastY and firstMouse, and ProgramState's
      ImGuiEnabled and CameraMouseMovementUpdateEnabled. */
  class InputState {
    var exposure: real
    var hdr: bool
    var imGuiEnabled: bool
    var cameraMouseEnabled: bool
    var lastX: real
    var lastY: real
    var firstMouse: bool

    /** What the program keeps true: the camera follows the mouse exactly
        when the ImGui windows are closed, and the exposure never reaches
        minus one step. */
    ghost predicate Valid()
      reads this
    {
      cameraMouseEnabled == !imGuiEnabled && exposure > -ExposureStep
    }

    /** The initial values: HDR on, exposure 0.4, ImGui closed with the
        camera following the mouse, the cursor at the screen centre and no
        event seen yet. */
    constructor()
      ensures exposure == 0.4 && hdr && !imGuiEnabled && cameraMouseEnabled
      ensures lastX == ScreenWidth / 2.0 && lastY == ScreenHeight / 2.0 && firstMouse
      ensures Valid()
    {
      exposure := 0.4;
      hdr := true;
      imGuiEnabled := false;
      cameraMouseEnabled := true;
      lastX := ScreenWidth / 2.0;
      lastY := ScreenHeight / 2.0;
      firstMouse := true;
    }

    /** processInput for the keys held this frame: Escape asks to close the
        window, W/S/A/D/Q/E give the camera movements, J then K adjust the
        exposure. Nothing but the exposure changes, and the invariant is
        kept. */
    method ProcessInput(pressed: set<int>) returns (closeWindow: bool, moves: seq<Movement>)
      modifies this
      ensures closeWindow <==> KeyEscape in pressed
      ensures moves == Movements(pressed)
      ensures forall m :: m in moves <==> KeyOf(m) in pressed
      ensures InPollOrder(moves)
      ensures exposure == ExposureAfter(old(exposure), KeyJ in pressed, KeyK in pressed)
      ensures hdr == old(hdr) && imGuiEnabled == old(imGuiEnabled)
      ensures cameraMouseEnabled == old(cameraMouseEnabled)
      ensures lastX == old(lastX) && lastY == old(lastY) && firstMouse == old(firstMouse)
      ensures old(Valid()) ==> Valid()
    {
      closeWindow := KeyEscape in pressed;

      moves := Movements(pressed);
      MovementsHeld(pressed);
      MovementsInPollOrder(pressed);

      if KeyJ in pressed {
        if exposure > 0.0 {
          exposure := exposure - ExposureStep;
        } else {
          exposure := 0.0;
        }
      }
      if KeyK in pressed {
        exposure := exposure + ExposureStep;
      }
    }

    /** key_callback: F1 pressed flips the ImGui windows, makes the camera
        follow the mouse exactly when they are closed, and asks for the
        matching cursor mode; H pressed flips HDR. Any other key, and any
        action but a press, changes nothing. */
    method KeyCallback(key: int, action: int) returns (cursor: Option<CursorMode>)
      modifies this
      ensures key == KeyF1 && action == Press ==>
                imGuiEnabled == !old(imGuiEnabled) && cameraMouseEnabled == !imGuiEnabled
                && cursor == Some(if imGuiEnabled then CursorNormal else CursorDisabled)
      ensures !(key == KeyF1 && action == Press) ==>
                imGuiEnabled == old(imGuiEnabled) && cameraMouseEnabled == old(cameraMouseEnabled)
                && cursor == None
      ensures hdr == (if key == KeyH && action == Press then !old(hdr) else old(hdr))
      ensures exposure == old(exposure)
      ensures lastX == old(lastX) && lastY == old(lastY) && firstMouse == old(firstMouse)
      ensures old(Valid()) ==> Valid()
    {
      cursor := None;
      if key == KeyF1 && action == Press {
        imGuiEnabled := !imGuiEnabled;
        cameraMouseEnabled := !imGuiEnabled;
        if imGuiEnabled {
          cursor := Some(CursorNormal);
        } else {
          cursor := Some(CursorDisabled);
        }
      }
      if key == KeyH && action == Press {
        hdr := !hdr;
      }
    }

    /** mouse_callback: the offsets of the event are handed to the camera
        exactly when it follows the mouse; the event becomes the last
        position and the first-mouse flag is cleared either way. */
    method MouseCallback(xpos: real, ypos: real) returns (forwarded: Option<(real, real)>)
      modifies this
      ensures lastX == xpos && lastY == ypos && !firstMouse
      ensures forwarded.Some? <==> cameraMouseEnabled
      ensures forwarded.Some? ==> forwarded.value == MouseOffset(old(lastX), old(lastY), old(firstMouse), xpos, ypos)
      ensures exposure == old(exposure) && hdr == old(hdr)
      ensures imGuiEnabled == old(imGuiEnabled) && cameraMouseEnabled == old(cameraMouseEnabled)
      ensures old(Valid()) ==> Valid()
    {
      if firstMouse {
        lastX := xpos;
        lastY := ypos;
        firstMouse := false;
      }

      var xoffset := xpos - lastX;
      var yoffset := lastY - ypos;

      lastX := xpos;
      lastY := ypos;

      if cameraMouseEnabled {
        forwarded := Some((xoffset, yoffset));
      } else {
        forwarded := None;
      }
    }
  }
}
