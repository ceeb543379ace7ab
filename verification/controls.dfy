/**
 * The first-person pointer-lock controller: keyboard move flags, the
 * ground-contact jump latch, mouse look with spike filtering, and the
 * per-frame velocity write into the physics body.
 */
module Controls {
  import opened Wrappers
  import opened Geometry
  import opened SpikeFilter
  import opened Look
  import opened Keyboard
  import opened Physics

  /**
   * The library numerics of a frame update: normalise the intent vector,
   * scale it by the move speed, and rotate it by the Euler angles
   * (pitch, yaw, 0) in order X, Y, Z. Arguments: intent, move speed,
   * pitch, yaw.
   */
  type WorldMove = (Vec3, real, real, real) -> Vec3

  /** What a pointer-lock change dispatches to its observers. */
  datatype LockEvent = Lock | Unlock

  class FirstPersonControls {
    /** The physics body; its velocity is written here, its position read. */
    const body: Body
    const moveVelocity: real
    const jumpVelocity: real
    const sensitivity: real

    /** Set by the caller on lock and cleared on unlock; gates mouse look and update. */
    var enabled: bool
    var isLocked: bool

    var moveForward: bool
    var moveBackward: bool
    var moveLeft: bool
    var moveRight: bool

    /** The jump latch: set by upward contacts, cleared by a Space key-down. */
    var canJump: bool

    /** The previous raw mouse deltas; `None` is the +Infinity starting value. */
    var prevMoveX: Option<real>
    var prevMoveY: Option<real>

    /** Rotation of the yaw node about Y and of the pitch node about X. */
    var yaw: real
    var pitch: real

    /** Position of the yaw node, which carries the camera. */
    var yawPosition: Vec3

    /** The object invariant: the pitch stays within [-pi/2, pi/2]. */
    ghost predicate Valid()
      reads this
    {
      PitchInRange(pitch)
    }

    /** The movement intent: x = right - left, z = backward - forward. */
    function Intent(): (v: Vec3)
      reads this
      ensures v.y == 0.0
      ensures -1.0 <= v.x <= 1.0 && -1.0 <= v.z <= 1.0
      ensures v.x == 0.0 <==> moveRight == moveLeft
      ensures v.z == 0.0 <==> moveBackward == moveForward
      ensures v.x == (if moveRight && !moveLeft then 1.0 else if moveLeft && !moveRight then -1.0 else 0.0)
      ensures v.z == (if moveBackward && !moveForward then 1.0 else if moveForward && !moveBackward then -1.0 else 0.0)
    {
      Vec3(Axis(moveRight, moveLeft) as real, 0.0, Axis(moveBackward, moveForward) as real)
    }

    constructor (body: Body, moveVelocity: real := 20.0, jumpVelocity: real := 20.0,
                 eyeYPos: real := 2.0, sensitivity: real := 1.0)
      ensures Valid()
      ensures this.body == body && this.moveVelocity == moveVelocity
      ensures this.jumpVelocity == jumpVelocity && this.sensitivity == sensitivity
      ensures !enabled && !isLocked && !canJump
      ensures !moveForward && !moveBackward && !moveLeft && !moveRight
      ensures prevMoveX == None && prevMoveY == None
      ensures yaw == 0.0 && pitch == 0.0
      ensures yawPosition == Vec3(0.0, eyeYPos, 0.0)
    {
      this.body := body;
      this.moveVelocity := moveVelocity;
      this.jumpVelocity := jumpVelocity;
      this.sensitivity := sensitivity;
      enabled := false;
      isLocked := false;
      moveForward, moveBackward, moveLeft, moveRight := false, false, false, false;
      canJump := false;
      prevMoveX, prevMoveY := None, None;
      yaw, pitch := 0.0, 0.0;
      yawPosition := Vec3(0.0, eyeYPos, 0.0);
    }

    /** The collide listener: an upward contact sets the jump latch; nothing here clears it. */
    method OnCollide(contact: Contact)
      modifies this`canJump
      ensures canJump == (old(canJump) || IsGroundContact(contact, body.id))
      ensures old(canJump) ==> canJump
    {
      var contactNormal: Vec3;
      if contact.bi == body.id {
        contactNormal := Negate(contact.ni);
      } else {
        contactNormal := contact.ni;
      }
      if Dot(contactNormal, UpAxis) > 0.5 {
        canJump := true;
      }
    }

    /** Records whether the document now holds a pointer-lock element, and reports which event is dispatched. */
    method OnPointerlockChange(lockElementPresent: bool) returns (event: LockEvent)
      modifies this`isLocked
      ensures isLocked == lockElementPresent
      ensures event == (if lockElementPresent then Lock else Unlock)
    {
      if lockElementPresent {
        event := Lock;
        isLocked := true;
      } else {
        event := Unlock;
        isLocked := false;
      }
    }

    /**
     * A mouse move: while disabled nothing changes; otherwise both deltas
     * are spike-filtered against the previous raw deltas, the raw deltas
     * become the new previous ones, the yaw turns by the filtered X delta
     * (without bound) and the pitch by the filtered Y delta, clamped.
     */
    method OnMouseMove(movementX: real, movementY: real)
      requires Valid()
      modifies this`prevMoveX, this`prevMoveY, this`yaw, this`pitch
      ensures Valid()
      ensures !enabled ==> prevMoveX == old(prevMoveX) && prevMoveY == old(prevMoveY)
      ensures !enabled ==> yaw == old(yaw) && pitch == old(pitch)
      ensures enabled ==> prevMoveX == Some(movementX) && prevMoveY == Some(movementY)
      ensures enabled ==> yaw == old(yaw) - Turn(Filter(movementX, old(prevMoveX), XFactor), sensitivity)
      ensures enabled ==> pitch == ClampPitch(old(pitch) - Turn(Filter(movementY, old(prevMoveY), YFactor), sensitivity))
    {
      if !enabled {
        return;
      }
      var mx, my := movementX, movementY;

      var temp := mx;
      if IsSpike(mx, prevMoveX, XFactor) {
        mx := prevMoveX.value;
      }
      assert mx == Filter(movementX, old(prevMoveX), XFactor);
      prevMoveX := Some(temp);

      temp := my;
      if IsSpike(my, prevMoveY, YFactor) {
        my := prevMoveY.value;
      }
      assert my == Filter(movementY, old(prevMoveY), YFactor);
      prevMoveY := Some(temp);

      yaw := yaw - Turn(mx, sensitivity);
      pitch := pitch - Turn(my, sensitivity);
      pitch := ClampPitch(pitch);
    }

    /**
     * A key-down: a movement key sets its own flag and no other; Space
     * writes the jump velocity when the latch is set and clears the latch
     * either way; other codes change nothing. Not gated by `enabled`.
     */
    method OnKeyDown(code: string)
      modifies this`moveForward, this`moveBackward, this`moveLeft, this`moveRight, this`canJump, body`velocity
      ensures moveForward == (old(moveForward) || Decode(code) in {KeyW, ArrowUp})
      ensures moveLeft == (old(moveLeft) || Decode(code) in {KeyA, ArrowLeft})
      ensures moveBackward == (old(moveBackward) || Decode(code) in {KeyS, ArrowDown})
      ensures moveRight == (old(moveRight) || Decode(code) in {KeyD, ArrowRight})
      ensures canJump == (old(canJump) && Decode(code) != Space)
      ensures body.velocity == if Decode(code) == Space && old(canJump)
                               then old(body.velocity).(y := jumpVelocity)
                               else old(body.velocity)
    {
      match Decode(code)
      case KeyW | ArrowUp =>
        moveForward := true;
      case KeyA | ArrowLeft =>
        moveLeft := true;
      case KeyS | ArrowDown =>
        moveBackward := true;
      case KeyD | ArrowRight =>
        moveRight := true;
      case Space =>
        if canJump {
          body.velocity := body.velocity.(y := jumpVelocity);
        }
        canJump := false;
      case Other =>
    }

    /** A key-up: a movement key clears its own flag and no other; every other code changes nothing. */
    method OnKeyUp(code: string)
      modifies this`moveForward, this`moveBackward, this`moveLeft, this`moveRight
      ensures moveForward == (old(moveForward) && Decode(code) !in {KeyW, ArrowUp})
      ensures moveLeft == (old(moveLeft) && Decode(code) !in {KeyA, ArrowLeft})
      ensures moveBackward == (old(moveBackward) && Decode(code) !in {KeyS, ArrowDown})
      ensures moveRight == (old(moveRight) && Decode(code) !in {KeyD, ArrowRight})
    {
      match Decode(code)
      case KeyW | ArrowUp =>
        moveForward := false;
      case KeyA | ArrowLeft =>
        moveLeft := false;
      case KeyS | ArrowDown =>
        moveBackward := false;
      case KeyD | ArrowRight =>
        moveRight := false;
      case _ =>
    }

    /**
     * The per-frame update: while disabled nothing changes; otherwise the
     * world-space move computed from the intent and the current angles
     * overwrites the body's X and Z velocity, its Y velocity is left to the
     * physics engine, and the yaw node moves to the body's position.
     */
    method Update(worldMove: WorldMove)
      modifies body`velocity, this`yawPosition
      ensures !enabled ==> body.velocity == old(body.velocity) && yawPosition == old(yawPosition)
      ensures enabled ==> var w := worldMove(Intent(), moveVelocity, pitch, yaw);
                          body.velocity == Vec3(w.x, old(body.velocity).y, w.z)
      ensures enabled ==> yawPosition == body.position
    {
      if !enabled {
        return;
      }
      var inputVelocity := Intent();
      var w := worldMove(inputVelocity, moveVelocity, pitch, yaw);
      body.velocity := body.velocity.(x := w.x, z := w.z);
      yawPosition := body.position;
    }
  }

  /**
   * A key held down repeats its key-down event: two key-downs of any code
   * leave the state exactly as one does. For Space, the second finds the
   * latch already clear and writes nothing.
   */
  method RepeatedKeyDown(c: FirstPersonControls, code: string)
    modifies c`moveForward, c`moveBackward, c`moveLeft, c`moveRight, c`canJump, c.body`velocity
    ensures c.moveForward == (old(c.moveForward) || Decode(code) in {KeyW, ArrowUp})
    ensures c.moveLeft == (old(c.moveLeft) || Decode(code) in {KeyA, ArrowLeft})
    ensures c.moveBackward == (old(c.moveBackward) || Decode(code) in {KeyS, ArrowDown})
    ensures c.moveRight == (old(c.moveRight) || Decode(code) in {KeyD, ArrowRight})
    ensures c.canJump == (old(c.canJump) && Decode(code) != Space)
    ensures c.body.velocity == if Decode(code) == Space && old(c.canJump)
                               then old(c.body.velocity).(y := c.jumpVelocity)
                               else old(c.body.velocity)
  {
    c.OnKeyDown(code);
    c.OnKeyDown(code);
  }

  /**
   * Landing then jumping: a ground contact sets the latch, the first Space
   * consumes it and writes the jump velocity, a second Space before any new
   * contact finds the latch clear and writes nothing.
   */
  method LandThenJumpTwice(c: FirstPersonControls, ground: Contact) returns (afterFirst: Vec3)
    requires IsGroundContact(ground, c.body.id)
    modifies c`moveForward, c`moveBackward, c`moveLeft, c`moveRight, c`canJump, c.body`velocity
    ensures afterFirst == old(c.body.velocity).(y := c.jumpVelocity)
    ensures c.body.velocity == afterFirst
    ensures !c.canJump
  {
    c.OnCollide(ground);
    c.OnKeyDown("Space");
    afterFirst := c.body.velocity;
    c.OnKeyDown("Space");
  }

  /**
   * A stream of mouse moves while enabled: the yaw turns by the sum of the
   * turns of the filtered X stream, the pitch follows the clamped turns of
   * the filtered Y stream, and the last raw deltas are remembered.
   */
  method MouseMoves(c: FirstPersonControls, xs: seq<real>, ys: seq<real>)
    requires c.Valid() && c.enabled && |xs| == |ys|
    modifies c`prevMoveX, c`prevMoveY, c`yaw, c`pitch
    ensures c.Valid()
    ensures c.yaw == old(c.yaw) - TurnSum(FilterRun(xs, old(c.prevMoveX), XFactor), c.sensitivity)
    ensures c.pitch == PitchAfter(old(c.pitch), FilterRun(ys, old(c.prevMoveY), YFactor), c.sensitivity)
    ensures c.prevMoveX == (if xs == [] then old(c.prevMoveX) else Some(xs[|xs| - 1]))
    ensures c.prevMoveY == (if ys == [] then old(c.prevMoveY) else Some(ys[|ys| - 1]))
  {
    ghost var yaw0, pitch0, px0, py0 := c.yaw, c.pitch, c.prevMoveX, c.prevMoveY;
    var i := 0;
    while i < |xs|
      invariant 0 <= i <= |xs|
      invariant c.Valid()
      invariant c.yaw == yaw0 - TurnSum(FilterRun(xs[..i], px0, XFactor), c.sensitivity)
      invariant c.pitch == PitchAfter(pitch0, FilterRun(ys[..i], py0, YFactor), c.sensitivity)
      invariant c.prevMoveX == (if i == 0 then px0 else Some(xs[i - 1]))
      invariant c.prevMoveY == (if i == 0 then py0 else Some(ys[i - 1]))
    {
      ghost var yawBefore, pitchBefore, prevX, prevY := c.yaw, c.pitch, c.prevMoveX, c.prevMoveY;
      c.OnMouseMove(xs[i], ys[i]);
      assert c.yaw == yawBefore - Turn(Filter(xs[i], prevX, XFactor), c.sensitivity);
      assert c.pitch == ClampPitch(pitchBefore - Turn(Filter(ys[i], prevY, YFactor), c.sensitivity));
      YawStreamStep(xs, i, px0, c.sensitivity);
      PitchStreamStep(ys, i, py0, pitch0, c.sensitivity);
      i := i + 1;
    }
    assert xs[..|xs|] == xs;
    assert ys[..|ys|] == ys;
  }

  /** One more X event adds the turn of its filtered delta to the stream's total. */
  lemma YawStreamStep(xs: seq<real>, i: nat, prev: Option<real>, sensitivity: real)
    requires i < |xs|
    ensures TurnSum(FilterRun(xs[..i + 1], prev, XFactor), sensitivity)
         == TurnSum(FilterRun(xs[..i], prev, XFactor), sensitivity)
            + Turn(Filter(xs[i], if i == 0 then prev else Some(xs[i - 1]), XFactor), sensitivity)
  {
    assert xs[..i + 1] == xs[..i] + [xs[i]];
    FilterRunSnoc(xs[..i], prev, XFactor, xs[i]);
    TurnSumSnoc(FilterRun(xs[..i], prev, XFactor), Filter(xs[i], if i == 0 then prev else Some(xs[i - 1]), XFactor), sensitivity);
  }

  /** One more Y event turns and clamps the pitch by its filtered delta. */
  lemma PitchStreamStep(ys: seq<real>, i: nat, prev: Option<real>, pitch: real, sensitivity: real)
    requires i < |ys|
    ensures PitchAfter(pitch, FilterRun(ys[..i + 1], prev, YFactor), sensitivity)
         == ClampPitch(PitchAfter(pitch, FilterRun(ys[..i], prev, YFactor), sensitivity)
                       - Turn(Filter(ys[i], if i == 0 then prev else Some(ys[i - 1]), YFactor), sensitivity))
  {
    assert ys[..i + 1] == ys[..i] + [ys[i]];
    FilterRunSnoc(ys[..i], prev, YFactor, ys[i]);
    PitchAfterSnoc(pitch, FilterRun(ys[..i], prev, YFactor), Filter(ys[i], if i == 0 then prev else Some(ys[i - 1]), YFactor), sensitivity);
  }
}
