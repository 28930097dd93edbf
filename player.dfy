/** The player actor of `player.go`: a command state machine over four
    animation states and two facings, driven by its controller channel, and
    a clock-driven update that picks the walking frame.

    The velocity smoothing and the position integration of `update` work on
    floating point and are not part of this model; the velocity fields are
    reals that the commands set to whole numbers. */
module PlayerActor {
  import opened Geometry

  datatype Facing = Left | Right
  datatype Animation = Standing | Walking | Jumping | Falling
  datatype Control =
    | Quit | StartWalkLeft | StopWalkLeft | StartWalkRight | StopWalkRight
    | StartJump | StopJump | StartFire | StopFire | Land | Teleport

  const FramesWidth := 4
  const PlayerWidth := 32
  const PlayerHeight := 32
  const WalkSpeed: real := 256.0
  const JumpSpeed: real := -512.0
  const Gravity: real := 2048.0

  /** The part of the player that commands read and write. */
  datatype Motion = Motion(facing: Facing, anim: Animation,
                           wx: real, wy: real, dx: real, dy: real, ddx: real, ddy: real)

  /** The effect of one controller command other than Quit; a command that
      the current animation does not accept changes nothing. */
  function Command(s: Motion, c: Control): (r: Motion)
    ensures r.wy == s.wy && r.dx == s.dx && r.ddx == s.ddx
    ensures c != StopJump && c != Land ==> r.dy == s.dy && r.ddy == s.ddy
    ensures r.facing != s.facing ==> r.anim == Walking
    ensures r.anim == s.anim && s.anim != Walking ==> r == s
  {
    match c
    case StartWalkLeft =>
      if s.anim == Standing || s.anim == Walking then s.(anim := Walking, facing := Left, wx := -WalkSpeed) else s
    case StopWalkLeft =>
      if s.anim == Walking then s.(anim := Standing, wx := 0.0) else s
    case StartWalkRight =>
      if s.anim == Standing || s.anim == Walking then s.(anim := Walking, facing := Right, wx := WalkSpeed) else s
    case StopWalkRight =>
      if s.anim == Walking then s.(anim := Standing, wx := 0.0) else s
    case StartJump =>
      if s.anim == Standing || s.anim == Walking then s.(anim := Jumping) else s
    case StopJump =>
      if s.anim == Jumping then s.(anim := Falling, dy := JumpSpeed, ddy := Gravity) else s
    case Land =>
      if s.anim == Falling then s.(anim := Standing, dy := 0.0, ddy := 0.0) else s
    case _ => s
  }

  // ---------------------------------------------------------------------
  // The transition table, stated on its own, and what Command does with it
  // ---------------------------------------------------------------------

  /** Which commands each animation state accepts. */
  predicate Accepts(a: Animation, c: Control)
  {
    match c
    case StartWalkLeft | StartWalkRight | StartJump => a in {Standing, Walking}
    case StopWalkLeft | StopWalkRight => a == Walking
    case StopJump => a == Jumping
    case Land => a == Falling
    case _ => false
  }

  /** The animation state an accepted command leads to. */
  function Target(c: Control): Animation
  {
    match c
    case StartWalkLeft | StartWalkRight => Walking
    case StartJump => Jumping
    case StopJump => Falling
    case _ => Standing
  }

  /** An accepted command moves to its target state; any other command is
      the identity on the whole motion state. */
  lemma CommandFollowsTable(s: Motion, c: Control)
    ensures Accepts(s.anim, c) ==> Command(s, c).anim == Target(c)
    ensures !Accepts(s.anim, c) ==> Command(s, c) == s
  {
  }

  /** Starting to walk from Standing or Walking sets the facing and the
      desired walk velocity; while Jumping or Falling it is ignored. */
  lemma StartWalkEffect(s: Motion, c: Control)
    requires c == StartWalkLeft || c == StartWalkRight
    ensures s.anim == Standing || s.anim == Walking ==>
              Command(s, c) == s.(anim := Walking,
                                  facing := if c == StartWalkLeft then Left else Right,
                                  wx := if c == StartWalkLeft then -256.0 else 256.0)
    ensures s.anim == Jumping || s.anim == Falling ==> Command(s, c) == s
  {
  }

  /** Either stop command ends a walk whatever the facing, and zeroes the
      desired velocity; outside Walking it is ignored. */
  lemma StopWalkEffect(s: Motion, c: Control)
    requires c == StopWalkLeft || c == StopWalkRight
    ensures Command(s, c) == if s.anim == Walking then s.(anim := Standing, wx := 0.0) else s
  {
  }

  /** A jump starts without any change of velocity or acceleration; the
      impulse comes with StopJump, which sets the jump speed and gravity;
      Land brings vertical velocity and acceleration back to zero. */
  lemma JumpPhases(s: Motion)
    ensures s.anim in {Standing, Walking} ==> Command(s, StartJump) == s.(anim := Jumping)
    ensures s.anim == Jumping ==> Command(s, StopJump) == s.(anim := Falling, dy := -512.0, ddy := 2048.0)
    ensures s.anim == Falling ==> Command(s, Land) == s.(anim := Standing, dy := 0.0, ddy := 0.0)
  {
  }

  /** Fire and teleport commands are not handled yet: they change nothing. */
  lemma UnhandledCommandsAreIgnored(s: Motion)
    ensures Command(s, StartFire) == s && Command(s, StopFire) == s && Command(s, Teleport) == s
  {
  }

  /** The commands in order, up to the first Quit, which ends the loop. */
  function Run(s: Motion, cs: seq<Control>): Motion
    decreases |cs|
  {
    if cs == [] || cs[0] == Quit then s else Run(Command(s, cs[0]), cs[1..])
  }

  /** A whole jump from Standing or Walking lands Standing with vertical
      velocity and acceleration zero; the facing and the desired walk
      velocity are what they were, so a jump taken while walking lands
      Standing but still carrying the walk velocity. */
  lemma JumpCycle(s: Motion)
    requires s.anim == Standing || s.anim == Walking
    ensures Run(s, [StartJump, StopJump, Land]) == s.(anim := Standing, dy := 0.0, ddy := 0.0)
  {
    var s1 := Command(s, StartJump);
    var s2 := Command(s1, StopJump);
    assert [StartJump, StopJump, Land][1..] == [StopJump, Land];
    assert [StopJump, Land][1..] == [Land];
    assert Run(s2, [Land]) == Command(s2, Land);
  }

  /** What holds of every state the controller can reach: the vertical
      acceleration is gravity exactly while Falling, and while Walking the
      desired velocity matches the facing. */
  ghost predicate Consistent(s: Motion)
  {
    && s.ddy == (if s.anim == Falling then Gravity else 0.0)
    && (s.anim == Walking ==> s.wx == (if s.facing == Left then -WalkSpeed else WalkSpeed))
  }

  /** Every command sequence keeps the state consistent. */
  lemma {:induction false} RunKeepsConsistent(s: Motion, cs: seq<Control>)
    requires Consistent(s)
    ensures Consistent(Run(s, cs))
    decreases |cs|
  {
    if cs != [] && cs[0] != Quit {
      assert Consistent(Command(s, cs[0]));
      RunKeepsConsistent(Command(s, cs[0]), cs[1..]);
    }
  }

  // ---------------------------------------------------------------------
  // Frames
  // ---------------------------------------------------------------------

  /** The walking frame at clock time `t` (nanoseconds):
      `(int(2*t/time.Millisecond) % 1000) / 250`. */
  function WalkFrame(t: int): (f: int)
    ensures t >= 0 ==> 0 <= f <= 3
    ensures t < 0 ==> -3 <= f <= 0
  {
    Quo(Rem(Quo(2 * t, 1000000), 1000), 250)
  }

  /** The walk cycle repeats every half second. */
  lemma WalkFramePeriodic(t: int)
    requires t >= 0
    ensures WalkFrame(t + 500000000) == WalkFrame(t)
  {
    QuoRemShift(2 * t, 1000000, 1000);
    assert 2 * (t + 500000000) == 2 * t + 1000 * 1000000;
    QuoRemShift(Quo(2 * t, 1000000), 1000, 1);
  }

  /** The x offset of a frame in the four-frame strip. */
  function SourceX(frame: int): (sx: int)
    ensures frame >= 0 ==> sx in {0, 32, 64, 96}
    ensures frame >= 0 ==> sx == (frame % FramesWidth) * PlayerWidth
  {
    Rem(frame, FramesWidth) * PlayerWidth
  }

  /** What `Draw` copies: the frame's region of the strip to the player's
      integer position, mirrored when facing right. */
  datatype Blit = Blit(src: Rect, dst: Rect, mirrored: bool)

  class Player {
    var facing: Facing
    var anim: Animation
    var wx: real
    var wy: real
    var dx: real
    var dy: real
    var ddx: real
    var ddy: real
    var x: int
    var y: int
    var frame: int
    var lastUpdate: int

    /** A new player (all fields at Go's zero values) stands still, facing
        left, before its first tick. */
    constructor ()
      ensures State() == Motion(Left, Standing, 0.0, 0.0, 0.0, 0.0, 0.0, 0.0)
      ensures Consistent(State())
      ensures x == 0 && y == 0 && frame == 0 && lastUpdate == 0
    {
      facing, anim := Left, Standing;
      wx, wy, dx, dy, ddx, ddy := 0.0, 0.0, 0.0, 0.0, 0.0, 0.0;
      x, y := 0, 0;
      frame, lastUpdate := 0, 0;
    }

    ghost function State(): Motion
      reads this
    {
      Motion(facing, anim, wx, wy, dx, dy, ddx, ddy)
    }

    /** One controller command of the life loop. Quit ends the loop and
        changes nothing; every other command is applied with its guard. */
    method Apply(c: Control) returns (stop: bool)
      modifies this
      ensures stop <==> c == Quit
      ensures State() == if stop then old(State()) else Command(old(State()), c)
      ensures x == old(x) && y == old(y) && frame == old(frame) && lastUpdate == old(lastUpdate)
    {
      stop := false;
      match c {
        case Quit =>
          stop := true;
        case StartWalkLeft =>
          if anim == Standing || anim == Walking {
            anim := Walking;
            facing := Left;
            wx := -WalkSpeed;
          }
        case StopWalkLeft =>
          if anim == Walking {
            anim := Standing;
            wx := 0.0;
          }
        case StartWalkRight =>
          if anim == Standing || anim == Walking {
            anim := Walking;
            facing := Right;
            wx := WalkSpeed;
          }
        case StopWalkRight =>
          if anim == Walking {
            anim := Standing;
            wx := 0.0;
          }
        case StartJump =>
          if anim == Standing || anim == Walking {
            anim := Jumping;
          }
        case StopJump =>
          if anim == Jumping {
            anim := Falling;
            dy := JumpSpeed;
            ddy := Gravity;
          }
        case Land =>
          if anim == Falling {
            anim := Standing;
            dy := 0.0;
            ddy := 0.0;
          }
        case _ =>
      }
    }

    /** A clock tick at time `t`. The first tick only records `t`. Later
        ones select the frame (cycling while Walking, 0 otherwise), move the
        velocity and the position, and record `t`; the velocity and position
        updates work on floating point and are left unconstrained here. A
        tick never changes the animation, the facing, the desired velocity or
        the acceleration, so it keeps the state consistent. */
    method Update(t: int)
      modifies this
      ensures facing == old(facing) && anim == old(anim) && wx == old(wx) && wy == old(wy)
      ensures ddx == old(ddx) && ddy == old(ddy)
      ensures Consistent(old(State())) ==> Consistent(State())
      ensures old(lastUpdate) == 0 ==>
                State() == old(State()) && x == old(x) && y == old(y) &&
                frame == old(frame) && lastUpdate == t
      ensures old(lastUpdate) != 0 ==>
                frame == (if anim == Walking then WalkFrame(t) else 0) && lastUpdate == t
    {
      if lastUpdate == 0 {
        lastUpdate := t;
        return;
      }
      match anim {
        case Walking =>
          frame := WalkFrame(t);
        case _ =>
          frame := 0;
      }
      lastUpdate := t;
    }

    /** What `Draw` copies to the renderer. */
    function Draw(): (b: Blit)
      reads this
      ensures b.mirrored <==> facing == Right
      ensures b.dst == Rect(x, y, PlayerWidth, PlayerHeight)
      ensures frame >= 0 ==> 0 <= b.src.X && b.src.X + b.src.W <= FramesWidth * PlayerWidth
    {
      Blit(Rect(SourceX(frame), 0, PlayerWidth, PlayerHeight),
           Rect(x, y, PlayerWidth, PlayerHeight),
           facing == Right)
    }
  }
}
