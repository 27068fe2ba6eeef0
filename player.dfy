/** The player: input to velocity, semi-implicit gravity integration, the
    arena clamps, one-way platform landing and the fall-death check
    (src/game/player.ts). */
module Players {
  import opened Constants
  import opened Geometry

  /** A snapshot of the player's fields. `facing` is +1 (right) or -1 (left). */
  datatype PlayerState = PlayerState(
    x: real, y: real, w: real, h: real,
    vx: real, vy: real,
    onGround: bool,
    facing: int)

  /** The on-screen touch pad. */
  datatype Touch = Touch(right: bool, left: bool, jump: bool)

  /** The state `createPlayer` builds and `resetPlayer` restores. */
  const Start: PlayerState := PlayerState(260.0, 780.0, 28.0, 36.0, 0.0, 0.0, false, 1)

  /** What every player the game creates satisfies: fixed size, a facing of
      +1 or -1, and a horizontal extent inside the arena. */
  predicate ValidPlayer(p: PlayerState) {
    && p.w == 28.0 && p.h == 36.0
    && (p.facing == 1 || p.facing == -1)
    && 0.0 <= p.x && p.x + p.w <= LogicWidth
  }

  // ---------------------------------------------------------------- input

  /** A key counts as held when the key map says so; a key never seen is up. */
  predicate Held(keys: map<string, bool>, k: string) {
    k in keys && keys[k]
  }

  predicate RightHeld(keys: map<string, bool>, touch: Touch) {
    Held(keys, "arrowright") || Held(keys, "d") || touch.right
  }

  predicate LeftHeld(keys: map<string, bool>, touch: Touch) {
    Held(keys, "arrowleft") || Held(keys, "q") || touch.left
  }

  predicate JumpHeld(keys: map<string, bool>, touch: Touch) {
    Held(keys, "arrowup") || Held(keys, "z") || Held(keys, "w") || Held(keys, " ") || touch.jump
  }

  /** +1 for right, -1 for left, 0 for neither or both. */
  function Move(keys: map<string, bool>, touch: Touch): int {
    (if RightHeld(keys, touch) then 1 else 0) - (if LeftHeld(keys, touch) then 1 else 0)
  }

  /** The effect of `handlePlayerInput` on the player. */
  function Steer(p: PlayerState, keys: map<string, bool>, touch: Touch): PlayerState {
    var move := Move(keys, touch);
    var p1 := p.(vx := move as real * MoveSpeed, facing := if move != 0 then move else p.facing);
    if JumpHeld(keys, touch) && p1.onGround then p1.(vy := JumpForce, onGround := false) else p1
  }

  lemma SteerVelocity(p: PlayerState, keys: map<string, bool>, touch: Touch)
    ensures var vx := Steer(p, keys, touch).vx;
      && (vx == MoveSpeed || vx == 0.0 || vx == -MoveSpeed)
      && (vx == MoveSpeed <==> RightHeld(keys, touch) && !LeftHeld(keys, touch))
      && (vx == -MoveSpeed <==> LeftHeld(keys, touch) && !RightHeld(keys, touch))
      && (RightHeld(keys, touch) && LeftHeld(keys, touch) ==> vx == 0.0)
  {
  }

  lemma SteerFacing(p: PlayerState, keys: map<string, bool>, touch: Touch)
    ensures var q := Steer(p, keys, touch);
      && (q.facing != p.facing ==> q.facing == Move(keys, touch) && Move(keys, touch) != 0)
      && (Move(keys, touch) != 0 ==> q.facing == Move(keys, touch))
      && ((p.facing == 1 || p.facing == -1) ==> (q.facing == 1 || q.facing == -1))
  {
  }

  /** A jump fires only from the ground; otherwise vy and onGround are left
      alone. Position and size are never touched by input. */
  lemma SteerJump(p: PlayerState, keys: map<string, bool>, touch: Touch)
    ensures var q := Steer(p, keys, touch);
      && q.x == p.x && q.y == p.y && q.w == p.w && q.h == p.h
      && (JumpHeld(keys, touch) && p.onGround ==> q.vy == JumpForce && !q.onGround)
      && (!(JumpHeld(keys, touch) && p.onGround) ==> q.vy == p.vy && q.onGround == p.onGround)
  {
  }

  // ---------------------------------------------------------------- physics

  /** Semi-implicit Euler: gravity first changes vy, then the new velocity moves
      the player; onGround is cleared before the platforms are tested. */
  function Integrate(p: PlayerState, dt: real): PlayerState {
    var vy := p.vy + Gravity * dt;
    p.(vy := vy, x := p.x + p.vx * dt, y := p.y + vy * dt, onGround := false)
  }

  /** The horizontal clamp: left edge first, then right edge; vx is kept. */
  function ClampX(p: PlayerState): PlayerState {
    var p1 := if p.x < 0.0 then p.(x := 0.0) else p;
    if p1.x + p1.w > LogicWidth then p1.(x := LogicWidth - p1.w) else p1
  }

  /** The ceiling clamp: y stops at 0 and an upward vy is cleared. */
  function ClampTop(p: PlayerState): PlayerState {
    if p.y < 0.0 then p.(y := 0.0, vy := if p.vy < 0.0 then 0.0 else p.vy) else p
  }

  /** The player's extent overlaps the platform with 2 units of inset on each side. */
  predicate WithinX(p: PlayerState, plat: Platform) {
    p.x + p.w > plat.x + 2.0 && p.x < plat.x + plat.w - 2.0
  }

  /** The bottom edge crossed the platform top downwards since the frame started at prevY. */
  predicate Lands(p: PlayerState, prevY: real, plat: Platform) {
    WithinX(p, plat) && prevY + p.h <= plat.y && p.y + p.h >= plat.y
  }

  function LandOn(p: PlayerState, prevY: real, plat: Platform): PlayerState {
    if Lands(p, prevY, plat) then p.(y := plat.y - p.h, vy := 0.0, onGround := true) else p
  }

  /** The platform loop: each platform in turn, tested against the player as the
      previous ones left it. */
  function LandAll(p: PlayerState, prevY: real, ps: seq<Platform>): PlayerState
    decreases |ps|
  {
    if ps == [] then p else LandOn(LandAll(p, prevY, ps[..|ps| - 1]), prevY, ps[|ps| - 1])
  }

  /** The whole of `updatePlayer` on the player's fields. */
  function Step(p: PlayerState, dt: real): PlayerState {
    LandAll(ClampTop(ClampX(Integrate(p, dt))), p.y, Platforms)
  }

  /** On mobile the player may fall 64 units further before dying. */
  function SafeGroundMargin(isMobile: bool): real {
    if isMobile then 64.0 else 0.0
  }

  predicate FellOut(p: PlayerState, isMobile: bool) {
    p.y > LogicHeight + 40.0 - SafeGroundMargin(isMobile)
  }

  /** The platform loop keeps x, size, vx and facing and never moves the player
      down; it either changes nothing or lands the player on the top of a
      platform that the unlanded player crossed; and any crossing at all ends
      with onGround set. */
  lemma {:induction false} LandAllEffect(q: PlayerState, prevY: real, ps: seq<Platform>)
    ensures var r := LandAll(q, prevY, ps);
      && r.x == q.x && r.w == q.w && r.h == q.h && r.vx == q.vx && r.facing == q.facing
      && r.y <= q.y
      && (q.onGround ==> r.onGround)
      && (r == q || (r.onGround && r.vy == 0.0 &&
                     exists k :: 0 <= k < |ps| && Lands(q, prevY, ps[k]) && r.y + r.h == ps[k].y))
      && ((exists k :: 0 <= k < |ps| && Lands(q, prevY, ps[k])) ==> r.onGround)
  {
    if ps != [] {
      var init := ps[..|ps| - 1];
      var last := ps[|ps| - 1];
      LandAllEffect(q, prevY, init);
      var r' := LandAll(q, prevY, init);
      var r := LandOn(r', prevY, last);
      assert r == LandAll(q, prevY, ps);
      if Lands(r', prevY, last) {
        assert Lands(q, prevY, ps[|ps| - 1]);
      } else if r' != q {
        var k :| 0 <= k < |init| && Lands(q, prevY, init[k]) && r'.y + r'.h == init[k].y;
        assert ps[k] == init[k];
      }
      if exists k :: 0 <= k < |ps| && Lands(q, prevY, ps[k]) {
        var k :| 0 <= k < |ps| && Lands(q, prevY, ps[k]);
        if k < |init| {
          assert init[k] == ps[k];
        }
      }
    }
  }

  /** After an update the player is inside the arena horizontally, and the
      clamp never touches vx. */
  lemma StepStaysInArena(p: PlayerState, dt: real)
    requires 0.0 <= p.w <= LogicWidth
    ensures var r := Step(p, dt);
      0.0 <= r.x && r.x + r.w <= LogicWidth && r.vx == p.vx && r.w == p.w && r.h == p.h
  {
    LandAllEffect(ClampTop(ClampX(Integrate(p, dt))), p.y, Platforms);
  }

  /** An update keeps a valid player valid. */
  lemma StepKeepsValid(p: PlayerState, dt: real)
    requires ValidPlayer(p)
    ensures ValidPlayer(Step(p, dt))
  {
    LandAllEffect(ClampTop(ClampX(Integrate(p, dt))), p.y, Platforms);
  }

  lemma SteerKeepsValid(p: PlayerState, keys: map<string, bool>, touch: Touch)
    requires ValidPlayer(p)
    ensures ValidPlayer(Steer(p, keys, touch))
  {
  }

  /** The player lands iff, after integration and clamping, its bottom crossed
      some platform top within the inset; landing leaves vy = 0 and the bottom
      on the top of such a platform. */
  lemma StepLanding(p: PlayerState, dt: real)
    ensures var q := ClampTop(ClampX(Integrate(p, dt)));
      var r := Step(p, dt);
      && (r.onGround <==> exists k :: 0 <= k < |Platforms| && Lands(q, p.y, Platforms[k]))
      && (r.onGround ==>
            (r.vy == 0.0 &&
             exists k :: 0 <= k < |Platforms| && Lands(q, p.y, Platforms[k]) && r.y + r.h == Platforms[k].y))
      && (!r.onGround ==> r == q)
  {
    LandAllEffect(ClampTop(ClampX(Integrate(p, dt))), p.y, Platforms);
  }

  lemma PlatformsBelowTop(k: int)
    requires 0 <= k < |Platforms|
    ensures Platforms[k].y >= HighestPlatformTop
  {
  }

  /** Hitting the ceiling: y becomes 0, an upward vy becomes 0, and (for a
      player shorter than the gap above the highest platform) nothing lands. */
  lemma StepCeiling(p: PlayerState, dt: real)
    requires Integrate(p, dt).y < 0.0
    requires 0.0 < p.h < HighestPlatformTop
    ensures var vy := p.vy + Gravity * dt;
      var r := Step(p, dt);
      r.y == 0.0 && r.vy == (if vy < 0.0 then 0.0 else vy) && !r.onGround
  {
    var q := ClampTop(ClampX(Integrate(p, dt)));
    forall k | 0 <= k < |Platforms| ensures !Lands(q, p.y, Platforms[k]) {
      PlatformsBelowTop(k);
    }
    LandAllEffect(q, p.y, Platforms);
  }

  /** Away from walls, ceiling and platforms the motion is semi-implicit Euler:
      the position moves by the velocity already updated by gravity, so y gains
      G*dt*dt on top of vy*dt (explicit Euler would not). */
  lemma StepSemiImplicit(p: PlayerState, dt: real)
    requires var q := Integrate(p, dt); 0.0 <= q.x && q.x + q.w <= LogicWidth && q.y >= 0.0
    requires forall k :: 0 <= k < |Platforms| ==> !Lands(Integrate(p, dt), p.y, Platforms[k])
    ensures var r := Step(p, dt);
      && r.vy == p.vy + Gravity * dt
      && r.x == p.x + p.vx * dt
      && r.y == p.y + p.vy * dt + Gravity * dt * dt
      && !r.onGround
  {
    var q := Integrate(p, dt);
    assert ClampTop(ClampX(q)) == q;
    LandAllEffect(q, p.y, Platforms);
  }

  /** `playerCollidesWith`: the overlap test between the player's box and an
      object's box. */
  predicate CollidesWith(p: PlayerState, x: real, y: real, w: real, h: real) {
    RectsOverlap(Point(p.x, p.y), Point(x, y), p.w, p.h, w, h)
  }

  /** For boxes of positive size, the player collides with an object iff the
      two boxes share an interior point. */
  lemma CollisionIsCommonInteriorPoint(p: PlayerState, x: real, y: real, w: real, h: real)
    requires p.w > 0.0 && p.h > 0.0 && w > 0.0 && h > 0.0
    ensures CollidesWith(p, x, y, w, h) <==>
            exists pt: Point :: Inside(pt, Point(p.x, p.y), p.w, p.h) && Inside(pt, Point(x, y), w, h)
  {
    OverlapIffCommonInteriorPoint(Point(p.x, p.y), Point(x, y), p.w, p.h, w, h);
  }

  /** The session's death flag (`gameState.flags`), shared with the engine. */
  class Flags {
    var dead: bool

    constructor ()
      ensures !dead
    {
      dead := false;
    }
  }

  class Player {
    var x: real
    var y: real
    var w: real
    var h: real
    var vx: real
    var vy: real
    var onGround: bool
    var facing: int

    function State(): PlayerState
      reads this
    {
      PlayerState(x, y, w, h, vx, vy, onGround, facing)
    }

    ghost predicate Valid()
      reads this
    {
      ValidPlayer(State())
    }

    /** `createPlayer`. */
    constructor ()
      ensures State() == Start && Valid()
    {
      x, y, w, h := 260.0, 780.0, 28.0, 36.0;
      vx, vy := 0.0, 0.0;
      onGround := false;
      facing := 1;
    }

    /** `resetPlayer`: everything but the size goes back to the start values. */
    method Reset()
      requires Valid()
      modifies this
      ensures Valid()
      ensures State() == Start.(w := old(w), h := old(h))
    {
      x := 260.0;
      y := 780.0;
      vx := 0.0;
      vy := 0.0;
      onGround := false;
      facing := 1;
    }

    /** `handlePlayerInput`. */
    method HandleInput(keys: map<string, bool>, touch: Touch)
      requires Valid()
      modifies this
      ensures Valid()
      ensures State() == Steer(old(State()), keys, touch)
    {
      var move := 0;
      if Held(keys, "arrowright") || Held(keys, "d") || touch.right {
        move := move + 1;
      }
      if Held(keys, "arrowleft") || Held(keys, "q") || touch.left {
        move := move - 1;
      }
      vx := move as real * MoveSpeed;
      if move != 0 {
        facing := move;
      }
      var jumpPressed := Held(keys, "arrowup") || Held(keys, "z") || Held(keys, "w") || Held(keys, " ") || touch.jump;
      if jumpPressed && onGround {
        vy := JumpForce;
        onGround := false;
      }
      SteerKeepsValid(old(State()), keys, touch);
    }

    /** The platform loop of `updatePlayer`, against the y the frame started at. */
    method LandOnPlatforms(prevY: real)
      modifies this
      ensures State() == LandAll(old(State()), prevY, Platforms)
    {
      ghost var q := State();
      var ps := Platforms;
      for i := 0 to |ps|
        invariant State() == LandAll(q, prevY, ps[..i])
      {
        var p := ps[i];
        var prevBottom := prevY + h;
        var currBottom := y + h;
        var withinX := x + w > p.x + 2.0 && x < p.x + p.w - 2.0;
        if withinX && prevBottom <= p.y && currBottom >= p.y {
          y := p.y - h;
          vy := 0.0;
          onGround := true;
        }
        assert ps[..i + 1][..i] == ps[..i];
      }
      assert ps[..|ps|] == ps;
    }

    /** `updatePlayer`: integrate, clamp, land on platforms in list order, then
        raise the death flag if the player fell out; the flag is never cleared. */
    method Update(dt: real, isMobile: bool, flags: Flags)
      requires Valid()
      modifies this, flags
      ensures Valid()
      ensures State() == Step(old(State()), dt)
      ensures flags.dead == (old(flags.dead) || FellOut(State(), isMobile))
    {
      ghost var p0 := State();
      var prevY := y;
      vy := vy + Gravity * dt;
      x := x + vx * dt;
      y := y + vy * dt;
      onGround := false;
      assert State() == Integrate(p0, dt);

      if x < 0.0 {
        x := 0.0;
      }
      if x + w > LogicWidth {
        x := LogicWidth - w;
      }
      assert State() == ClampX(Integrate(p0, dt));

      if y < 0.0 {
        y := 0.0;
        if vy < 0.0 {
          vy := 0.0;
        }
      }
      assert State() == ClampTop(ClampX(Integrate(p0, dt)));

      LandOnPlatforms(prevY);
      StepKeepsValid(p0, dt);

      if y > LogicHeight + 40.0 - SafeGroundMargin(isMobile) {
        flags.dead := true;
      }
    }
  }
}
