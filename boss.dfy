/** The boss: dormant, then an intro descent, then patrol with a sine bob, and
    the classification of its contact with the player (src/game/boss.ts). */
module Bosses {
  import opened Constants
  import opened Geometry
  import opened Players

  /** The intro sub-state: while active the boss descends and cannot be hit. */
  datatype IntroState = IntroState(active: bool, timer: int)

  datatype BossState = BossState(
    active: bool,
    x: real, y: real, w: real, h: real,
    vx: real,
    hp: int,
    floatPhase: real,
    intro: IntroState)

  /** Which of the two callbacks `updateBoss` invokes, if any: `onHit` for a
      stomp, `onPlayerKilled` for any other contact. */
  datatype Contact = NoContact | Stomp | Kill

  /** The boss, the camera shake and the callback a call of `updateBoss` produces. */
  datatype Outcome = Outcome(boss: BossState, shake: real, contact: Contact)

  const MaxHp: int := 3
  const RestY: real := 260.0
  const IntroFrames: int := 90
  const IntroShake: real := 6.0
  const SpawnTime: int := 15

  /** What `createBoss` builds. */
  const Fresh: BossState := BossState(false, 200.0, 260.0, 44.0, 52.0, 2.4, 3, 0.0, IntroState(false, 0))

  /** What the engine keeps true of its boss: hp within 0..3 and positive while
      active; an intro only on an active boss, with 1..90 frames left. */
  predicate ValidBoss(b: BossState) {
    && 0 <= b.hp <= MaxHp
    && (b.active ==> b.hp >= 1)
    && (b.intro.active ==> b.active && 1 <= b.intro.timer <= IntroFrames)
  }

  /** The effect of `startBossIntro` on the boss (the camera shake becomes 6). */
  function Started(b: BossState): BossState {
    b.(active := true, hp := MaxHp, x := LogicWidth / 2.0 - b.w / 2.0, y := -120.0, vx := 2.4,
       floatPhase := 0.0, intro := IntroState(true, IntroFrames))
  }

  /** The guard of `maybeSpawnBoss`. */
  predicate ShouldSpawn(b: BossState, timeLeft: int) {
    !b.active && !b.intro.active && timeLeft <= SpawnTime
  }

  function Spawned(b: BossState, timeLeft: int): BossState {
    if ShouldSpawn(b, timeLeft) then Started(b) else b
  }

  /** The boss is in patrol: active and past its intro. */
  predicate Patrolling(b: BossState) {
    b.active && !b.intro.active
  }

  /** A contact is a stomp when the player moves down and its bottom is at most
      16 units below the boss's top. */
  predicate IsStomp(p: PlayerState, b: BossState) {
    p.vy > 0.0 && p.y + p.h <= b.y + 16.0
  }

  function Classify(p: PlayerState, b: BossState): Contact {
    if !RectsOverlap(Point(p.x, p.y), Point(b.x, b.y), p.w, p.h, b.w, b.h) then NoContact
    else if IsStomp(p, b) then Stomp
    else Kill
  }

  /** One call of `updateBoss`; `sin` stands for Math.sin. */
  function Advance(b: BossState, dt: real, p: PlayerState, shake: real, sin: real -> real): Outcome {
    if b.intro.active then
      var timer := b.intro.timer - 1;
      var y := b.y + 2.2 * dt;
      if y >= RestY || timer <= 0 then Outcome(b.(y := RestY, intro := IntroState(false, timer)), 0.0, NoContact)
      else Outcome(b.(y := y, intro := IntroState(true, timer)), IntroShake, NoContact)
    else if !b.active then Outcome(b, shake, NoContact)
    else
      var phase := b.floatPhase + 0.06 * dt;
      var x := b.x + b.vx * dt;
      var bounce := x < 20.0 || x + b.w > LogicWidth - 20.0;
      var b1 := b.(floatPhase := phase, y := RestY + sin(phase) * 60.0, x := x,
                   vx := if bounce then -b.vx else b.vx);
      Outcome(b1, shake, Classify(p, b1))
  }

  /** `createBoss` gives a dormant boss with full hp. */
  lemma FreshIsDormant()
    ensures !Fresh.active && !Fresh.intro.active && Fresh.hp == MaxHp && ValidBoss(Fresh)
  {
  }

  /** `startBossIntro`: active, in intro for 90 frames, full hp, above the
      arena and horizontally centred, moving right at 2.4. */
  lemma StartedShape(b: BossState)
    ensures var s := Started(b);
      && s.active && s.intro.active && s.intro.timer == IntroFrames && s.hp == MaxHp
      && s.y == -120.0 && s.x + s.w / 2.0 == LogicWidth / 2.0 && s.vx == 2.4
      && s.w == b.w && s.h == b.h && ValidBoss(s)
  {
  }

  /** The spawn gate: the intro starts exactly when the boss is neither active
      nor introducing and at most 15 time units are left; otherwise nothing
      changes. */
  lemma SpawnGate(b: BossState, timeLeft: int)
    ensures var s := Spawned(b, timeLeft);
      && (!b.intro.active && s.intro.active <==> !b.active && !b.intro.active && timeLeft <= SpawnTime)
      && (!ShouldSpawn(b, timeLeft) ==> s == b)
  {
  }

  /** A defeated boss is not terminal: the next spawn check with time at most 15
      restarts the intro at full hp. */
  lemma DefeatedBossRespawns(b: BossState, timeLeft: int)
    requires !b.active && !b.intro.active && b.hp <= 0 && timeLeft <= SpawnTime
    ensures var s := Spawned(b, timeLeft); s.active && s.intro.active && s.hp == MaxHp
  {
  }

  /** During the intro a call counts the timer down by one, fires no callback,
      and either descends by 2.2*dt with the shake held at 6, or ends. */
  lemma IntroStep(b: BossState, dt: real, p: PlayerState, shake: real, sin: real -> real)
    requires b.intro.active
    ensures var o := Advance(b, dt, p, shake, sin);
      && o.contact == NoContact
      && o.boss.intro.timer == b.intro.timer - 1
      && o.boss.active == b.active && o.boss.hp == b.hp && o.boss.x == b.x
      && (o.boss.intro.active ==> o.boss.y == b.y + 2.2 * dt && o.shake == IntroShake)
  {
  }

  /** The intro ends exactly when the boss reaches its rest height or the timer
      runs out; it then sits at y = 260 with the camera shake reset to 0, and
      stays active. */
  lemma IntroEnd(b: BossState, dt: real, p: PlayerState, shake: real, sin: real -> real)
    requires b.intro.active
    ensures var o := Advance(b, dt, p, shake, sin);
      && (!o.boss.intro.active <==> b.y + 2.2 * dt >= RestY || b.intro.timer - 1 <= 0)
      && (!o.boss.intro.active ==> o.boss.y == RestY && o.shake == 0.0 && o.boss.active == b.active)
  {
  }

  /** A dormant boss stays as it is and fires nothing. */
  lemma DormantIdle(b: BossState, dt: real, p: PlayerState, shake: real, sin: real -> real)
    requires !b.active && !b.intro.active
    ensures Advance(b, dt, p, shake, sin) == Outcome(b, shake, NoContact)
  {
  }

  /** While patrolling the boss turns round at the walls (20 units of margin):
      vx is negated exactly when the moved boss is past a margin, and its speed
      never changes. */
  lemma PatrolBounce(b: BossState, dt: real, p: PlayerState, shake: real, sin: real -> real)
    requires Patrolling(b)
    ensures var o := Advance(b, dt, p, shake, sin);
      && o.boss.x == b.x + b.vx * dt
      && (o.boss.vx == -b.vx || o.boss.vx == b.vx)
      && (o.boss.x < 20.0 || o.boss.x + o.boss.w > LogicWidth - 20.0 ==> o.boss.vx == -b.vx)
      && (!(o.boss.x < 20.0 || o.boss.x + o.boss.w > LogicWidth - 20.0) ==> o.boss.vx == b.vx)
      && o.shake == shake
  {
  }

  ghost predicate SineBounded(sin: real -> real) {
    forall t :: -1.0 <= sin(t) <= 1.0
  }

  /** With a sine in [-1, 1], the patrolling boss bobs within 60 units of its rest height. */
  lemma PatrolBob(b: BossState, dt: real, p: PlayerState, shake: real, sin: real -> real)
    requires Patrolling(b) && SineBounded(sin)
    ensures var y := Advance(b, dt, p, shake, sin).boss.y; RestY - 60.0 <= y <= RestY + 60.0
  {
    var s := sin(b.floatPhase + 0.06 * dt);
    assert -1.0 <= s <= 1.0;
  }

  /** `updateBoss` never changes hp. A callback fires only in patrol and only on
      overlap: `onHit` iff the player moves down with its bottom at most 16
      below the boss top, `onPlayerKilled` otherwise. */
  lemma ContactClassification(b: BossState, dt: real, p: PlayerState, shake: real, sin: real -> real)
    ensures var o := Advance(b, dt, p, shake, sin);
      var ov := RectsOverlap(Point(p.x, p.y), Point(o.boss.x, o.boss.y), p.w, p.h, o.boss.w, o.boss.h);
      && o.boss.hp == b.hp
      && (o.contact == Stomp <==> Patrolling(b) && ov && IsStomp(p, o.boss))
      && (o.contact == Kill <==> Patrolling(b) && ov && !IsStomp(p, o.boss))
      && (o.contact != NoContact ==> Patrolling(o.boss))
  {
  }

  /** `updateBoss` keeps the boss invariant. */
  lemma AdvanceKeepsValid(b: BossState, dt: real, p: PlayerState, shake: real, sin: real -> real)
    requires ValidBoss(b)
    ensures ValidBoss(Advance(b, dt, p, shake, sin).boss)
  {
  }

  /** Successive calls of `updateBoss`, one per element of dts, with the player held still. */
  function Run(b: BossState, dts: seq<real>, p: PlayerState, sin: real -> real): BossState
    decreases |dts|
  {
    if dts == [] then b else Run(Advance(b, dts[0], p, 0.0, sin).boss, dts[1..], p, sin)
  }

  /** Whatever the frame times, an intro with n frames on its timer is over
      after max(n, 1) calls, and no call restarts an intro. */
  lemma {:induction false} IntroEndsWithin(b: BossState, dts: seq<real>, p: PlayerState, sin: real -> real)
    requires |dts| >= 1 && |dts| >= b.intro.timer
    ensures !Run(b, dts, p, sin).intro.active
    decreases |dts|
  {
    var next := Advance(b, dts[0], p, 0.0, sin).boss;
    if !next.intro.active {
      IntroStaysOver(next, dts[1..], p, sin);
    } else {
      IntroEndsWithin(next, dts[1..], p, sin);
    }
  }

  lemma {:induction false} IntroStaysOver(b: BossState, dts: seq<real>, p: PlayerState, sin: real -> real)
    requires !b.intro.active
    ensures !Run(b, dts, p, sin).intro.active
    decreases |dts|
  {
    if dts != [] {
      IntroStaysOver(Advance(b, dts[0], p, 0.0, sin).boss, dts[1..], p, sin);
    }
  }

  /** So the intro that `startBossIntro` begins lasts at most 90 calls. */
  lemma IntroLastsAtMost90(b: BossState, dts: seq<real>, p: PlayerState, sin: real -> real)
    requires |dts| >= IntroFrames
    ensures !Run(Started(b), dts, p, sin).intro.active
  {
    IntroEndsWithin(Started(b), dts, p, sin);
  }

  class Boss {
    var active: bool
    var x: real
    var y: real
    var w: real
    var h: real
    var vx: real
    var hp: int
    var floatPhase: real
    var intro: IntroState

    function State(): BossState
      reads this
    {
      BossState(active, x, y, w, h, vx, hp, floatPhase, intro)
    }

    /** `createBoss`. */
    constructor ()
      ensures State() == Fresh
      ensures !active && !intro.active && hp == MaxHp
    {
      active := false;
      x, y, w, h := 200.0, 260.0, 44.0, 52.0;
      vx := 2.4;
      hp := 3;
      floatPhase := 0.0;
      intro := IntroState(false, 0);
    }

    /** `createBoss`, applied to this object: every field back to its start value. */
    method Recreate()
      modifies this
      ensures State() == Fresh
    {
      active := false;
      x, y, w, h := 200.0, 260.0, 44.0, 52.0;
      vx := 2.4;
      hp := 3;
      floatPhase := 0.0;
      intro := IntroState(false, 0);
    }

    /** `startBossIntro`; the result is the new camera shake. */
    method StartIntro() returns (shake: real)
      modifies this
      ensures State() == Started(old(State()))
      ensures shake == IntroShake
    {
      active := true;
      hp := 3;
      x := LogicWidth / 2.0 - w / 2.0;
      y := -120.0;
      vx := 2.4;
      floatPhase := 0.0;
      intro := intro.(active := true);
      intro := intro.(timer := 90);
      shake := 6.0;
    }

    /** `maybeSpawnBoss`: takes the time left and the camera shake, returns the
        new camera shake. */
    method MaybeSpawn(timeLeft: int, shake: real) returns (shake': real)
      modifies this
      ensures State() == Spawned(old(State()), timeLeft)
      ensures shake' == if ShouldSpawn(old(State()), timeLeft) then IntroShake else shake
    {
      shake' := shake;
      if !active && !intro.active && timeLeft <= 15 {
        shake' := StartIntro();
      }
    }

    /** `updateBoss`: the callback it would invoke is returned as `contact`. */
    method Update(dt: real, p: PlayerState, shake: real, sin: real -> real) returns (shake': real, contact: Contact)
      modifies this
      ensures Outcome(State(), shake', contact) == Advance(old(State()), dt, p, shake, sin)
    {
      shake' := shake;
      contact := NoContact;
      if intro.active {
        intro := intro.(timer := intro.timer - 1);
        shake' := 6.0;
        y := y + 2.2 * dt;
        if y >= 260.0 || intro.timer <= 0 {
          y := 260.0;
          intro := intro.(active := false);
          shake' := 0.0;
        }
        return;
      }

      if !active {
        return;
      }

      floatPhase := floatPhase + 0.06 * dt;
      y := 260.0 + sin(floatPhase) * 60.0;
      x := x + vx * dt;
      if x < 20.0 || x + w > LogicWidth - 20.0 {
        vx := vx * -1.0;
      }

      if RectsOverlap(Point(p.x, p.y), Point(x, y), p.w, p.h, w, h) {
        var playerBottom := p.y + p.h;
        var bossTop := y;
        var isStomp := p.vy > 0.0 && playerBottom <= bossTop + 16.0;
        if isStomp {
          contact := Stomp;
          return;
        }
        contact := Kill;
      }
    }
  }
}
