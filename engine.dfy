/** The game session (src/game/engine.ts): the boot, intro, play and end
    states, the three interval callbacks, the per-frame update with its gift,
    gremlin and boss bookkeeping, and the end-of-session scoring.

    `Session` is the value of every field the session owns except the particle
    lists; each operation of the engine is a function on it, and each method
    of `Game` is proved to change its fields as that function says. */
module Engine {
  import opened Constants
  import opened Geometry
  import opened Players
  import opened Bosses
  import opened Particles
  import opened EngineRules

  datatype Phase = Boot | Intro | Play | End

  datatype Option<T> = None | Some(value: T)

  datatype Session = Session(
    state: Phase,
    timeLeft: int,
    selectedDuration: int,
    score: int,
    bestScore: int,
    won: bool,
    bossDefeated: bool,
    boss: BossState,
    player: PlayerState,
    gifts: seq<Faller>,
    gremlins: seq<Faller>,
    cameraShake: real,
    slowMotionTimer: int,
    isMobile: bool,
    dead: bool,
    firstBoot: bool,
    bootTimer: int,
    anecdotesUnlocked: int,
    leaderboard: seq<Entry>)

  /** What one frame reads from outside: the normalised frame time, the clock
      (Date.now), the key map, the touch pad, and Math.sin. */
  datatype Inputs = Inputs(dt: real, now: int, keys: map<string, bool>, touch: Touch, sin: real -> real)

  const BootDurationFrames: int := 260
  const SlowMotionFrames: int := 12
  const HitShake: real := 10.0
  const BounceVy: real := -18.0
  const GiftBurst: nat := 14

  /** One burst's worth of random draws for each of n gifts: the draws
      `spawnParticles` would take if that gift were caught this frame. */
  predicate GiftDrawsFit(draws: seq<seq<(Unit, Unit)>>, n: int) {
    |draws| == n && forall k :: 0 <= k < |draws| ==> |draws[k]| == GiftBurst
  }
  const HitBurst: nat := 20

  /** The state `createGameEngine` builds. */
  const Initial: Session := Session(Intro, 45, 45, 0, 0, false, false, Fresh, Start, [], [], 0.0, 0, false,
                                    false, true, 0, 0, [])

  /** What every session keeps true. */
  predicate ValidSession(s: Session) {
    && ValidPlayer(s.player)
    && ValidBoss(s.boss)
    && 0 <= s.anecdotesUnlocked <= |Thresholds|
    && 0 <= s.slowMotionTimer <= SlowMotionFrames
    && (s.state == Play ==> !s.dead)
  }

  function Max(a: int, b: int): int {
    if a < b then b else a
  }

  // ---------------------------------------------------------------- transitions

  /** `boot`: the parsed stored leaderboard (if any) replaces the board as it
      is, neither sorted nor capped, and its first score becomes the best
      score; then the one-time boot animation, or straight to the intro. */
  function Booted(s: Session, stored: Option<seq<Entry>>): Session {
    var s1 := if stored.Some? then
                s.(leaderboard := stored.value,
                   bestScore := if |stored.value| > 0 then stored.value[0].score else 0)
              else s;
    if s1.firstBoot then s1.(state := Boot, bootTimer := BootDurationFrames) else s1.(state := Intro)
  }

  /** `startGame` (with `resetPlayer` and `resetEntities`). */
  function Begin(s: Session): Session {
    s.(score := 0, timeLeft := s.selectedDuration, won := false, bossDefeated := false, anecdotesUnlocked := 0,
       player := Start.(w := s.player.w, h := s.player.h),
       gifts := [], gremlins := [], boss := Fresh, cameraShake := 0.0, dead := false, slowMotionTimer := 0,
       state := Play)
  }

  /** `endGame`: only from play. */
  function Ended(s: Session, timeOverWon: bool, now: int): Session {
    if s.state != Play then s
    else s.(won := timeOverWon && s.score > 0, state := End, bestScore := Max(s.bestScore, s.score),
            anecdotesUnlocked := Unlocked(s.score), leaderboard := Inserted(s.leaderboard, Entry(s.score, now)),
            cameraShake := 0.0)
  }

  /** The one-second countdown callback. It ends the session when at most one
      unit is left, so timeLeft never reaches 0. */
  function Countdown(s: Session, now: int): Session {
    if s.state != Play then s
    else if s.timeLeft <= 1 then Ended(s, true, now)
    else s.(timeLeft := s.timeLeft - 1)
  }

  /** The gift spawner callback. */
  function GiftDropped(s: Session, r1: Unit, r2: Unit): Session {
    if s.state == Play then s.(gifts := s.gifts + [NewGift(r1, r2)]) else s
  }

  /** The gremlin spawner callback. */
  function GremlinDropped(s: Session, r1: Unit, r2: Unit): Session {
    if s.state == Play then s.(gremlins := s.gremlins + [NewGremlin(r1, r2)]) else s
  }

  // ---------------------------------------------------------------- one play frame

  /** `maybeSpawnBoss` on the session. */
  function SpawnBoss(s: Session): Session {
    s.(boss := Spawned(s.boss, s.timeLeft),
       cameraShake := if ShouldSpawn(s.boss, s.timeLeft) then IntroShake else s.cameraShake)
  }

  /** `handlePlayerInput` then `updatePlayer` with the player's own frame time. */
  function MovePlayer(s: Session, keys: map<string, bool>, touch: Touch, playerDt: real): Session {
    var moved := Step(Steer(s.player, keys, touch), playerDt);
    s.(player := moved, dead := s.dead || FellOut(moved, s.isMobile))
  }

  /** The gifts fall; the ones the player touches score a point each and go,
      the others stay while on screen. */
  function CollectGifts(s: Session, dt: real): Session {
    var fallen := Fall(s.gifts, dt);
    s.(gifts := KeptGifts(fallen, s.player), score := s.score + CaughtCount(fallen, s.player))
  }

  /** The gremlins fall and any one touching the player kills it; none is ever removed. */
  function CheckGremlins(s: Session, dt: real): Session {
    var fallen := Fall(s.gremlins, dt);
    s.(gremlins := fallen, dead := s.dead || AnyTouches(s.player, fallen))
  }

  /** The boss after the `onHit` callback: the hp `Hit` leaves, and inactive
      once that hit defeats it. */
  function Damaged(b: BossState): BossState {
    var t := Hit(Tally(b.hp, 0, false));
    b.(hp := t.hp, active := b.active && !t.defeated)
  }

  /** The `onHit` callback. */
  function OnHit(s: Session): Session {
    var t := Hit(Tally(s.boss.hp, s.score, s.bossDefeated));
    s.(cameraShake := HitShake, slowMotionTimer := SlowMotionFrames, player := s.player.(vy := BounceVy),
       boss := Damaged(s.boss), score := t.score, bossDefeated := t.defeated)
  }

  /** `updateBoss` with the two callbacks. */
  function BossTurn(s: Session, dt: real, sin: real -> real): (Session, Contact) {
    var o := Advance(s.boss, dt, s.player, s.cameraShake, sin);
    var s1 := s.(boss := o.boss, cameraShake := o.shake);
    match o.contact
    case Stomp => (OnHit(s1), Stomp)
    case Kill => (s1.(dead := true), Kill)
    case NoContact => (s1, NoContact)
  }

  /** The play branch of `update`, in its fixed order; a dead flag ends the
      session, as a loss. */
  function PlayStep(s: Session, i: Inputs, playerDt: real): (Session, Contact) {
    BossAndDeath(Entities(s, i, playerDt), i)
  }

  /** The passes before the boss moves: the boss spawn check, the player, the
      gifts and the gremlins. */
  function Entities(s: Session, i: Inputs, playerDt: real): Session {
    CheckGremlins(CollectGifts(MovePlayer(SpawnBoss(s), i.keys, i.touch, playerDt), i.dt), i.dt)
  }

  /** The boss's turn, then the death check. */
  function BossAndDeath(s: Session, i: Inputs): (Session, Contact) {
    var r := BossTurn(s, i.dt, i.sin);
    (if r.0.dead then Ended(r.0, false, i.now) else r.0, r.1)
  }

  /** The slow-motion speed factor, which scales the player's frame time only. */
  function SpeedFactor(slowMotionTimer: int): real {
    if slowMotionTimer > 0 then 0.35 else 1.0
  }

  function Decayed(timer: int): int {
    if timer > 0 then timer - 1 else timer
  }

  /** One boot frame: the timer counts down, and at 0 the intro takes over for good. */
  function BootTick(s: Session): Session {
    var bt := s.bootTimer - 1;
    if bt <= 0 then s.(bootTimer := bt, firstBoot := false, state := Intro) else s.(bootTimer := bt)
  }

  /** `update`: slow motion counts down in every state, boot counts its own
      timer down, and only play moves anything. */
  function Frame(s: Session, i: Inputs): (Session, Contact) {
    var s1 := s.(slowMotionTimer := Decayed(s.slowMotionTimer));
    match s.state
    case Boot => (BootTick(s1), NoContact)
    case Play => PlayStep(s1, i, i.dt * SpeedFactor(s.slowMotionTimer))
    case _ => (s1, NoContact)
  }

  // ---------------------------------------------------------------- properties

  /** `startGame` gives a fresh play session: no score, the full duration, no
      win, no boss defeat, no gifts or gremlins, not dead, a dormant boss and
      the player back at its start. */
  lemma BeginFreshSession(s: Session)
    requires ValidSession(s)
    ensures var b := Begin(s);
      && b.state == Play && b.score == 0 && b.timeLeft == s.selectedDuration
      && !b.won && !b.bossDefeated && b.gifts == [] && b.gremlins == [] && !b.dead
      && b.boss == Fresh && b.player == Start && b.slowMotionTimer == 0 && b.anecdotesUnlocked == 0
      && b.leaderboard == s.leaderboard && b.bestScore == s.bestScore
      && ValidSession(b)
  {
    FreshIsDormant();
  }

  lemma BeginValid(s: Session)
    requires ValidSession(s)
    ensures ValidSession(Begin(s))
  {
    FreshIsDormant();
  }

  /** Ending a round keeps the session well formed. */
  lemma EndedKeepsValid(s: Session, timeOverWon: bool, now: int)
    requires ValidSession(s)
    ensures ValidSession(Ended(s, timeOverWon, now))
  {
    EndedOnce(s, timeOverWon, now, timeOverWon, now);
  }

  /** `endGame` acts only from play: it ends the session, wins iff time ran out
      with a positive score, raises the best score to the score, counts the
      anecdotes and inserts the score into the board; a second call changes
      nothing, so a session inserts at most one entry. */
  lemma EndedOnce(s: Session, timeOverWon: bool, now: int, timeOverWon': bool, now': int)
    ensures var e := Ended(s, timeOverWon, now);
      && (s.state != Play ==> e == s)
      && (s.state == Play ==>
            && e.state == End
            && e.won == (timeOverWon && s.score > 0)
            && e.bestScore >= s.bestScore && e.bestScore >= s.score
            && (e.bestScore == s.bestScore || e.bestScore == s.score)
            && e.score == s.score
            && e.leaderboard == Inserted(s.leaderboard, Entry(s.score, now))
            && |e.leaderboard| <= BoardSize
            && 0 <= e.anecdotesUnlocked <= |Thresholds|)
      && Ended(e, timeOverWon', now') == e
  {
    LeaderboardInsert(s.leaderboard, Entry(s.score, now));
    UnlockedMonotone(s.score, s.score);
  }

  /** Successive countdown ticks. */
  function Ticks(s: Session, n: nat, now: int): Session
    decreases n
  {
    if n == 0 then s else Ticks(Countdown(s, now), n - 1, now)
  }

  /** With T >= 1 units left and nothing else happening, the first T - 1 ticks
      count down to 1 and the T-th ends the session as a time-out, with the
      clock still showing 1. */
  lemma {:induction false} CountdownRuns(s: Session, n: nat, now: int)
    requires s.state == Play && 1 <= n <= s.timeLeft
    ensures n < s.timeLeft ==> Ticks(s, n, now) == s.(timeLeft := s.timeLeft - n)
    ensures n == s.timeLeft ==> Ticks(s, n, now) == Ended(s.(timeLeft := 1), true, now)
    decreases n
  {
    if s.timeLeft <= 1 {
      assert n == 1;
      assert Ticks(s, 1, now) == Ticks(Countdown(s, now), 0, now);
      assert s.(timeLeft := 1) == s;
    } else {
      var s' := s.(timeLeft := s.timeLeft - 1);
      assert Countdown(s, now) == s';
      if n > 1 {
        CountdownRuns(s', n - 1, now);
        assert s'.(timeLeft := 1) == s.(timeLeft := 1);
      }
    }
  }

  /** A 45-unit session with no points runs out after 45 ticks and is not won. */
  lemma TimeOutWithoutPoints(s: Session, now: int)
    requires s.state == Play && s.timeLeft == 45 && s.score == 0
    ensures var e := Ticks(s, 45, now); e.state == End && !e.won && e.timeLeft == 1
  {
    CountdownRuns(s, 45, now);
  }

  /** Outside boot and play a frame only counts slow motion down and changes
      nothing else; in boot it also counts the boot timer down and moves to the
      intro, clearing the first-boot flag, exactly when that timer runs out. */
  lemma IdleFrames(s: Session, i: Inputs)
    requires s.state != Play
    ensures var (f, contact) := Frame(s, i);
      var slowed := s.(slowMotionTimer := if s.slowMotionTimer > 0 then s.slowMotionTimer - 1 else s.slowMotionTimer);
      && contact == NoContact
      && (s.state != Boot ==> f == slowed)
      && (s.state == Boot && s.bootTimer - 1 <= 0 ==>
            f == slowed.(bootTimer := s.bootTimer - 1, firstBoot := false, state := Intro))
      && (s.state == Boot && s.bootTimer - 1 > 0 ==> f == slowed.(bootTimer := s.bootTimer - 1))
  {
    var s1 := s.(slowMotionTimer := Decayed(s.slowMotionTimer));
    if s.state == Boot {
      assert Frame(s, i) == (BootTick(s1), NoContact);
    } else {
      assert Frame(s, i) == (s1, NoContact);
    }
  }

  /** The session invariant without its last clause, which a play frame may
      break for a moment before `endGame` restores it. */
  predicate Sound(s: Session) {
    && ValidPlayer(s.player)
    && ValidBoss(s.boss)
    && 0 <= s.anecdotesUnlocked <= |Thresholds|
    && 0 <= s.slowMotionTimer <= SlowMotionFrames
  }

  lemma SpawnBossSound(s: Session)
    requires Sound(s)
    ensures Sound(SpawnBoss(s))
  {
    StartedShape(s.boss);
  }

  lemma MovePlayerSound(s: Session, keys: map<string, bool>, touch: Touch, playerDt: real)
    requires Sound(s)
    ensures Sound(MovePlayer(s, keys, touch, playerDt))
  {
    SteerKeepsValid(s.player, keys, touch);
    StepKeepsValid(Steer(s.player, keys, touch), playerDt);
  }

  /** The gift and gremlin passes touch none of the entity invariants. */
  lemma FallersSound(s: Session, dt: real)
    requires Sound(s)
    ensures Sound(CheckGremlins(CollectGifts(s, dt), dt))
  {
  }

  /** The boss's turn: a stomp costs the boss exactly one hp, never taking it
      below 0, pays 5 and 30 more if it defeats the boss (which then goes
      inactive and is recorded as defeated), starts 12 frames of slow motion
      and bounces the player; a kill raises the death flag; otherwise score,
      hp and the flag stay. The invariant is kept throughout. */
  lemma BossTurnEffect(s: Session, dt: real, sin: real -> real)
    requires Sound(s)
    ensures var (f, contact) := BossTurn(s, dt, sin);
      && Sound(f)
      && contact == Advance(s.boss, dt, s.player, s.cameraShake, sin).contact
      && (contact == Stomp ==>
            && f.boss.hp == s.boss.hp - 1 && f.boss.hp >= 0
            && f.score == s.score + 5 + (if f.boss.hp == 0 then 30 else 0)
            && (f.boss.hp == 0 ==> !f.boss.active && f.bossDefeated)
            && (f.boss.hp > 0 ==> f.bossDefeated == s.bossDefeated)
            && f.slowMotionTimer == SlowMotionFrames && f.player.vy == BounceVy)
      && (contact != Stomp ==>
            f.boss.hp == s.boss.hp && f.score == s.score && f.bossDefeated == s.bossDefeated && f.player == s.player)
      && f.dead == (s.dead || contact == Kill)
      && f.gifts == s.gifts && f.gremlins == s.gremlins && f.state == s.state && f.timeLeft == s.timeLeft
      && f.leaderboard == s.leaderboard && f.bestScore == s.bestScore
  {
    AdvanceKeepsValid(s.boss, dt, s.player, s.cameraShake, sin);
    ContactClassification(s.boss, dt, s.player, s.cameraShake, sin);
  }

  lemma PlayStepKeepsValid(s: Session, i: Inputs, playerDt: real)
    requires Sound(s)
    ensures ValidSession(PlayStep(s, i, playerDt).0)
  {
    var s1 := SpawnBoss(s);
    SpawnBossSound(s);
    var s2 := MovePlayer(s1, i.keys, i.touch, playerDt);
    MovePlayerSound(s1, i.keys, i.touch, playerDt);
    var s4 := CheckGremlins(CollectGifts(s2, i.dt), i.dt);
    FallersSound(s2, i.dt);
    BossTurnEffect(s4, i.dt, i.sin);
    var r := BossTurn(s4, i.dt, i.sin);
    if r.0.dead {
      UnlockedMonotone(r.0.score, r.0.score);
    }
  }

  /** A play frame, whatever the player's frame time: the score rises by
      exactly the number of gifts the moved player touches, plus the stomp
      reward; those gifts go and the others stay iff on screen; gremlins only
      fall and are never removed; the clock is untouched; the session ends,
      lost, exactly when the player fell out, touched a gremlin or was killed
      by the boss, and the invariant holds again afterwards. */
  lemma PlayStepEffect(s: Session, i: Inputs, playerDt: real)
    requires ValidSession(s) && s.state == Play
    ensures var (f, contact) := PlayStep(s, i, playerDt);
      var s1 := SpawnBoss(s);
      var moved := Step(Steer(s.player, i.keys, i.touch), playerDt);
      var fallen := Fall(s.gifts, i.dt);
      var caught := CaughtCount(fallen, moved);
      var o := Advance(s1.boss, i.dt, moved, s1.cameraShake, i.sin);
      var lost := FellOut(moved, s.isMobile) || AnyTouches(moved, Fall(s.gremlins, i.dt)) || contact == Kill;
      && ValidSession(f)
      && contact == o.contact
      && f.score == s.score + caught + (if contact == Stomp then 5 + (if o.boss.hp == 1 then 30 else 0) else 0)
      && f.gifts == KeptGifts(fallen, moved)
      && f.gremlins == Fall(s.gremlins, i.dt) && |f.gremlins| == |s.gremlins|
      && f.timeLeft == s.timeLeft
      && (f.state == End <==> lost) && (!lost ==> f.state == Play)
      && (lost ==> !f.won && f.leaderboard == Inserted(s.leaderboard, Entry(f.score, i.now)))
      && (!lost ==> f.leaderboard == s.leaderboard)
  {
    PlayStepKeepsValid(s, i, playerDt);
    var s1 := SpawnBoss(s);
    SpawnBossSound(s);
    var s2 := MovePlayer(s1, i.keys, i.touch, playerDt);
    MovePlayerSound(s1, i.keys, i.touch, playerDt);
    var s4 := CheckGremlins(CollectGifts(s2, i.dt), i.dt);
    var r := BossTurn(s4, i.dt, i.sin);
    BossTurnEffect(s4, i.dt, i.sin);
    ContactClassification(s4.boss, i.dt, s4.player, s4.cameraShake, i.sin);
    assert PlayStep(s, i, playerDt) == (if r.0.dead then Ended(r.0, false, i.now) else r.0, r.1);
  }

  /** One frame in play: `PlayStepEffect` with the player's frame time scaled
      by the slow-motion factor and everything else on the unscaled frame time,
      the slow-motion timer counted down first. */
  lemma PlayFrameEffect(s: Session, i: Inputs)
    requires ValidSession(s) && s.state == Play
    ensures var s1 := s.(slowMotionTimer := Decayed(s.slowMotionTimer));
      && Frame(s, i) == PlayStep(s1, i, i.dt * SpeedFactor(s.slowMotionTimer))
      && (s.slowMotionTimer > 0 ==> SpeedFactor(s.slowMotionTimer) == 0.35 && s1.slowMotionTimer == s.slowMotionTimer - 1)
      && (s.slowMotionTimer <= 0 ==> SpeedFactor(s.slowMotionTimer) == 1.0 && s1 == s)
      && ValidSession(s1)
  {
  }

  /** The three branches of `update`. */
  lemma FrameCases(s: Session, i: Inputs)
    ensures var s1 := s.(slowMotionTimer := Decayed(s.slowMotionTimer));
      && (s.state == Boot ==> Frame(s, i) == (BootTick(s1), NoContact))
      && (s.state == Play ==> Frame(s, i) == PlayStep(s1, i, i.dt * SpeedFactor(s.slowMotionTimer)))
      && (s.state != Boot && s.state != Play ==> Frame(s, i) == (s1, NoContact))
  {
  }

  /** A frame assembled from its three branches is `Frame`, and keeps the invariant. */
  lemma FrameAssembled(s: Session, i: Inputs, s1: Session, playerDt: real, r: (Session, Contact))
    requires s1 == s.(slowMotionTimer := Decayed(s.slowMotionTimer))
    requires playerDt == i.dt * SpeedFactor(s.slowMotionTimer)
    requires s1.state == Boot ==> r == (BootTick(s1), NoContact)
    requires s1.state == Play ==> r == PlayStep(s1, i, playerDt)
    requires s1.state != Boot && s1.state != Play ==> r == (s1, NoContact)
    ensures r == Frame(s, i)
    ensures ValidSession(s) ==> ValidSession(r.0)
  {
    FrameCases(s, i);
    if ValidSession(s) {
      FrameKeepsValid(s, i);
    }
  }

  /** Every frame keeps the session invariant. */
  lemma FrameKeepsValid(s: Session, i: Inputs)
    requires ValidSession(s)
    ensures ValidSession(Frame(s, i).0)
  {
    var s1 := s.(slowMotionTimer := Decayed(s.slowMotionTimer));
    FrameCases(s, i);
    if s.state == Play {
      PlayStepKeepsValid(s1, i, i.dt * SpeedFactor(s.slowMotionTimer));
    }
  }

  /** The countdown callback acts only in play, and keeps the invariant. */
  lemma CountdownEffect(s: Session, now: int)
    requires ValidSession(s)
    ensures var c := Countdown(s, now);
      && ValidSession(c)
      && (s.state != Play ==> c == s)
      && (s.state == Play && s.timeLeft > 1 ==> c == s.(timeLeft := s.timeLeft - 1))
      && (s.state == Play && s.timeLeft <= 1 ==> c == Ended(s, true, now) && c.state == End && c.won == (s.score > 0))
  {
    UnlockedMonotone(s.score, s.score);
  }

  /** `boot` keeps the invariant. */
  lemma BootedKeepsValid(s: Session, stored: Option<seq<Entry>>)
    requires ValidSession(s)
    ensures ValidSession(Booted(s, stored))
  {
  }

  /** `boot` lands in the boot animation exactly on the first boot; a stored
      board replaces the board unchanged and its head's score becomes the best
      score; with nothing stored both stay. */
  lemma BootedEffect(s: Session, stored: Option<seq<Entry>>)
    ensures var b := Booted(s, stored);
      && b.state == (if s.firstBoot then Boot else Intro)
      && (stored.Some? ==> b.leaderboard == stored.value)
      && (stored.Some? && |stored.value| > 0 ==> b.bestScore == stored.value[0].score)
      && (stored == Some([]) ==> b.bestScore == 0)
      && (stored.None? ==> b.leaderboard == s.leaderboard && b.bestScore == s.bestScore)
  {
  }

  /** The spawners add one entity of the right kind, and only in play. */
  lemma DroppedEffect(s: Session, r1: Unit, r2: Unit)
    ensures var g, m := GiftDropped(s, r1, r2), GremlinDropped(s, r1, r2);
      && (s.state == Play ==> |g.gifts| == |s.gifts| + 1 && g.gifts[|s.gifts|] == NewGift(r1, r2))
      && (s.state == Play ==> |m.gremlins| == |s.gremlins| + 1 && m.gremlins[|s.gremlins|] == NewGremlin(r1, r2))
      && (s.state != Play ==> g == s && m == s)
      && (s.state == Play ==> g.gifts[..|s.gifts|] == s.gifts && g.(gifts := s.gifts) == s)
      && (s.state == Play ==> m.gremlins[..|s.gremlins|] == s.gremlins && m.(gremlins := s.gremlins) == s)
      && g.gremlins == s.gremlins && m.gifts == s.gifts
  {
  }

  /** Dropping a gift or a gremlin keeps the session well formed. */
  lemma DroppedKeepsValid(s: Session, r1: Unit, r2: Unit)
    requires ValidSession(s)
    ensures ValidSession(GiftDropped(s, r1, r2)) && ValidSession(GremlinDropped(s, r1, r2))
  {
  }

  // ---------------------------------------------------------------- the session object

  class Game {
    var state: Phase
    var timeLeft: int
    var selectedDuration: int
    var score: int
    var bestScore: int
    var won: bool
    var bossDefeated: bool
    const boss: Boss
    const player: Player
    var gifts: seq<Faller>
    var gremlins: seq<Faller>
    const particles: ParticlesState
    var cameraShake: real
    var slowMotionTimer: int
    var isMobile: bool
    const flags: Flags
    var firstBoot: bool
    var bootTimer: int
    var anecdotesUnlocked: int
    var leaderboard: seq<Entry>

    /** The session's value: every field but the particle lists. */
    function Model(): Session
      reads this, boss, player, flags
    {
      Session(state, timeLeft, selectedDuration, score, bestScore, won, bossDefeated, boss.State(), player.State(),
              gifts, gremlins, cameraShake, slowMotionTimer, isMobile, flags.dead, firstBoot, bootTimer,
              anecdotesUnlocked, leaderboard)
    }

    ghost predicate Valid()
      reads this, boss, player, flags
    {
      ValidSession(Model())
    }

    /** `createGameEngine`. */
    constructor ()
      ensures fresh(boss) && fresh(player) && fresh(flags) && fresh(particles)
      ensures Valid() && Model() == Initial
      ensures particles.particles == [] && particles.scorePops == []
    {
      state := Intro;
      timeLeft := 45;
      selectedDuration := 45;
      score := 0;
      bestScore := 0;
      won := false;
      bossDefeated := false;
      boss := new Boss();
      player := new Player();
      gifts := [];
      gremlins := [];
      particles := new ParticlesState();
      cameraShake := 0.0;
      slowMotionTimer := 0;
      isMobile := false;
      flags := new Flags();
      firstBoot := true;
      bootTimer := 0;
      anecdotesUnlocked := 0;
      leaderboard := [];
      FreshIsDormant();
    }

    /** `boot`, given what `loadLeaderboard` parsed from storage (None when the
        key is missing, the JSON is malformed or is not an array). */
    method Boot(stored: Option<seq<Entry>>)
      requires Valid()
      modifies this`state, this`bootTimer, this`leaderboard, this`bestScore
      ensures Valid()
      ensures Model() == Booted(old(Model()), stored)
    {
      LoadLeaderboard(stored);
      EnterFirstPhase();
      BootedKeepsValid(old(Model()), stored);
    }

    /** The boot animation on the first boot, the intro otherwise. */
    method EnterFirstPhase()
      modifies this`state, this`bootTimer
      ensures Model() == if firstBoot then old(Model()).(state := Phase.Boot, bootTimer := BootDurationFrames) else old(Model()).(state := Intro)
    {
      if firstBoot {
        state := Phase.Boot;
        bootTimer := BootDurationFrames;
      } else {
        state := Intro;
      }
    }

    /** `loadLeaderboard`, given what parsing the stored board produced: a
        list replaces the board as it is, and its head sets the best score. */
    method LoadLeaderboard(stored: Option<seq<Entry>>)
      modifies this`leaderboard, this`bestScore
      ensures Model() == if stored.Some? then old(Model()).(leaderboard := stored.value,
                   bestScore := if |stored.value| > 0 then stored.value[0].score else 0) else old(Model())
    {
      if stored.Some? {
        var parsed := stored.value;
        leaderboard := parsed;
        bestScore := if |parsed| > 0 then parsed[0].score else 0;
      }
    }

    /** `computeAnecdotes`. */
    method ComputeAnecdotes()
      modifies this`anecdotesUnlocked
      ensures anecdotesUnlocked == Unlocked(score)
    {
      var thresholds := Thresholds;
      var count := 0;
      for i := 0 to |thresholds|
        invariant count == CountReached(thresholds[..i], score)
      {
        if score >= thresholds[i] {
          count := count + 1;
        }
        assert thresholds[..i + 1][..i] == thresholds[..i];
      }
      assert thresholds[..|thresholds|] == thresholds;
      anecdotesUnlocked := count;
    }

    /** `updateLeaderboard`: push, sort, keep five (saving is not modelled). */
    method UpdateLeaderboard(now: int)
      modifies this`leaderboard
      ensures leaderboard == Inserted(old(leaderboard), Entry(score, now))
    {
      var entry := Entry(score, now);
      leaderboard := leaderboard + [entry];
      leaderboard := Sort(leaderboard);
      if |leaderboard| > BoardSize {
        leaderboard := leaderboard[..BoardSize];
      }
    }

    /** `resetEntities`. The fresh boss and particle state of the source
        replace the old objects, which nothing else holds; here the objects
        are re-initialised in place. */
    method ResetEntities()
      modifies this`gifts, this`gremlins, this`cameraShake, this`bossDefeated, this`slowMotionTimer, flags, boss,
               particles
      ensures gifts == [] && gremlins == [] && cameraShake == 0.0 && !bossDefeated && !flags.dead
      ensures slowMotionTimer == 0
      ensures boss.State() == Fresh
      ensures particles.particles == [] && particles.scorePops == []
    {
      gifts := [];
      gremlins := [];
      particles.Clear();
      boss.Recreate();
      cameraShake := 0.0;
      bossDefeated := false;
      flags.dead := false;
      slowMotionTimer := 0;
    }

    /** `startGame` (the interval handles and the music are not modelled). */
    method StartGame()
      requires Valid()
      modifies this`score, this`timeLeft, this`won, this`bossDefeated, this`anecdotesUnlocked, this`state,
               this`gifts, this`gremlins, this`cameraShake, this`slowMotionTimer, player, flags, boss, particles
      ensures Model() == Begin(old(Model()))
      ensures Valid()
      ensures particles.particles == [] && particles.scorePops == []
    {
      ResetRound();
      player.Reset();
      ResetEntities();
      state := Play;
      BeginValid(old(Model()));
    }

    /** The round counters `startGame` clears first. */
    method ResetRound()
      modifies this`score, this`timeLeft, this`won, this`bossDefeated, this`anecdotesUnlocked
      ensures score == 0 && timeLeft == selectedDuration && !won && !bossDefeated && anecdotesUnlocked == 0
    {
      score := 0;
      timeLeft := selectedDuration;
      won := false;
      bossDefeated := false;
      anecdotesUnlocked := 0;
    }

    /** `endGame` (the jingles, the music and the end callback are not
        modelled), called on a well-formed session. */
    method EndGame(timeOverWon: bool, now: int)
      requires Valid()
      modifies this`won, this`state, this`bestScore, this`anecdotesUnlocked, this`leaderboard, this`cameraShake
      ensures Model() == Ended(old(Model()), timeOverWon, now)
      ensures Valid()
    {
      EndedKeepsValid(Model(), timeOverWon, now);
      Finish(timeOverWon, now);
    }

    /** The body of `endGame`, which also runs from the middle of `update`,
        where the player may already be dead in play. */
    method Finish(timeOverWon: bool, now: int)
      modifies this`won, this`state, this`bestScore, this`anecdotesUnlocked, this`leaderboard, this`cameraShake
      ensures Model() == Ended(old(Model()), timeOverWon, now)
    {
      if state != Play {
        return;
      }
      Conclude(timeOverWon, now);
    }

    /** The body of `endGame` past its guard: the verdict, the best score,
        the anecdotes, the leaderboard, and the shake stops. */
    method Conclude(timeOverWon: bool, now: int)
      modifies this`won, this`state, this`bestScore, this`anecdotesUnlocked, this`leaderboard, this`cameraShake
      ensures won == (timeOverWon && score > 0) && state == End && bestScore == Max(old(bestScore), score)
      ensures anecdotesUnlocked == Unlocked(score)
      ensures leaderboard == Inserted(old(leaderboard), Entry(score, now))
      ensures cameraShake == 0.0
    {
      won := timeOverWon && score > 0;
      state := End;
      bestScore := Max(bestScore, score);
      ComputeAnecdotes();
      UpdateLeaderboard(now);
      cameraShake := 0.0;
    }

    /** The body of the one-second countdown interval. */
    method CountdownTick(now: int)
      requires Valid()
      modifies this`timeLeft, this`won, this`state, this`bestScore, this`anecdotesUnlocked, this`leaderboard,
               this`cameraShake
      ensures Valid()
      ensures Model() == Countdown(old(Model()), now)
    {
      CountdownEffect(Model(), now);
      if state != Play {
        return;
      }
      if timeLeft <= 1 {
        EndGame(true, now);
      } else {
        timeLeft := timeLeft - 1;
      }
    }

    /** `spawnGift`. */
    method SpawnGift(r1: Unit, r2: Unit)
      modifies this`gifts
      ensures gifts == old(gifts) + [NewGift(r1, r2)]
    {
      gifts := gifts + [NewGift(r1, r2)];
    }

    /** `spawnGremlin`. */
    method SpawnGremlin(r1: Unit, r2: Unit)
      modifies this`gremlins
      ensures gremlins == old(gremlins) + [NewGremlin(r1, r2)]
    {
      gremlins := gremlins + [NewGremlin(r1, r2)];
    }

    /** The body of the gift interval. */
    method GiftTick(r1: Unit, r2: Unit)
      requires Valid()
      modifies this`gifts
      ensures Model() == GiftDropped(old(Model()), r1, r2)
      ensures Valid()
    {
      DroppedKeepsValid(Model(), r1, r2);
      if state == Play {
        SpawnGift(r1, r2);
      }
    }

    /** The body of the gremlin interval. */
    method GremlinTick(r1: Unit, r2: Unit)
      requires Valid()
      modifies this`gremlins
      ensures Model() == GremlinDropped(old(Model()), r1, r2)
      ensures Valid()
    {
      DroppedKeepsValid(Model(), r1, r2);
      if state == Play {
        SpawnGremlin(r1, r2);
      }
    }

    /** `maybeSpawnBoss` as `update` calls it. */
    method SpawnBossPass()
      modifies this`cameraShake, boss
      ensures Model() == SpawnBoss(old(Model()))
    {
      cameraShake := boss.MaybeSpawn(timeLeft, cameraShake);
    }

    /** `handlePlayerInput` then `updatePlayer`. */
    method MovePlayerPass(keys: map<string, bool>, touch: Touch, playerDt: real)
      requires player.Valid()
      modifies player, flags
      ensures Model() == MovePlayer(old(Model()), keys, touch, playerDt)
    {
      player.HandleInput(keys, touch);
      player.Update(playerDt, isMobile, flags);
    }

    /** The gift loop of `update`: move every gift, then keep the ones on
        screen that the player does not touch; each touched one scores a point
        and bursts. */
    method CollectGiftsPass(dt: real, draws: seq<seq<(Unit, Unit)>>)
      requires GiftDrawsFit(draws, |gifts|)
      modifies this`gifts, this`score, particles
      ensures Model() == CollectGifts(old(Model()), dt)
      ensures var caught := CaughtCount(Fall(old(gifts), dt), player.State());
        && |particles.particles| == |old(particles.particles)| + GiftBurst * caught
        && |particles.scorePops| == |old(particles.scorePops)| + caught
    {
      var fallen := Fall(gifts, dt);
      var kept := CatchGifts(fallen, player.State(), draws);
      gifts := kept;
    }

    /** The loop over the fallen gifts: a touched gift scores a point, bursts
        and is dropped; an untouched one is kept while it is above the cut-off. */
    method CatchGifts(fallen: seq<Faller>, p: PlayerState, draws: seq<seq<(Unit, Unit)>>) returns (kept: seq<Faller>)
      requires GiftDrawsFit(draws, |fallen|)
      modifies this`score, particles
      ensures kept == KeptGifts(fallen, p)
      ensures score == old(score) + CaughtCount(fallen, p)
      ensures |particles.particles| == |old(particles.particles)| + GiftBurst * CaughtCount(fallen, p)
      ensures |particles.scorePops| == |old(particles.scorePops)| + CaughtCount(fallen, p)
    {
      kept := [];
      for i := 0 to |fallen|
        invariant kept == KeptGifts(fallen[..i], p)
        invariant score == old(score) + CaughtCount(fallen[..i], p)
        invariant |particles.particles| == |old(particles.particles)| + GiftBurst * CaughtCount(fallen[..i], p)
        invariant |particles.scorePops| == |old(particles.scorePops)| + CaughtCount(fallen[..i], p)
      {
        var g := fallen[i];
        if CollidesWith(p, g.x, g.y, g.w, g.h) {
          score := score + 1;
          particles.Spawn(g.x + g.w / 2.0, g.y + g.h / 2.0, "#facc15", 14, draws[i]);
          particles.AddScorePop(p.x + p.w / 2.0, p.y - 6.0, "+1", 30);
        } else if g.y < LogicHeight + 40.0 {
          kept := kept + [g];
        }
        assert fallen[..i + 1][..i] == fallen[..i];
      }
      assert fallen[..|fallen|] == fallen;
    }

    /** The gremlin loop of `update`: move every gremlin, then stop at the
        first one touching the player and raise the death flag. */
    method CheckGremlinsPass(dt: real)
      modifies this`gremlins, flags
      ensures Model() == CheckGremlins(old(Model()), dt)
    {
      gremlins := Fall(gremlins, dt);
      var p := player.State();
      var i := 0;
      while i < |gremlins|
        invariant 0 <= i <= |gremlins|
        invariant flags.dead == old(flags.dead)
        invariant forall j :: 0 <= j < i ==> !Touches(p, gremlins[j])
      {
        var en := gremlins[i];
        if RectsOverlap(Point(p.x, p.y), Point(en.x, en.y), p.w, p.h, en.w, en.h) {
          flags.dead := true;
          break;
        }
        i := i + 1;
      }
    }

    /** The `onHit` callback: the bursts and pops, then the changes to the
        session's own fields. */
    method OnBossHit(draws: seq<(Unit, Unit)>)
      requires |draws| == HitBurst
      modifies this`cameraShake, this`slowMotionTimer, this`score, this`bossDefeated, player, boss, particles
      ensures Model() == OnHit(old(Model()))
      ensures |particles.particles| == |old(particles.particles)| + HitBurst
      ensures |particles.scorePops| == |old(particles.scorePops)| + (if boss.hp <= 0 then 2 else 1)
    {
      var bossX, bossY, bossW := boss.x, boss.y, boss.w;
      var playerX, playerY, playerW := player.x, player.y, player.w;
      particles.Spawn(bossX + bossW / 2.0, bossY, "#f97316", 20, draws);
      particles.AddScorePop(playerX + playerW / 2.0, playerY - 10.0, "+5", 40);
      var defeated := ApplyHit();
      if defeated {
        particles.AddScorePop(bossX + bossW / 2.0, bossY, "+30", 60);
      }
    }

    method ApplyHit() returns (defeated: bool)
      modifies this`cameraShake, this`slowMotionTimer, this`score, this`bossDefeated, player, boss
      ensures Model() == OnHit(old(Model()))
      ensures defeated == (boss.hp <= 0)
    {
      Impact();
      defeated := DamageBoss();
    }

    /** The shake, the slow motion and the player's bounce of a stomp. */
    method Impact()
      modifies this`cameraShake, this`slowMotionTimer, player
      ensures Model() == old(Model()).(cameraShake := HitShake, slowMotionTimer := SlowMotionFrames,
                                       player := old(Model()).player.(vy := BounceVy))
    {
      cameraShake := 10.0;
      slowMotionTimer := 12;
      player.vy := -18.0;
    }

    /** The damage of a stomp and its points; the boss is beaten at hp 0. */
    method DamageBoss() returns (defeated: bool)
      modifies this`score, this`bossDefeated, boss
      ensures var t := Hit(Tally(old(boss.hp), old(score), old(bossDefeated)));
        Model() == old(Model()).(boss := Damaged(old(Model()).boss), score := t.score, bossDefeated := t.defeated)
      ensures defeated == (boss.hp <= 0)
    {
      boss.hp := boss.hp - 1;
      score := score + 5;
      defeated := boss.hp <= 0;
      if defeated {
        boss.active := false;
        bossDefeated := true;
        score := score + 30;
      }
    }

    /** `updateBoss` with its two callbacks. */
    method BossPass(dt: real, sin: real -> real, hitDraws: seq<(Unit, Unit)>) returns (contact: Contact)
      requires |hitDraws| == HitBurst
      modifies this`cameraShake, this`slowMotionTimer, this`score, this`bossDefeated, player, boss, flags, particles
      ensures (Model(), contact) == BossTurn(old(Model()), dt, sin)
    {
      var shake;
      shake, contact := boss.Update(dt, player.State(), cameraShake, sin);
      cameraShake := shake;
      if contact == Stomp {
        OnBossHit(hitDraws);
      } else if contact == Kill {
        flags.dead := true;
      }
    }

    /** The play branch of `update`. */
    method PlayFrame(i: Inputs, playerDt: real, giftDraws: seq<seq<(Unit, Unit)>>, hitDraws: seq<(Unit, Unit)>)
      returns (contact: Contact)
      requires player.Valid()
      requires GiftDrawsFit(giftDraws, |gifts|) && |hitDraws| == HitBurst
      modifies this, boss, player, flags, particles
      ensures (Model(), contact) == PlayStep(old(Model()), i, playerDt)
    {
      var effects := particles;
      EntityPasses(i, playerDt, giftDraws);
      contact := BossPhase(i, hitDraws);
      effects.Update(i.dt);
    }

    /** The boss's turn and the death check. */
    method BossPhase(i: Inputs, hitDraws: seq<(Unit, Unit)>) returns (contact: Contact)
      requires |hitDraws| == HitBurst
      modifies this`cameraShake, this`slowMotionTimer, this`score, this`bossDefeated, this`won, this`state,
               this`bestScore, this`anecdotesUnlocked, this`leaderboard, player, boss, flags, particles
      ensures (Model(), contact) == BossAndDeath(old(Model()), i)
    {
      contact := BossPass(i.dt, i.sin, hitDraws);
      EndIfDead(i.now);
    }

    /** The passes of a play frame before the boss moves: the boss spawn
        check, the player, the gifts and the gremlins. */
    method EntityPasses(i: Inputs, playerDt: real, giftDraws: seq<seq<(Unit, Unit)>>)
      requires player.Valid()
      requires GiftDrawsFit(giftDraws, |gifts|)
      modifies this`cameraShake, this`gifts, this`score, this`gremlins, boss, player, flags, particles
      ensures Model() == Entities(old(Model()), i, playerDt)
    {
      SpawnBossPass();
      MovePlayerPass(i.keys, i.touch, playerDt);
      CollectGiftsPass(i.dt, giftDraws);
      CheckGremlinsPass(i.dt);
    }

    /** The death check at the end of a play frame. */
    method EndIfDead(now: int)
      modifies this`won, this`state, this`bestScore, this`anecdotesUnlocked, this`leaderboard, this`cameraShake
      ensures Model() == if old(Model()).dead then Ended(old(Model()), false, now) else old(Model())
    {
      if flags.dead {
        Finish(false, now);
      }
    }

    /** `update(dt)`; the callback the boss fired, if any, is returned. The
        random draws for the particle bursts of this frame come in as
        `giftDraws` (one burst for each gift, used if it is caught) and
        `hitDraws` (the stomp burst). */
    method Update(i: Inputs, giftDraws: seq<seq<(Unit, Unit)>>, hitDraws: seq<(Unit, Unit)>) returns (contact: Contact)
      requires Valid()
      requires GiftDrawsFit(giftDraws, |gifts|) && |hitDraws| == HitBurst
      modifies this, boss, player, flags, particles
      ensures (Model(), contact) == Frame(old(Model()), i)
      ensures Valid()
      ensures old(state) != Play ==> particles.particles == old(particles.particles)
      ensures old(state) != Play ==> particles.scorePops == old(particles.scorePops)
    {
      ghost var s := Model();
      var playerDt := SlowMotionPass(i.dt);
      ghost var s1 := Model();
      contact := StateBranch(i, playerDt, giftDraws, hitDraws, s1);
      FrameAssembled(s, i, s1, playerDt, (Model(), contact));
    }

    /** The part of `update` after the slow-motion countdown; `s1` is the
        session as it stands then. */
    method StateBranch(i: Inputs, playerDt: real, giftDraws: seq<seq<(Unit, Unit)>>, hitDraws: seq<(Unit, Unit)>,
                       ghost s1: Session)
      returns (contact: Contact)
      requires Model() == s1
      requires player.Valid()
      requires GiftDrawsFit(giftDraws, |gifts|) && |hitDraws| == HitBurst
      modifies this, boss, player, flags, particles
      ensures s1.state == Phase.Boot ==> (Model(), contact) == (BootTick(s1), NoContact)
      ensures s1.state == Play ==> (Model(), contact) == PlayStep(s1, i, playerDt)
      ensures s1.state != Phase.Boot && s1.state != Play ==> (Model(), contact) == (s1, NoContact)
      ensures s1.state != Play ==> particles.particles == old(particles.particles)
      ensures s1.state != Play ==> particles.scorePops == old(particles.scorePops)
    {
      contact := NoContact;
      if state == Phase.Boot {
        BootPass();
      } else if state == Play {
        contact := PlayFrame(i, playerDt, giftDraws, hitDraws);
      }
    }

    /** The slow-motion countdown at the head of `update`, returning the
        player's frame time. */
    method SlowMotionPass(dt: real) returns (playerDt: real)
      modifies this`slowMotionTimer
      ensures Model() == old(Model()).(slowMotionTimer := Decayed(old(Model()).slowMotionTimer))
      ensures playerDt == dt * SpeedFactor(old(Model()).slowMotionTimer)
    {
      var speedFactor := 1.0;
      if slowMotionTimer > 0 {
        speedFactor := 0.35;
        slowMotionTimer := slowMotionTimer - 1;
      }
      playerDt := dt * speedFactor;
    }

    /** The boot branch of `update`. */
    method BootPass()
      modifies this`bootTimer, this`firstBoot, this`state
      ensures Model() == BootTick(old(Model()))
    {
      bootTimer := bootTimer - 1;
      if bootTimer <= 0 {
        firstBoot := false;
        state := Intro;
      }
    }
  }
}
