/** Particle bursts and floating score pops with frame-counted lifetimes
    (src/game/particles.ts). */
module Particles {
  import opened Seqs

  /** A value of Math.random. */
  type Unit = r: real | 0.0 <= r < 1.0

  datatype Particle = Particle(x: real, y: real, vx: real, vy: real, life: int, color: string)

  /** A floating score text; its value is the text shown ("+1", "+5", "+30"). */
  datatype ScorePop = ScorePop(x: real, y: real, value: string, life: int)

  const SparkLife: int := 20

  /** One particle of a burst, from the two random draws that set its velocity. */
  function Spark(x: real, y: real, color: string, draw: (Unit, Unit)): Particle {
    Particle(x, y, (draw.0 - 0.5) * 4.0, (draw.1 - 1.2) * 4.0, SparkLife, color)
  }

  /** The particles `spawnParticles` pushes, one per pair of draws, in order. */
  function Burst(x: real, y: real, color: string, draws: seq<(Unit, Unit)>): (r: seq<Particle>)
    ensures |r| == |draws|
    ensures forall i :: 0 <= i < |r| ==>
      r[i].x == x && r[i].y == y && r[i].life == SparkLife && r[i].color == color
  {
    if draws == [] then [] else Burst(x, y, color, draws[..|draws| - 1]) + [Spark(x, y, color, draws[|draws| - 1])]
  }

  function AgeParticle(p: Particle, dt: real): Particle {
    p.(x := p.x + p.vx * dt, y := p.y + p.vy * dt, life := p.life - 1)
  }

  function AgePop(p: ScorePop, dt: real): ScorePop {
    p.(y := p.y - 0.6 * dt, life := p.life - 1)
  }

  /** `updateParticles` on the particle list: map, then keep positive lives. */
  function TickParticles(ps: seq<Particle>, dt: real): seq<Particle> {
    Filter(Map(ps, (p: Particle) => AgeParticle(p, dt)), (p: Particle) => p.life > 0)
  }

  /** `updateParticles` on the score-pop list. */
  function TickPops(ps: seq<ScorePop>, dt: real): seq<ScorePop> {
    Filter(Map(ps, (p: ScorePop) => AgePop(p, dt)), (p: ScorePop) => p.life > 0)
  }

  /** The survivors of an update are exactly the particles whose life was above
      1, in their old order, each moved by (vx*dt, vy*dt) with one life less;
      every survivor is alive and the list does not grow. */
  lemma TickParticlesSurvivors(ps: seq<Particle>, dt: real)
    ensures TickParticles(ps, dt) == Map(Filter(ps, (p: Particle) => p.life > 1), (p: Particle) => AgeParticle(p, dt))
    ensures |TickParticles(ps, dt)| <= |ps|
    ensures forall p :: p in TickParticles(ps, dt) ==> p.life > 0
  {
    FilterOfMap(ps, (p: Particle) => AgeParticle(p, dt), (p: Particle) => p.life > 0, (p: Particle) => p.life > 1);
  }

  /** The same for score pops, which move only upwards, by 0.6*dt. */
  lemma TickPopsSurvivors(ps: seq<ScorePop>, dt: real)
    ensures TickPops(ps, dt) == Map(Filter(ps, (p: ScorePop) => p.life > 1), (p: ScorePop) => AgePop(p, dt))
    ensures |TickPops(ps, dt)| <= |ps|
    ensures forall p :: p in TickPops(ps, dt) ==> p.life > 0
  {
    FilterOfMap(ps, (p: ScorePop) => AgePop(p, dt), (p: ScorePop) => p.life > 0, (p: ScorePop) => p.life > 1);
  }

  /** Successive updates of the particle list, one per frame time. */
  function TickParticlesN(ps: seq<Particle>, dts: seq<real>): seq<Particle>
    decreases |dts|
  {
    if dts == [] then ps else TickParticlesN(TickParticles(ps, dts[0]), dts[1..])
  }

  lemma TickOne(p: Particle, dt: real)
    ensures TickParticles([p], dt) == if p.life > 1 then [AgeParticle(p, dt)] else []
  {
    assert [p][..0] == [];
  }

  lemma {:induction false} TickEmpty(dts: seq<real>)
    ensures TickParticlesN([], dts) == []
    decreases |dts|
  {
    if dts != [] {
      TickEmpty(dts[1..]);
    }
  }

  /** A particle with life L is alive with life L - n after n < L updates and
      gone after L updates, whatever the frame times. */
  lemma {:induction false} Lifetime(p: Particle, dts: seq<real>)
    requires p.life >= 1
    ensures |dts| < p.life ==> |TickParticlesN([p], dts)| == 1 && TickParticlesN([p], dts)[0].life == p.life - |dts|
    ensures |dts| >= p.life ==> TickParticlesN([p], dts) == []
    decreases |dts|
  {
    if dts != [] {
      TickOne(p, dts[0]);
      if p.life > 1 {
        Lifetime(AgeParticle(p, dts[0]), dts[1..]);
      } else {
        TickEmpty(dts[1..]);
      }
    }
  }

  /** So a freshly spawned particle survives exactly 19 updates and the 20th removes it. */
  lemma SparkLifetime(x: real, y: real, color: string, draw: (Unit, Unit), dts: seq<real>)
    ensures |dts| < SparkLife ==> |TickParticlesN([Spark(x, y, color, draw)], dts)| == 1
    ensures |dts| >= SparkLife ==> TickParticlesN([Spark(x, y, color, draw)], dts) == []
  {
    Lifetime(Spark(x, y, color, draw), dts);
  }

  class ParticlesState {
    var particles: seq<Particle>
    var scorePops: seq<ScorePop>

    /** `createParticlesState`. */
    constructor ()
      ensures particles == [] && scorePops == []
    {
      particles := [];
      scorePops := [];
    }

    /** `createParticlesState`, applied to this object: both lists emptied. */
    method Clear()
      modifies this
      ensures particles == [] && scorePops == []
    {
      particles := [];
      scorePops := [];
    }

    /** `spawnParticles`: appends `count` particles at (x, y), leaving the rest alone. */
    method Spawn(x: real, y: real, color: string, count: nat, draws: seq<(Unit, Unit)>)
      requires |draws| == count
      modifies this
      ensures particles == old(particles) + Burst(x, y, color, draws)
      ensures scorePops == old(scorePops)
    {
      for i := 0 to count
        invariant particles == old(particles) + Burst(x, y, color, draws[..i])
        invariant scorePops == old(scorePops)
      {
        particles := particles + [Spark(x, y, color, draws[i])];
        assert draws[..i + 1][..i] == draws[..i];
      }
      assert draws[..count] == draws;
    }

    /** `addScorePop`: appends exactly one pop. */
    method AddScorePop(x: real, y: real, value: string, life: int)
      modifies this
      ensures scorePops == old(scorePops) + [ScorePop(x, y, value, life)]
      ensures particles == old(particles)
    {
      scorePops := scorePops + [ScorePop(x, y, value, life)];
    }

    /** `updateParticles`. */
    method Update(dt: real)
      modifies this
      ensures particles == TickParticles(old(particles), dt)
      ensures scorePops == TickPops(old(scorePops), dt)
    {
      particles := TickParticles(particles, dt);
      scorePops := TickPops(scorePops, dt);
    }
  }
}
