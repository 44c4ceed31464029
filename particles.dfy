/** The particle pool: a vector capped at MAX_PARTICLES that AddParticle
    appends to, and that every frame ages and then prunes of dead particles. */
module Particles {
  import opened Raylib

  const MAX_PARTICLES: nat := 100

  /** Number of AddParticle calls in one burst (dash start or double jump). */
  const BURST: nat := 20

  datatype Particle = Particle(
    position: Vec2,
    velocity: Vec2,
    rotation: real,
    size: real,
    life: real,
    color: Color)

  /** The four rand() results one accepted AddParticle call consumes, in the
      order it draws them: x velocity, y velocity, rotation, size. */
  datatype Draw = Draw(vx: nat, vy: nat, rotation: nat, size: nat)

  predicate Alive(p: Particle) {
    p.life > 0.0
  }

  predicate AllAlive(ps: seq<Particle>) {
    forall i :: 0 <= i < |ps| ==> Alive(ps[i])
  }

  /** A rand() value mapped to a velocity component in tenths: rand() % 41 - 20, over 10. */
  function Tenths(r: nat): real {
    ((r % 41) - 20) as real / 10.0
  }

  /** The particle a successful AddParticle builds from its arguments and draws. */
  function NewParticle(pos: Vec2, color: Color, d: Draw): (p: Particle)
    ensures p.position == pos && p.color == color && p.life == 1.0
    ensures -2.0 <= p.velocity.x <= 2.0 && -2.0 <= p.velocity.y <= 2.0
    ensures 0.0 <= p.rotation <= 359.0 && p.rotation == p.rotation.Floor as real
    ensures 2.0 <= p.size <= 6.0 && p.size == p.size.Floor as real
  {
    Particle(pos, Vec2(Tenths(d.vx), Tenths(d.vy)), (d.rotation % 360) as real,
             (d.size % 5 + 2) as real, 1.0, color)
  }

  /** AddParticle on the pool `ps`: insert when below the cap, otherwise reject. */
  function Spawn(ps: seq<Particle>, pos: Vec2, color: Color, d: Draw): (r: seq<Particle>)
    ensures |r| == if |ps| < MAX_PARTICLES then |ps| + 1 else |ps|
    ensures |ps| <= |r| && r[..|ps|] == ps
    ensures |r| > |ps| ==> r[|ps|] == NewParticle(pos, color, d)
  {
    if |ps| < MAX_PARTICLES then ps + [NewParticle(pos, color, d)] else ps
  }

  /** A loop of AddParticle calls at one position, call k using draws ds[k]. */
  function Burst(ps: seq<Particle>, pos: Vec2, color: Color, ds: seq<Draw>): (r: seq<Particle>)
    ensures |ps| <= MAX_PARTICLES ==> |r| == if |ps| + |ds| <= MAX_PARTICLES then |ps| + |ds| else MAX_PARTICLES
    ensures |ps| >= MAX_PARTICLES ==> r == ps
    ensures |ps| <= |r| <= |ps| + |ds| && r[..|ps|] == ps
    decreases |ds|
  {
    if |ds| == 0 then ps
    else Spawn(Burst(ps, pos, color, ds[..|ds| - 1]), pos, color, ds[|ds| - 1])
  }

  /** The k-th particle a burst adds is built from the k-th call's draws. */
  lemma {:induction false} BurstAppends(ps: seq<Particle>, pos: Vec2, color: Color, ds: seq<Draw>, k: nat)
    requires |ps| <= k < |Burst(ps, pos, color, ds)|
    ensures Burst(ps, pos, color, ds)[k] == NewParticle(pos, color, ds[k - |ps|])
    decreases |ds|
  {
    var init := Burst(ps, pos, color, ds[..|ds| - 1]);
    if k < |init| {
      BurstAppends(ps, pos, color, ds[..|ds| - 1], k);
      assert Burst(ps, pos, color, ds)[..|init|] == init;
    }
  }

  /** `(unsigned char)(life * 255)`: the conversion truncates toward zero, so
      it gives the floor on [0, 256) and 0 on (-1, 0); it is undefined in C++
      at -1 or below and at 256 or above, where the model yields 0. */
  function AlphaOf(life: real): (a: byte)
    ensures 0.0 <= life * 255.0 < 256.0 ==> a as real <= life * 255.0 < a as real + 1.0
    ensures -1.0 < life * 255.0 < 0.0 ==> a == 0
  {
    var v := life * 255.0;
    if 0.0 <= v < 256.0 then v.Floor as byte else 0
  }

  /** One frame of a particle: moved by its velocity, aged by dt, faded. */
  function Advance(p: Particle, dt: real): Particle {
    var life := p.life - dt;
    p.(position := Vec2(p.position.x + p.velocity.x, p.position.y + p.velocity.y),
       life := life,
       color := p.color.(a := AlphaOf(life)))
  }

  function Aged(ps: seq<Particle>, dt: real): seq<Particle> {
    seq(|ps|, i requires 0 <= i < |ps| => Advance(ps[i], dt))
  }

  /** erase(remove_if(life <= 0)): the live particles, in their order. */
  function Prune(ps: seq<Particle>): (r: seq<Particle>)
    ensures |r| <= |ps| && AllAlive(r)
    decreases |ps|
  {
    if |ps| == 0 then []
    else Prune(ps[..|ps| - 1]) + (if Alive(ps[|ps| - 1]) then [ps[|ps| - 1]] else [])
  }

  /** A particle survives pruning exactly when it was in the pool and alive. */
  lemma {:induction false} PruneMembers(ps: seq<Particle>, q: Particle)
    ensures q in Prune(ps) <==> q in ps && Alive(q)
    decreases |ps|
  {
    if |ps| > 0 {
      var init := ps[..|ps| - 1];
      assert ps == init + [ps[|ps| - 1]];
      PruneMembers(init, q);
    }
  }

  /** Pruning is stable: it distributes over concatenation, so survivors keep
      their relative order. */
  lemma {:induction false} PruneAppend(a: seq<Particle>, b: seq<Particle>)
    ensures Prune(a + b) == Prune(a) + Prune(b)
    decreases |b|
  {
    if |b| == 0 {
      assert a + b == a;
    } else {
      var b' := b[..|b| - 1];
      assert (a + b)[..|a + b| - 1] == a + b';
      assert (a + b)[|a + b| - 1] == b[|b| - 1];
      PruneAppend(a, b');
    }
  }

  /** Pruning changes the pool exactly when it holds a dead particle. */
  lemma {:induction false} PruneIdentity(ps: seq<Particle>)
    ensures Prune(ps) == ps <==> AllAlive(ps)
    decreases |ps|
  {
    if AllAlive(ps) && |ps| > 0 {
      var init := ps[..|ps| - 1];
      assert AllAlive(init) by {
        forall i | 0 <= i < |init| ensures Alive(init[i]) {
          assert init[i] == ps[i];
        }
      }
      PruneIdentity(init);
      assert ps == init + [ps[|ps| - 1]];
    }
  }
}
