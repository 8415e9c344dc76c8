/** The rotating galaxy (`class GalaxyParticle` and `animateGalaxy` of script.js).
    Each particle orbits a shared centre: every frame its angle advances by its
    angular speed, its radius wobbles by half of `Math.sin(2 * angle)`, and a
    radius that has grown past 400 respawns at 50. The wobble is passed in as a
    value in [-1, 1]. */
module Galaxy {
  import opened Draws

  /** The radius beyond which a particle respawns, and the radius it respawns at. */
  const MaxRadius: real := 400.0
  const RespawnRadius: real := 50.0

  /** The five colour prefixes of `getGalaxyColor`; the draw-time opacity and the
      closing parenthesis are appended when painting. */
  const Palette: seq<string> := [
    "rgba(102, 126, 234, ",
    "rgba(118, 75, 162, ",
    "rgba(240, 147, 251, ",
    "rgba(79, 172, 254, ",
    "rgba(138, 43, 226, "
  ]

  /** The fields of a galaxy particle, as one value. */
  datatype ParticleState = ParticleState(
    centerX: real,
    centerY: real,
    angle: real,
    radius: real,
    size: real,
    speed: real,
    opacity: real,
    color: string)

  /** The ranges `reset` draws from, and the radius bound the respawn keeps. */
  predicate Good(p: ParticleState) {
    && 0.5 <= p.size < 2.5
    && 0.001 <= p.speed < 0.003
    && 0.3 <= p.opacity < 0.8
    && p.radius <= MaxRadius
    && p.color in Palette
  }

  /** `Math.floor(Math.random() * colors.length)`: the palette slot a draw selects. */
  function ColorIndex(r: real): (k: nat)
    requires IsDraw(r)
    ensures k < |Palette|
    ensures k as real <= r * |Palette| as real < k as real + 1.0
  {
    (r * |Palette| as real).Floor
  }

  /** `getGalaxyColor`. */
  function ColorFor(r: real): (c: string)
    requires IsDraw(r)
    ensures c in Palette
  {
    Palette[ColorIndex(r)]
  }

  /** The constructor followed by `reset`: six draws, in the order of the source's
      assignments; the centre is the one the constructor is given. */
  function Spawn(centerX: real, centerY: real, rAngle: real, rRadius: real, rSize: real, rSpeed: real,
                 rOpacity: real, rColor: real): (p: ParticleState)
    requires IsDraw(rAngle) && IsDraw(rRadius) && IsDraw(rSize) && IsDraw(rSpeed)
    requires IsDraw(rOpacity) && IsDraw(rColor)
    ensures Good(p)
    ensures p.centerX == centerX && p.centerY == centerY
    ensures 0.0 <= p.angle < 2.0 * Pi
    ensures RespawnRadius <= p.radius < 350.0
  {
    var angle := rAngle * Pi * 2.0;
    ScaledDraw(rAngle, Pi);
    ParticleState(centerX, centerY, angle, rRadius * 300.0 + 50.0, rSize * 2.0 + 0.5,
                  rSpeed * 0.002 + 0.001, rOpacity * 0.5 + 0.3, ColorFor(rColor))
  }

  /** `update`: one frame. `wobble` stands for `Math.sin(this.angle * 2)`, taken of
      the angle after this frame's increment. */
  function Advance(p: ParticleState, wobble: real): (r: ParticleState)
    requires IsSine(wobble)
    ensures r.angle == p.angle + p.speed
    // the radius never exceeds the threshold after the respawn check ...
    ensures r.radius <= MaxRadius
    // ... because a wobbled radius past it respawns at exactly 50, and any other
    // one moves by at most half a unit
    ensures p.radius + wobble * 0.5 > MaxRadius ==> r.radius == RespawnRadius
    ensures p.radius + wobble * 0.5 <= MaxRadius ==> r.radius == p.radius + wobble * 0.5
    ensures r.radius != RespawnRadius ==> p.radius - 0.5 <= r.radius <= p.radius + 0.5
    ensures r.centerX == p.centerX && r.centerY == p.centerY
    ensures r.size == p.size && r.speed == p.speed && r.opacity == p.opacity && r.color == p.color
    ensures Good(p) ==> Good(r)
  {
    var radius := p.radius + wobble * 0.5;
    p.(angle := p.angle + p.speed, radius := if radius > MaxRadius then RespawnRadius else radius)
  }

  predicate AllSines(ws: seq<real>) {
    forall i :: 0 <= i < |ws| ==> IsSine(ws[i])
  }

  /** One `update` per wobble value. */
  function Orbit(p: ParticleState, wobbles: seq<real>): ParticleState
    requires AllSines(wobbles)
    decreases |wobbles|
  {
    if wobbles == [] then p else Orbit(Advance(p, wobbles[0]), wobbles[1..])
  }

  /** After `n` frames the angle has advanced by exactly `n` times the speed, the
      radius is still within the threshold, and nothing but angle and radius has
      changed. */
  lemma {:induction false} OrbitProgress(p: ParticleState, wobbles: seq<real>)
    requires AllSines(wobbles)
    requires p.radius <= MaxRadius
    ensures var r := Orbit(p, wobbles);
      && r.angle == p.angle + |wobbles| as real * p.speed
      && r.radius <= MaxRadius
      && r.centerX == p.centerX && r.centerY == p.centerY
      && r.size == p.size && r.speed == p.speed && r.opacity == p.opacity && r.color == p.color
    decreases |wobbles|
  {
    if wobbles != [] {
      var next := Advance(p, wobbles[0]);
      OrbitProgress(next, wobbles[1..]);
      assert next.angle + (|wobbles| - 1) as real * p.speed == p.angle + |wobbles| as real * p.speed;
    }
  }

  /** A particle keeps turning: with the speed `reset` gives it, the angle after
      `n` frames is at least `n` thousandths of a radian further on. */
  lemma {:induction false} AlwaysTurning(p: ParticleState, wobbles: seq<real>)
    requires AllSines(wobbles)
    requires Good(p)
    ensures Orbit(p, wobbles).angle >= p.angle + |wobbles| as real * 0.001
    decreases |wobbles|
  {
    if wobbles != [] {
      var next := Advance(p, wobbles[0]);
      AlwaysTurning(next, wobbles[1..]);
      assert next.angle >= p.angle + 0.001;
    }
  }

  /** A galaxy particle, with the fields of the source's class. */
  class GalaxyParticle {
    var centerX: real
    var centerY: real
    var angle: real
    var radius: real
    var size: real
    var speed: real
    var opacity: real
    var color: string

    function State(): ParticleState
      reads this
    {
      ParticleState(centerX, centerY, angle, radius, size, speed, opacity, color)
    }

    predicate Valid()
      reads this
    {
      Good(State())
    }

    constructor (centerX: real, centerY: real, rAngle: real, rRadius: real, rSize: real, rSpeed: real,
                 rOpacity: real, rColor: real)
      requires IsDraw(rAngle) && IsDraw(rRadius) && IsDraw(rSize) && IsDraw(rSpeed)
      requires IsDraw(rOpacity) && IsDraw(rColor)
      ensures State() == Spawn(centerX, centerY, rAngle, rRadius, rSize, rSpeed, rOpacity, rColor)
      ensures Valid()
    {
      this.centerX := centerX;
      this.centerY := centerY;
      new;
      Reset(rAngle, rRadius, rSize, rSpeed, rOpacity, rColor);
    }

    method Reset(rAngle: real, rRadius: real, rSize: real, rSpeed: real, rOpacity: real, rColor: real)
      requires IsDraw(rAngle) && IsDraw(rRadius) && IsDraw(rSize) && IsDraw(rSpeed)
      requires IsDraw(rOpacity) && IsDraw(rColor)
      modifies this
      ensures State() == Spawn(old(centerX), old(centerY), rAngle, rRadius, rSize, rSpeed, rOpacity, rColor)
      ensures Valid()
    {
      angle := rAngle * Pi * 2.0;
      radius := rRadius * 300.0 + 50.0;
      size := rSize * 2.0 + 0.5;
      speed := rSpeed * 0.002 + 0.001;
      opacity := rOpacity * 0.5 + 0.3;
      color := ColorFor(rColor);
    }

    method Update(wobble: real)
      requires IsSine(wobble)
      modifies this
      ensures State() == Advance(old(State()), wobble)
      ensures old(Valid()) ==> Valid()
    {
      angle := angle + speed;
      radius := radius + wobble * 0.5;
      if radius > MaxRadius {
        radius := RespawnRadius;
      }
    }
  }

  /** The update half of `animateGalaxy`: the centre is recomputed from the canvas
      size and written into every particle before that particle's update, in array
      order. `wobbles[i]` is particle `i`'s `Math.sin(2 * angle)` this frame, taken of
      the angle after the frame's increment. */
  method AnimateGalaxy(particles: array<GalaxyParticle>, width: nat, height: nat, wobbles: seq<real>)
    requires |wobbles| == particles.Length && AllSines(wobbles)
    requires forall i, j :: 0 <= i < j < particles.Length ==> particles[i] != particles[j]
    modifies set i | 0 <= i < particles.Length :: particles[i]
    ensures forall i :: 0 <= i < particles.Length ==>
      particles[i].State()
        == Advance(old(particles[i].State()).(centerX := width as real / 2.0, centerY := height as real / 2.0),
                   wobbles[i])
    ensures forall i :: 0 <= i < particles.Length ==>
      particles[i].centerX == width as real / 2.0 && particles[i].centerY == height as real / 2.0
    ensures forall i :: 0 <= i < particles.Length && old(particles[i].Valid()) ==> particles[i].Valid()
  {
    var centerX := width as real / 2.0;
    var centerY := height as real / 2.0;
    var i := 0;
    while i < particles.Length
      invariant 0 <= i <= particles.Length
      invariant forall j :: 0 <= j < i ==>
        particles[j].State() == Advance(old(particles[j].State()).(centerX := centerX, centerY := centerY), wobbles[j])
      invariant forall j :: i <= j < particles.Length ==> particles[j].State() == old(particles[j].State())
    {
      var particle := particles[i];
      particle.centerX := centerX;
      particle.centerY := centerY;
      particle.Update(wobbles[i]);
      i := i + 1;
    }
  }
}
