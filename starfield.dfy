/** The starfield canvas: the per-frame update loop of `animateStarfield` and the
    once-a-second launch callback that wakes one dormant shooting star of the
    pool (script.js). */
module Starfield {
  import opened Draws
  import Stars
  import ShootingStars

  type ShootingState = ShootingStars.ShootingState

  /** The draw the launch callback must beat. */
  const LaunchThreshold: real := 0.7

  /** `shootingStars.find(s => !s.active)`: the position of the first dormant
      star, or the pool's length when every star is active. */
  function FirstInactive(pool: seq<ShootingState>): (k: nat)
    ensures k <= |pool|
    ensures forall j :: 0 <= j < k ==> pool[j].active
    ensures k < |pool| ==> !pool[k].active
  {
    if pool == [] then 0
    else if !pool[0].active then 0
    else 1 + FirstInactive(pool[1..])
  }

  /** The launch callback on the pool's states: `r` is the `Math.random()` it
      compares with 0.7, the other draws are the ones `launch` passes to `reset`. */
  function LaunchPool(pool: seq<ShootingState>, width: nat, height: nat, r: real,
                      rx: real, ry: real, rLength: real, rSpeed: real, rSize: real): (next: seq<ShootingState>)
    requires IsDraw(r)
    requires IsDraw(rx) && IsDraw(ry) && IsDraw(rLength) && IsDraw(rSpeed) && IsDraw(rSize)
    ensures |next| == |pool|
    // every star but the first dormant one is left alone
    ensures forall j :: 0 <= j < |pool| && j != FirstInactive(pool) ==> next[j] == pool[j]
    // the first dormant one is launched exactly when the draw beats the threshold
    ensures FirstInactive(pool) < |pool| ==>
      next[FirstInactive(pool)]
        == if r > LaunchThreshold then ShootingStars.Launched(width, height, rx, ry, rLength, rSpeed, rSize)
           else pool[FirstInactive(pool)]
    // so a star that wakes up is the lowest-index dormant one, on a draw above 0.7
    ensures forall j :: 0 <= j < |pool| && !pool[j].active && next[j].active ==>
      r > LaunchThreshold && forall i :: 0 <= i < j ==> pool[i].active
    // and a fully active pool, or a low draw, changes nothing
    ensures (forall j :: 0 <= j < |pool| ==> pool[j].active) ==> next == pool
    ensures r <= LaunchThreshold ==> next == pool
    ensures (forall j :: 0 <= j < |pool| ==> ShootingStars.Live(pool[j])) ==>
      forall j :: 0 <= j < |pool| ==> ShootingStars.Live(next[j])
  {
    var k := FirstInactive(pool);
    if k < |pool| && r > LaunchThreshold then
      pool[k := ShootingStars.Launched(width, height, rx, ry, rLength, rSpeed, rSize)]
    else
      pool
  }

  /** The number of active stars in a pool. */
  function ActiveCount(pool: seq<ShootingState>): nat
    decreases |pool|
  {
    if pool == [] then 0 else (if pool[0].active then 1 else 0) + ActiveCount(pool[1..])
  }

  /** Replacing one star changes the active count by what that star contributed. */
  lemma {:induction false} ActiveCountAfterUpdate(pool: seq<ShootingState>, k: nat, s: ShootingState)
    requires k < |pool|
    ensures ActiveCount(pool[k := s]) + (if pool[k].active then 1 else 0)
         == ActiveCount(pool) + (if s.active then 1 else 0)
    decreases |pool|
  {
    if k > 0 {
      ActiveCountAfterUpdate(pool[1..], k - 1, s);
      assert pool[k := s][1..] == pool[1..][k - 1 := s];
    }
  }

  /** A launch tick activates at most one star: exactly one when some star is
      dormant and the draw beats 0.7, none otherwise. */
  lemma AtMostOneLaunch(pool: seq<ShootingState>, width: nat, height: nat, r: real,
                        rx: real, ry: real, rLength: real, rSpeed: real, rSize: real)
    requires IsDraw(r)
    requires IsDraw(rx) && IsDraw(ry) && IsDraw(rLength) && IsDraw(rSpeed) && IsDraw(rSize)
    ensures ActiveCount(LaunchPool(pool, width, height, r, rx, ry, rLength, rSpeed, rSize))
         == ActiveCount(pool) + (if FirstInactive(pool) < |pool| && r > LaunchThreshold then 1 else 0)
  {
    var k := FirstInactive(pool);
    if k < |pool| && r > LaunchThreshold {
      ActiveCountAfterUpdate(pool, k, ShootingStars.Launched(width, height, rx, ry, rLength, rSpeed, rSize));
    }
  }

  /** The states of the pool's stars, in array order. */
  ghost function States(pool: array<ShootingStars.ShootingStar>): (states: seq<ShootingState>)
    reads pool, set i | 0 <= i < pool.Length :: pool[i]
    ensures |states| == pool.Length
    ensures forall i :: 0 <= i < pool.Length ==> states[i] == pool[i].State()
  {
    seq(pool.Length, i requires 0 <= i < pool.Length reads pool, set j | 0 <= j < pool.Length :: pool[j]
      => pool[i].State())
  }

  /** The search of `shootingStars.find(s => !s.active)`. */
  method FindInactive(pool: array<ShootingStars.ShootingStar>) returns (k: nat)
    ensures k <= pool.Length
    ensures forall j :: 0 <= j < k ==> pool[j].active
    ensures k < pool.Length ==> !pool[k].active
    ensures k == FirstInactive(States(pool))
  {
    k := 0;
    while k < pool.Length && pool[k].active
      invariant k <= pool.Length
      invariant forall j :: 0 <= j < k ==> pool[j].active
    {
      k := k + 1;
    }
  }

  /** The `setInterval` callback: launch the first dormant star when the draw
      beats 0.7. */
  method LaunchTick(pool: array<ShootingStars.ShootingStar>, width: nat, height: nat, r: real,
                    rx: real, ry: real, rLength: real, rSpeed: real, rSize: real)
    requires IsDraw(r)
    requires IsDraw(rx) && IsDraw(ry) && IsDraw(rLength) && IsDraw(rSpeed) && IsDraw(rSize)
    requires forall i, j :: 0 <= i < j < pool.Length ==> pool[i] != pool[j]
    modifies set i | 0 <= i < pool.Length :: pool[i]
    ensures States(pool) == LaunchPool(old(States(pool)), width, height, r, rx, ry, rLength, rSpeed, rSize)
  {
    var k := FindInactive(pool);
    if k < pool.Length && r > LaunchThreshold {
      pool[k].Launch(width, height, rx, ry, rLength, rSpeed, rSize);
    }
  }

  /** The update half of `animateStarfield`: every twinkling star, then every
      shooting star, in array order. `rxs[i]` is the draw star `i` would take for
      its new horizontal position if it wraps this frame. */
  method AnimateStarfield(stars: array<Stars.Star>, shootingStars: array<ShootingStars.ShootingStar>,
                          width: nat, height: nat, rxs: seq<real>, cosA: real, sinA: real)
    requires |rxs| == stars.Length && Stars.AllDraws(rxs)
    requires forall i, j :: 0 <= i < j < stars.Length ==> stars[i] != stars[j]
    requires forall i, j :: 0 <= i < j < shootingStars.Length ==> shootingStars[i] != shootingStars[j]
    modifies set i | 0 <= i < stars.Length :: stars[i]
    modifies set i | 0 <= i < shootingStars.Length :: shootingStars[i]
    ensures forall i :: 0 <= i < stars.Length ==>
      stars[i].State() == Stars.Advance(old(stars[i].State()), width, height, rxs[i])
    ensures forall i :: 0 <= i < stars.Length && old(stars[i].Valid()) ==> stars[i].Valid()
    ensures forall i :: 0 <= i < shootingStars.Length ==>
      shootingStars[i].State() == ShootingStars.Advance(old(shootingStars[i].State()), width, height, cosA, sinA)
  {
    var i := 0;
    while i < stars.Length
      invariant 0 <= i <= stars.Length
      invariant forall j :: 0 <= j < i ==> stars[j].State() == Stars.Advance(old(stars[j].State()), width, height, rxs[j])
      invariant forall j :: i <= j < stars.Length ==> stars[j].State() == old(stars[j].State())
      invariant forall j :: 0 <= j < shootingStars.Length ==> shootingStars[j].State() == old(shootingStars[j].State())
    {
      stars[i].Update(width, height, rxs[i]);
      i := i + 1;
    }
    i := 0;
    while i < shootingStars.Length
      invariant 0 <= i <= shootingStars.Length
      invariant forall j :: 0 <= j < stars.Length ==> stars[j].State() == Stars.Advance(old(stars[j].State()), width, height, rxs[j])
      invariant forall j :: 0 <= j < i ==>
        shootingStars[j].State() == ShootingStars.Advance(old(shootingStars[j].State()), width, height, cosA, sinA)
      invariant forall j :: i <= j < shootingStars.Length ==> shootingStars[j].State() == old(shootingStars[j].State())
    {
      shootingStars[i].Update(width, height, cosA, sinA);
      i := i + 1;
    }
  }
}
