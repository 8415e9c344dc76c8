/** The shooting star (`class ShootingStar` of script.js).
    A shooting star is dormant until launched; while active it moves along its
    fixed 45-degree heading by `speed` per frame and loses 0.015 opacity per
    frame, and it switches itself off once its opacity reaches 0 or it leaves
    the canvas past the right or bottom edge.

    The heading's `Math.cos(this.angle)` and `Math.sin(this.angle)` are passed
    in as `cosA` and `sinA`: the angle is always `Math.PI / 4`, so both are one
    fixed positive value (about 0.7071) for the whole run. */
module ShootingStars {
  import opened Draws

  /** Opacity lost per active frame. */
  const Fade: real := 0.015

  /** The fields of a shooting star, as one value. */
  datatype ShootingState = ShootingState(
    x: real,
    y: real,
    length: real,
    speed: real,
    size: real,
    opacity: real,
    angle: real,
    active: bool)

  /** An active shooting star is still visible. */
  predicate Live(s: ShootingState) {
    s.active ==> s.opacity > 0.0
  }

  /** `reset`: five draws, in the order of the source's assignments. The star
      comes back dormant, fully opaque and heading down-right. */
  function Spawn(width: nat, height: nat, rx: real, ry: real, rLength: real, rSpeed: real, rSize: real)
    : (s: ShootingState)
    requires IsDraw(rx) && IsDraw(ry) && IsDraw(rLength) && IsDraw(rSpeed) && IsDraw(rSize)
    ensures !s.active && s.opacity == 1.0 && s.angle == Pi / 4.0
    ensures 40.0 <= s.length < 120.0 && 15.0 <= s.speed < 25.0 && 1.0 <= s.size < 2.0
    ensures 0.0 <= s.x <= width as real && 0.0 <= s.y <= height as real / 2.0
  {
    ShootingState(Scale(rx, width), Scale(ry, height) / 2.0, rLength * 80.0 + 40.0, rSpeed * 10.0 + 15.0, rSize * 1.0 + 1.0, 1.0, Pi / 4.0, false)
  }

  /** `launch`: a reset followed by activation. */
  function Launched(width: nat, height: nat, rx: real, ry: real, rLength: real, rSpeed: real, rSize: real)
    : (s: ShootingState)
    requires IsDraw(rx) && IsDraw(ry) && IsDraw(rLength) && IsDraw(rSpeed) && IsDraw(rSize)
    ensures s.active && s.opacity == 1.0 && s.angle == Pi / 4.0 && Live(s)
    ensures 40.0 <= s.length < 120.0 && 15.0 <= s.speed < 25.0 && 1.0 <= s.size < 2.0
    ensures 0.0 <= s.x <= width as real && 0.0 <= s.y <= height as real / 2.0
  {
    Spawn(width, height, rx, ry, rLength, rSpeed, rSize).(active := true)
  }

  /** `update`: one frame. */
  function Advance(s: ShootingState, width: nat, height: nat, cosA: real, sinA: real): (r: ShootingState)
    // a dormant star does not move, fade or wake up
    ensures !s.active ==> r == s
    // an active one moves one step along its heading and fades by exactly Fade
    ensures s.active ==> r.x == s.x + cosA * s.speed && r.y == s.y + sinA * s.speed
    ensures s.active ==> r.opacity == s.opacity - Fade
    // and stays active exactly while it is visible and on the canvas
    ensures s.active ==> (r.active <==> r.opacity > 0.0 && r.x <= width as real && r.y <= height as real)
    ensures r.active ==> s.active
    ensures Live(r)  // in both cases: a dormant star is live vacuously
    ensures r.length == s.length && r.speed == s.speed && r.size == s.size && r.angle == s.angle
  {
    if !s.active then s
    else
      var x := s.x + cosA * s.speed;
      var y := s.y + sinA * s.speed;
      var opacity := s.opacity - Fade;
      s.(x := x, y := y, opacity := opacity,
         active := !(opacity <= 0.0 || x > width as real || y > height as real))
  }

  /** `n` frames on a canvas whose size does not change. */
  function Flight(s: ShootingState, width: nat, height: nat, cosA: real, sinA: real, n: nat): ShootingState
    decreases n
  {
    if n == 0 then s else Flight(Advance(s, width, height, cosA, sinA), width, height, cosA, sinA, n - 1)
  }

  /** A dormant shooting star stays exactly as it is, however many frames pass. */
  lemma {:induction false} DormantStaysPut(s: ShootingState, width: nat, height: nat, cosA: real, sinA: real, n: nat)
    requires !s.active
    ensures Flight(s, width, height, cosA, sinA, n) == s
    decreases n
  {
    if n > 0 {
      DormantStaysPut(Advance(s, width, height, cosA, sinA), width, height, cosA, sinA, n - 1);
    }
  }

  /** A live star whose opacity is at most `n` fade steps is dormant after `n` frames. */
  lemma {:induction false} BurnsOut(s: ShootingState, width: nat, height: nat, cosA: real, sinA: real, n: nat)
    requires Live(s)
    requires s.opacity <= Fade * n as real
    ensures !Flight(s, width, height, cosA, sinA, n).active
    decreases n
  {
    if n > 0 {
      var next := Advance(s, width, height, cosA, sinA);
      if s.active {
        BurnsOut(next, width, height, cosA, sinA, n - 1);
      } else {
        DormantStaysPut(next, width, height, cosA, sinA, n - 1);
      }
    }
  }

  /** A launched shooting star is dormant again after at most 67 frames,
      wherever it flies. */
  lemma LaunchedBurnsOutWithin67(width: nat, height: nat, rx: real, ry: real, rLength: real, rSpeed: real, rSize: real,
                                 cosA: real, sinA: real)
    requires IsDraw(rx) && IsDraw(ry) && IsDraw(rLength) && IsDraw(rSpeed) && IsDraw(rSize)
    ensures !Flight(Launched(width, height, rx, ry, rLength, rSpeed, rSize), width, height, cosA, sinA, 67).active
  {
    BurnsOut(Launched(width, height, rx, ry, rLength, rSpeed, rSize), width, height, cosA, sinA, 67);
  }

  /** While it stays visible and on the canvas, an active star after `k` frames has
      moved `k` steps along its heading and faded by `k` times Fade. */
  lemma {:induction false} SteadyFlight(s: ShootingState, width: nat, height: nat, cosA: real, sinA: real, k: nat)
    requires s.active && 0.0 < cosA && 0.0 < sinA && 0.0 <= s.speed
    requires Fade * k as real < s.opacity
    requires s.x + k as real * (cosA * s.speed) <= width as real
    requires s.y + k as real * (sinA * s.speed) <= height as real
    ensures Flight(s, width, height, cosA, sinA, k)
         == s.(x := s.x + k as real * (cosA * s.speed),
               y := s.y + k as real * (sinA * s.speed),
               opacity := s.opacity - Fade * k as real)
    decreases k
  {
    if k > 0 {
      var dx, dy := cosA * s.speed, sinA * s.speed;
      assert 0.0 <= dx && 0.0 <= dy;
      var next := Advance(s, width, height, cosA, sinA);
      assert next == s.(x := s.x + dx, y := s.y + dy, opacity := s.opacity - Fade);
      assert next.x + (k - 1) as real * dx == s.x + k as real * dx;
      assert next.y + (k - 1) as real * dy == s.y + k as real * dy;
      SteadyFlight(next, width, height, cosA, sinA, k - 1);
    }
  }

  /** A fully opaque active star that stays on the canvas for 66 frames is still
      active after them and dormant after the 67th (1 - 66 * 0.015 = 0.01 > 0, while
      1 - 67 * 0.015 < 0). */
  lemma ExactlySixtySevenFrames(s: ShootingState, width: nat, height: nat, cosA: real, sinA: real)
    requires s.active && s.opacity == 1.0 && 0.0 < cosA && 0.0 < sinA && 0.0 <= s.speed
    requires s.x + 66.0 * (cosA * s.speed) <= width as real
    requires s.y + 66.0 * (sinA * s.speed) <= height as real
    ensures Flight(s, width, height, cosA, sinA, 66).active
    ensures !Flight(s, width, height, cosA, sinA, 67).active
  {
    var dx, dy := cosA * s.speed, sinA * s.speed;
    assert 0.0 <= dx && 0.0 <= dy;
    SteadyFlight(s, width, height, cosA, sinA, 66);
    BurnsOut(s, width, height, cosA, sinA, 67);
  }

  /** A shooting star, with the fields of the source's class. */
  class ShootingStar {
    var x: real
    var y: real
    var length: real
    var speed: real
    var size: real
    var opacity: real
    var angle: real
    var active: bool

    function State(): ShootingState
      reads this
    {
      ShootingState(x, y, length, speed, size, opacity, angle, active)
    }

    constructor (width: nat, height: nat, rx: real, ry: real, rLength: real, rSpeed: real, rSize: real)
      requires IsDraw(rx) && IsDraw(ry) && IsDraw(rLength) && IsDraw(rSpeed) && IsDraw(rSize)
      ensures State() == Spawn(width, height, rx, ry, rLength, rSpeed, rSize)
    {
      new;
      Reset(width, height, rx, ry, rLength, rSpeed, rSize);
    }

    method Reset(width: nat, height: nat, rx: real, ry: real, rLength: real, rSpeed: real, rSize: real)
      requires IsDraw(rx) && IsDraw(ry) && IsDraw(rLength) && IsDraw(rSpeed) && IsDraw(rSize)
      modifies this
      ensures State() == Spawn(width, height, rx, ry, rLength, rSpeed, rSize)
    {
      x := Scale(rx, width);
      y := Scale(ry, height) / 2.0;
      length := rLength * 80.0 + 40.0;
      speed := rSpeed * 10.0 + 15.0;
      size := rSize * 1.0 + 1.0;
      opacity := 1.0;
      angle := Pi / 4.0;
      active := false;
    }

    method Update(width: nat, height: nat, cosA: real, sinA: real)
      modifies this
      ensures State() == Advance(old(State()), width, height, cosA, sinA)
    {
      if !active {
        return;
      }
      x := x + cosA * speed;
      y := y + sinA * speed;
      opacity := opacity - Fade;
      if opacity <= 0.0 || x > width as real || y > height as real {
        active := false;
      }
    }

    method Launch(width: nat, height: nat, rx: real, ry: real, rLength: real, rSpeed: real, rSize: real)
      requires IsDraw(rx) && IsDraw(ry) && IsDraw(rLength) && IsDraw(rSpeed) && IsDraw(rSize)
      modifies this
      ensures State() == Launched(width, height, rx, ry, rLength, rSpeed, rSize)
    {
      Reset(width, height, rx, ry, rLength, rSpeed, rSize);
      active := true;
    }
  }
}
