/** The twinkling background star (`class Star` of script.js).
    A star drifts down the starfield canvas, wraps to the top edge when it falls
    past the bottom, and oscillates its opacity by `twinkleSpeed` per frame,
    reversing direction whenever the new opacity reaches 0 or 1. */
module Stars {
  import opened Draws

  /** The fields of a star, as one value. */
  datatype StarState = StarState(
    x: real,
    y: real,
    size: real,
    speed: real,
    opacity: real,
    twinkleSpeed: real,
    twinkleDirection: int)

  /** The opacity invariant. The code reverses the direction but never clamps,
      so the opacity may overshoot [0, 1] by one step; what holds is that a star
      heading up is at most 1 and not below -twinkleSpeed, and a star heading
      down is at least 0 and not above 1 + twinkleSpeed. */
  predicate Twinkling(s: StarState) {
    && (s.twinkleDirection == 1 || s.twinkleDirection == -1)
    && 0.0 <= s.twinkleSpeed
    && (s.twinkleDirection == 1 ==> -s.twinkleSpeed <= s.opacity <= 1.0)
    && (s.twinkleDirection == -1 ==> 0.0 <= s.opacity <= 1.0 + s.twinkleSpeed)
  }

  /** The ranges `reset` draws the fixed attributes from, and the opacity invariant. */
  predicate Good(s: StarState) {
    && 0.0 <= s.size < 2.0
    && 0.1 <= s.speed < 0.6
    && 0.01 <= s.twinkleSpeed < 0.03
    && Twinkling(s)
  }

  /** The star lies on a canvas of the given size (edges included). */
  predicate OnCanvas(s: StarState, width: nat, height: nat) {
    0.0 <= s.x <= width as real && 0.0 <= s.y <= height as real
  }

  /** `reset`: seven draws, consumed in the order of the source's assignments. */
  function Spawn(width: nat, height: nat, rx: real, ry: real, rSize: real, rSpeed: real,
                 rOpacity: real, rTwinkle: real, rDirection: real): (s: StarState)
    requires IsDraw(rx) && IsDraw(ry) && IsDraw(rSize) && IsDraw(rSpeed)
    requires IsDraw(rOpacity) && IsDraw(rTwinkle) && IsDraw(rDirection)
    ensures Good(s)
    ensures OnCanvas(s, width, height)
    ensures 0.0 <= s.opacity < 1.0
    ensures s.twinkleDirection == 1 <==> rDirection > 0.5
  {
    var direction := if rDirection > 0.5 then 1 else -1;
    StarState(Scale(rx, width), Scale(ry, height), rSize * 2.0, rSpeed * 0.5 + 0.1, rOpacity, rTwinkle * 0.02 + 0.01, direction)
  }

  /** `update`: one frame. `rx` is the draw the source takes for the new
      horizontal position, used only when the star wraps. */
  function Advance(s: StarState, width: nat, height: nat, rx: real): (r: StarState)
    requires IsDraw(rx)
    // the twinkle step and its reversal at the thresholds
    ensures r.opacity == s.opacity + s.twinkleSpeed * s.twinkleDirection as real
    ensures Twinkling(s) ==> (r.twinkleDirection == -s.twinkleDirection <==> r.opacity <= 0.0 || r.opacity >= 1.0)
    // the drift, and the wrap that moves only the position
    ensures s.y + s.speed > height as real ==> r.y == 0.0 && 0.0 <= r.x && (r.x < width as real || width == 0)
    ensures s.y + s.speed <= height as real ==> r.y == s.y + s.speed && r.x == s.x
    ensures r.size == s.size && r.speed == s.speed && r.twinkleSpeed == s.twinkleSpeed
    // what every frame preserves
    ensures Twinkling(s) ==> Twinkling(r)
    ensures Good(s) ==> Good(r)
    ensures Good(s) && OnCanvas(s, width, height) ==> OnCanvas(r, width, height)
  {
    var opacity := s.opacity + s.twinkleSpeed * s.twinkleDirection as real;
    var direction := if opacity <= 0.0 || opacity >= 1.0 then s.twinkleDirection * -1 else s.twinkleDirection;
    var y := s.y + s.speed;
    if y > height as real then
      s.(opacity := opacity, twinkleDirection := direction, y := 0.0, x := Scale(rx, width))
    else
      s.(opacity := opacity, twinkleDirection := direction, y := y)
  }

  predicate AllDraws(rs: seq<real>) {
    forall i :: 0 <= i < |rs| ==> IsDraw(rs[i])
  }

  /** One `update` per element of `rxs`, on a canvas whose size does not change. */
  function Drift(s: StarState, width: nat, height: nat, rxs: seq<real>): StarState
    requires AllDraws(rxs)
    decreases |rxs|
  {
    if rxs == [] then s else Drift(Advance(s, width, height, rxs[0]), width, height, rxs[1..])
  }

  /** After any number of frames the opacity stays within one twinkle step of
      [0, 1], the direction is still +1 or -1, and the star is still on the canvas. */
  lemma {:induction false} TwinkleStaysBounded(s: StarState, width: nat, height: nat, rxs: seq<real>)
    requires AllDraws(rxs)
    decreases |rxs|
    requires Good(s) && OnCanvas(s, width, height)
    ensures var r := Drift(s, width, height, rxs);
      && Good(r) && OnCanvas(r, width, height)
      && r.twinkleSpeed == s.twinkleSpeed
      && -s.twinkleSpeed <= r.opacity <= 1.0 + s.twinkleSpeed
      && (r.twinkleDirection == 1 || r.twinkleDirection == -1)
      && r.size == s.size && r.speed == s.speed
  {
    if rxs != [] {
      TwinkleStaysBounded(Advance(s, width, height, rxs[0]), width, height, rxs[1..]);
    }
  }

  /** A freshly reset star keeps that bound forever. */
  lemma SpawnedStarTwinklesInBounds(width: nat, height: nat, rx: real, ry: real, rSize: real, rSpeed: real,
                                    rOpacity: real, rTwinkle: real, rDirection: real, rxs: seq<real>)
    requires IsDraw(rx) && IsDraw(ry) && IsDraw(rSize) && IsDraw(rSpeed)
    requires IsDraw(rOpacity) && IsDraw(rTwinkle) && IsDraw(rDirection)
    requires AllDraws(rxs)
    ensures var r := Drift(Spawn(width, height, rx, ry, rSize, rSpeed, rOpacity, rTwinkle, rDirection), width, height, rxs);
      -0.03 < r.opacity < 1.03
  {
    var s := Spawn(width, height, rx, ry, rSize, rSpeed, rOpacity, rTwinkle, rDirection);
    TwinkleStaysBounded(s, width, height, rxs);
  }

  /** A twinkling star, with the fields of the source's class. */
  class Star {
    var x: real
    var y: real
    var size: real
    var speed: real
    var opacity: real
    var twinkleSpeed: real
    var twinkleDirection: int

    function State(): StarState
      reads this
    {
      StarState(x, y, size, speed, opacity, twinkleSpeed, twinkleDirection)
    }

    predicate Valid()
      reads this
    {
      Good(State())
    }

    constructor (width: nat, height: nat, rx: real, ry: real, rSize: real, rSpeed: real,
                 rOpacity: real, rTwinkle: real, rDirection: real)
      requires IsDraw(rx) && IsDraw(ry) && IsDraw(rSize) && IsDraw(rSpeed)
      requires IsDraw(rOpacity) && IsDraw(rTwinkle) && IsDraw(rDirection)
      ensures State() == Spawn(width, height, rx, ry, rSize, rSpeed, rOpacity, rTwinkle, rDirection)
      ensures Valid() && OnCanvas(State(), width, height)
    {
      new;
      Reset(width, height, rx, ry, rSize, rSpeed, rOpacity, rTwinkle, rDirection);
    }

    method Reset(width: nat, height: nat, rx: real, ry: real, rSize: real, rSpeed: real,
                 rOpacity: real, rTwinkle: real, rDirection: real)
      requires IsDraw(rx) && IsDraw(ry) && IsDraw(rSize) && IsDraw(rSpeed)
      requires IsDraw(rOpacity) && IsDraw(rTwinkle) && IsDraw(rDirection)
      modifies this
      ensures State() == Spawn(width, height, rx, ry, rSize, rSpeed, rOpacity, rTwinkle, rDirection)
      ensures Valid() && OnCanvas(State(), width, height)
    {
      x := Scale(rx, width);
      y := Scale(ry, height);
      size := rSize * 2.0;
      speed := rSpeed * 0.5 + 0.1;
      opacity := rOpacity;
      twinkleSpeed := rTwinkle * 0.02 + 0.01;
      twinkleDirection := if rDirection > 0.5 then 1 else -1;
    }

    method Update(width: nat, height: nat, rx: real)
      requires IsDraw(rx)
      modifies this
      ensures State() == Advance(old(State()), width, height, rx)
      ensures old(Valid()) ==> Valid()
    {
      opacity := opacity + twinkleSpeed * twinkleDirection as real;
      if opacity <= 0.0 || opacity >= 1.0 {
        twinkleDirection := twinkleDirection * -1;
      }
      y := y + speed;
      if y > height as real {
        y := 0.0;
        x := Scale(rx, width);
      }
    }
  }
}
