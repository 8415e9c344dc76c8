/** The two numeric facilities of the browser that the particle code relies on.
    Randomness is never generated here: every call of `Math.random()` becomes a
    parameter of the operation that consumes it, constrained by `IsDraw`. */
module Draws {

  /** `Math.PI`: the shortest decimal that rounds to the double nearest to pi. */
  const Pi: real := 3.141592653589793

  /** A value `Math.random()` can return: uniform in [0, 1). */
  predicate IsDraw(r: real) {
    0.0 <= r < 1.0
  }

  /** Scaling a draw by a non-negative extent, as `Math.random() * width` does,
      lands in [0, extent), or on 0 when the extent is 0. */
  lemma ScaledDraw(r: real, extent: real)
    requires IsDraw(r) && 0.0 <= extent
    ensures 0.0 <= r * extent <= extent
    ensures extent > 0.0 ==> r * extent < extent
  {
    if extent > 0.0 {
      assert r * extent < 1.0 * extent;
    }
  }

  /** `Math.random() * extent` for a canvas extent: a point in [0, extent), or 0
      on an empty canvas. */
  function Scale(r: real, extent: nat): (v: real)
    requires IsDraw(r)
    ensures 0.0 <= v <= extent as real
    ensures extent > 0 ==> v < extent as real
  {
    ScaledDraw(r, extent as real);
    r * extent as real
  }

  /** A value `Math.sin` can return. */
  predicate IsSine(v: real) {
    -1.0 <= v <= 1.0
  }
}
