/** `Math.random()` as an explicit input: the k-th call returns `random(k)`. */
module RandomSource {

  /** Every draw lies in [0, 1), as `Math.random()` promises. */
  ghost predicate IsRandomStream(random: nat -> real) {
    forall k: nat :: 0.0 <= random(k) < 1.0
  }

  /** `Math.floor(r * m)`: an index in [0, m), or 0 when `m` is 0. */
  function Draw(r: real, m: nat): (k: nat)
    requires 0.0 <= r < 1.0
    ensures m == 0 ==> k == 0
    ensures m > 0 ==> k < m
  {
    var x := r * m as real;
    assert 0.0 <= x;
    assert m > 0 ==> x < m as real;
    x.Floor
  }
}
