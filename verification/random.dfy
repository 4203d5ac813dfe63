/** `Math.random()` as an input. A draw is a real in [0, 1); the source turns
    it into an index with `Math.floor(Math.random() * n)`. */
module Random {

  /** The values `Math.random()` can return. */
  type Unit = r: real | 0.0 <= r < 1.0

  /** A stream of draws, one per call of `Math.random()`. */
  type Draws = nat -> Unit

  /** `Math.floor(r * n)`: a position in a collection of `n` elements. */
  function RandomIndex(r: Unit, n: nat): (i: nat)
    requires n > 0
    ensures i < n
  {
    var x := r * n as real;
    assert 0.0 <= x < n as real;
    x.Floor
  }

  /** The index is the floor of the scaled draw: the largest integer not
      above `r * n`. */
  lemma RandomIndexIsFloor(r: Unit, n: nat)
    requires n > 0
    ensures RandomIndex(r, n) as real <= r * n as real < RandomIndex(r, n) as real + 1.0
  {
  }

  /** Every position can be drawn: the draw `i / n` selects position `i`. */
  lemma RandomIndexCovers(i: nat, n: nat)
    requires i < n
    ensures 0.0 <= i as real / n as real < 1.0
    ensures RandomIndex(i as real / n as real, n) == i
  {
    var r := i as real / n as real;
    assert r * n as real == i as real;
    RandomIndexIsFloor(r, n);
  }
}
