/** Circular buffers: the step from one slot to the next, and when slots differ. */
module Rings {

  function Advance(i: int, size: nat): (j: int)
    ensures 0 <= i < size ==> 0 <= j < size
  {
    if i + 1 >= size then 0 else i + 1
  }

  lemma MultiplesAreApart(size: nat, d: int)
    ensures d >= 1 ==> size * d >= size
    ensures d <= -1 ==> size * d + size <= 0
  {
  }

  lemma DivisionIsUnique(k: int, size: nat, q: int, r: nat)
    requires k == size * q + r && r < size
    ensures k % size == r
  {
    var d := k / size - q;
    assert size * d == r - k % size;
    MultiplesAreApart(size, d);
  }

  lemma AdvanceIsCircular(k: nat, size: nat)
    requires size > 0
    ensures Advance(k % size, size) == (k + 1) % size
  {
    var q, r := k / size, k % size;
    if r + 1 < size {
      DivisionIsUnique(k + 1, size, q, r + 1);
    } else {
      assert k + 1 == size * (q + 1);
      DivisionIsUnique(k + 1, size, q + 1, 0);
    }
  }

  /** Fewer than `size` apart, two counts fall on different slots. */
  lemma SlotsApart(k: nat, l: nat, size: nat)
    requires k < l < k + size
    ensures k % size != l % size
  {
    var q, r := k / size, k % size;
    if r + (l - k) < size {
      DivisionIsUnique(l, size, q, r + (l - k));
    } else {
      assert l == size * (q + 1) + (r + (l - k) - size);
      DivisionIsUnique(l, size, q + 1, r + (l - k) - size);
    }
  }
}
