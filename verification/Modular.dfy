/** Facts about remainders with a variable modulus, shared by the ring-shaped structures. */
module Modular {

  lemma MulGap(a: int, b: int, n: nat)
    ensures a < b ==> a * n + n <= b * n
    ensures a <= b ==> a * n <= b * n
  {
    if a < b {
      var c := b - a - 1;
      assert 0 <= c && b == a + 1 + c;
      assert b * n == a * n + n + c * n;
      assert 0 <= c * n;
    }
  }

  /** Euclidean division is unique. */
  lemma DivUnique(x: int, k: int, r: int, n: nat)
    requires 0 <= r < n && x == k * n + r
    ensures x % n == r && x / n == k
  {
    var k', r' := x / n, x % n;
    assert x == k' * n + r' && 0 <= r' < n;
    MulGap(k, k', n);
    MulGap(k', k, n);
  }

  lemma DivMod(x: int, n: nat)
    requires n > 0
    ensures x == (x / n) * n + x % n && 0 <= x % n < n
  {
  }

  /** Adding a number below the modulus either stays inside the window or wraps once. */
  lemma AddMod(x: int, d: nat, n: nat)
    requires 0 < n && d < n
    ensures (x + d) % n == if x % n + d < n then x % n + d else x % n + d - n
  {
    DivMod(x, n);
    if x % n + d < n {
      DivUnique(x + d, x / n, x % n + d, n);
    } else {
      MulGap(x / n, x / n + 1, n);
      assert (x / n + 1) * n == (x / n) * n + n;
      DivUnique(x + d, x / n + 1, x % n + d - n, n);
    }
  }

  lemma AddModulus(x: int, n: nat)
    requires n > 0
    ensures (x + n) % n == x % n
  {
    DivMod(x, n);
    assert (x / n + 1) * n == (x / n) * n + n;
    DivUnique(x + n, x / n + 1, x % n, n);
  }

  lemma SmallMod(x: nat, n: nat)
    requires x < n
    ensures x % n == x
  {
    DivUnique(x, 0, x, n);
  }

  /** Two numbers less than n apart have different remainders. */
  lemma ModDistinct(x: int, y: int, n: nat)
    requires n > 0 && x < y < x + n
    ensures x % n != y % n
  {
    AddMod(x, y - x, n);
  }

  lemma ModDistinctAny(x: int, y: int, n: nat)
    requires n > 0 && x != y && x < y + n && y < x + n
    ensures x % n != y % n
  {
    if x < y { ModDistinct(x, y, n); } else { ModDistinct(y, x, n); }
  }

  /** The slot of an index, counted round a buffer; indices may be negative. */
  function Cell(idx: int, size: nat): (pos: nat)
    requires size > 0
    ensures pos < size
    decreases if idx < 0 then -idx else idx
  {
    if idx < 0 then (if idx + size < 0 then Cell(idx + size, size) else idx + size)
    else if idx < size then idx else Cell(idx - size, size)
  }

  lemma {:induction false} CellIsRemainder(idx: int, size: nat)
    requires size > 0
    ensures Cell(idx, size) == idx % size
    decreases if idx < 0 then -idx else idx
  {
    if idx < 0 {
      AddModulus(idx, size);
      if idx + size < 0 {
        CellIsRemainder(idx + size, size);
      } else {
        SmallMod(idx + size, size);
      }
    } else if idx < size {
      SmallMod(idx, size);
    } else {
      AddModulus(idx - size, size);
      CellIsRemainder(idx - size, size);
    }
  }

  lemma CellDistinct(x: int, y: int, size: nat)
    requires size > 0 && x != y && x < y + size && y < x + size
    ensures Cell(x, size) != Cell(y, size)
  {
    CellIsRemainder(x, size);
    CellIsRemainder(y, size);
    ModDistinctAny(x, y, size);
  }

  lemma CellAdd(x: int, d: nat, size: nat)
    requires size > 0 && d < size
    ensures Cell(x + d, size) == if Cell(x, size) + d < size then Cell(x, size) + d else Cell(x, size) + d - size
  {
    CellIsRemainder(x, size);
    CellIsRemainder(x + d, size);
    AddMod(x, d, size);
  }

  /** x / 2, rounded up */
  function Half(x: nat): (h: nat)
    ensures x <= 2 * h <= x + 1
  {
    if x < 2 then x else 1 + Half(x - 2)
  }
}
