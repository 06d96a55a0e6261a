/** Powers of two and the bit test `r & (1 << t)` used to pair matrix rows. */
module Bits {
  function Pow2(n: nat): (r: nat)
    ensures r >= 1
  {
    if n == 0 then 1 else 2 * Pow2(n - 1)
  }

  /** Bit t of x is set. */
  predicate Bit(x: nat, t: nat)
  {
    if t == 0 then x % 2 == 1 else Bit(x / 2, t - 1)
  }

  /** Adding 2^t toggles bit t. */
  lemma {:induction false} AddPow2FlipsBit(x: nat, t: nat)
    ensures Bit(x + Pow2(t), t) == !Bit(x, t)
  {
    if t > 0 {
      assert (x + Pow2(t)) / 2 == x / 2 + Pow2(t - 1);
      AddPow2FlipsBit(x / 2, t - 1);
    }
  }

  /** Subtracting 2^t clears bit t when that bit is set. */
  lemma {:induction false} SubPow2ClearsBit(x: nat, t: nat)
    requires Bit(x, t)
    ensures x >= Pow2(t) && !Bit(x - Pow2(t), t)
  {
    if t > 0 {
      SubPow2ClearsBit(x / 2, t - 1);
      assert (x - Pow2(t)) / 2 == x / 2 - Pow2(t - 1);
    }
  }

  /** Within [0, 2^n), a row with bit t clear has its partner row in range. */
  lemma {:induction false} PartnerInRange(x: nat, t: nat, n: nat)
    requires t < n && x < Pow2(n) && !Bit(x, t)
    ensures x + Pow2(t) < Pow2(n)
  {
    var h := Pow2(n - 1);
    assert Pow2(n) == 2 * h;
    var q, b := x / 2, x % 2;
    assert x == 2 * q + b && b <= 1;
    if t > 0 {
      assert q < h;
      assert !Bit(q, t - 1);
      PartnerInRange(q, t - 1, n - 1);
      assert Pow2(t) == 2 * Pow2(t - 1);
    } else {
      assert b == 0;
    }
  }

  /** Rows (or columns) i and i + 2^t are paired when bit t of i is clear. */
  predicate Done(i: nat, r: nat, t: nat)
  {
    if Bit(i, t) then i - Pow2(t) < r else i < r
  }

  /** Stepping past row r changes Done only for r and its partner, and only when r is a low row. */
  lemma DoneAdvance(i: nat, r: nat, t: nat)
    requires (i != r && i != r + Pow2(t)) || Bit(r, t)
    ensures Done(i, r + 1, t) == Done(i, r, t)
  {
    AddPow2FlipsBit(r, t);
  }

  /** The rows (or columns) 0..size-1 split into pairs (i, i + 2^t). */
  predicate Fits(size: nat, t: nat)
  {
    (forall i: nat :: i < size && !Bit(i, t) ==> i + Pow2(t) < size) &&
    (forall i: nat :: i < size && Bit(i, t) ==> i >= Pow2(t))
  }

  lemma PowerOfTwoFits(n: nat, t: nat)
    requires t < n
    ensures Fits(Pow2(n), t)
  {
    forall i: nat | i < Pow2(n) && !Bit(i, t) ensures i + Pow2(t) < Pow2(n) {
      PartnerInRange(i, t, n);
    }
    forall i: nat | i < Pow2(n) && Bit(i, t) ensures i >= Pow2(t) {
      SubPow2ClearsBit(i, t);
    }
  }
}
