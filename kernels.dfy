/**
 * A 2x2 kernel applied to qubit t of a 2^n x 2^n matrix: rows (or columns)
 * i and i + 2^t, with bit t of i clear, are combined pairwise. This is the
 * pairing loop of apply_kernel_to and apply_kernel_from_right, as spelled out
 * in the commented reference code of the X gate. A matrix is a sequence of
 * rows; from the left whole rows are combined, from the right every row is
 * multiplied by the kernel on its own.
 */
module Kernels {
  import opened ComplexNum
  import opened Bits

  /** [[a, b], [c, d]] */
  datatype Kernel = Kernel(a: Complex, b: Complex, c: Complex, d: Complex)

  type Vec = seq<Complex>
  type Mat = seq<Vec>

  const IdKernel: Kernel := Kernel(One, Zero, Zero, One)

  /** Every row of m has cols entries. */
  predicate Rect(m: Mat, cols: nat)
  {
    forall i :: 0 <= i < |m| ==> |m[i]| == cols
  }

  /** The kernel product k * h. */
  function KMul(k: Kernel, h: Kernel): Kernel
  {
    Kernel(Add(Mul(k.a, h.a), Mul(k.b, h.c)), Add(Mul(k.a, h.b), Mul(k.b, h.d)),
           Add(Mul(k.c, h.a), Mul(k.d, h.c)), Add(Mul(k.c, h.b), Mul(k.d, h.d)))
  }

  function KTranspose(k: Kernel): Kernel
  {
    Kernel(k.a, k.c, k.b, k.d)
  }

  /** p * u + q * v, entry by entry. */
  function VLin(p: Complex, u: Vec, q: Complex, v: Vec): (w: Vec)
    requires |u| == |v|
    ensures |w| == |u|
  {
    seq(|u|, j requires 0 <= j < |u| => Lin(p, u[j], q, v[j]))
  }

  /** The row vector v times the kernel on bit t: entries j and j + 2^t, bit t of j clear, are mixed. */
  function VTimes(k: Kernel, t: nat, v: Vec): (w: Vec)
    requires Fits(|v|, t)
    ensures |w| == |v|
  {
    seq(|v|, j requires 0 <= j < |v| => TimesAt(k, t, v, j))
  }

  /** Entry j of v times the kernel on bit t. */
  function TimesAt(k: Kernel, t: nat, v: Vec, j: nat): Complex
    requires Fits(|v|, t) && j < |v|
  {
    if !Bit(j, t) then Lin(k.a, v[j], k.c, v[j + Pow2(t)]) else Lin(k.b, v[j - Pow2(t)], k.d, v[j])
  }

  /** k * m on qubit t: rows i and i + 2^t of m are combined. */
  function ApplyRows(k: Kernel, t: nat, m: Mat, cols: nat): (r: Mat)
    requires Rect(m, cols) && Fits(|m|, t)
    ensures |r| == |m| && Rect(r, cols)
  {
    seq(|m|, i requires 0 <= i < |m| => RowAt(k, t, m, cols, i))
  }

  /** Row i of k * m on qubit t. */
  function RowAt(k: Kernel, t: nat, m: Mat, cols: nat, i: nat): (r: Vec)
    requires Rect(m, cols) && Fits(|m|, t) && i < |m|
    ensures |r| == cols
  {
    if !Bit(i, t) then VLin(k.a, m[i], k.b, m[i + Pow2(t)]) else VLin(k.c, m[i - Pow2(t)], k.d, m[i])
  }

  /** m * k on qubit t: every row is multiplied by the kernel. */
  function ApplyCols(k: Kernel, t: nat, m: Mat, cols: nat): (r: Mat)
    requires Rect(m, cols) && Fits(cols, t)
    ensures |r| == |m| && Rect(r, cols)
  {
    seq(|m|, i requires 0 <= i < |m| => VTimes(k, t, m[i]))
  }

  function Identity(size: nat): (r: Mat)
    ensures |r| == size && Rect(r, size)
  {
    seq(size, i requires 0 <= i < size => UnitRow(size, i))
  }

  /** Row i of the identity: one at column i, zero elsewhere. */
  function UnitRow(size: nat, i: nat): (r: Vec)
    ensures |r| == size
  {
    seq(size, j requires 0 <= j < size => Delta(i, j))
  }

  function Delta(i: nat, j: nat): Complex
  {
    if i == j then One else Zero
  }

  function Transpose(m: Mat, cols: nat): (r: Mat)
    requires Rect(m, cols)
    ensures |r| == cols && Rect(r, |m|)
  {
    seq(cols, j requires 0 <= j < cols => Column(m, cols, j))
  }

  /** Column j of m. */
  function Column(m: Mat, cols: nat, j: nat): (c: Vec)
    requires Rect(m, cols) && j < cols
    ensures |c| == |m|
  {
    seq(|m|, i requires 0 <= i < |m| => m[i][j])
  }

  /** One entry of ApplyRows. */
  lemma RowsAt(k: Kernel, t: nat, m: Mat, cols: nat, i: nat, j: nat)
    requires Rect(m, cols) && Fits(|m|, t) && i < |m| && j < cols
    ensures !Bit(i, t) ==>
      i + Pow2(t) < |m| && ApplyRows(k, t, m, cols)[i][j] == Lin(k.a, m[i][j], k.b, m[i + Pow2(t)][j])
    ensures Bit(i, t) ==>
      i >= Pow2(t) && ApplyRows(k, t, m, cols)[i][j] == Lin(k.c, m[i - Pow2(t)][j], k.d, m[i][j])
  {
  }

  /** One entry of ApplyCols. */
  lemma ColsAt(k: Kernel, t: nat, m: Mat, cols: nat, i: nat, j: nat)
    requires Rect(m, cols) && Fits(cols, t) && i < |m| && j < cols
    ensures !Bit(j, t) ==>
      j + Pow2(t) < cols && ApplyCols(k, t, m, cols)[i][j] == Lin(k.a, m[i][j], k.c, m[i][j + Pow2(t)])
    ensures Bit(j, t) ==>
      j >= Pow2(t) && ApplyCols(k, t, m, cols)[i][j] == Lin(k.b, m[i][j - Pow2(t)], k.d, m[i][j])
  {
  }

  lemma VLinCompose(p: Complex, q: Complex, a: Complex, b: Complex, c: Complex, d: Complex, x: Vec, y: Vec)
    requires |x| == |y|
    ensures VLin(p, VLin(a, x, b, y), q, VLin(c, x, d, y))
         == VLin(Add(Mul(p, a), Mul(q, c)), x, Add(Mul(p, b), Mul(q, d)), y)
  {
    var lhs := VLin(p, VLin(a, x, b, y), q, VLin(c, x, d, y));
    var rhs := VLin(Add(Mul(p, a), Mul(q, c)), x, Add(Mul(p, b), Mul(q, d)), y);
    forall j | 0 <= j < |x| ensures lhs[j] == rhs[j] {
      LinCompose(p, q, a, b, c, d, x[j], y[j]);
    }
  }

  /** Applying h and then k to the same qubit is applying the product k * h. */
  lemma RowsCompose(k: Kernel, h: Kernel, t: nat, m: Mat, cols: nat)
    requires Rect(m, cols) && Fits(|m|, t)
    ensures ApplyRows(k, t, ApplyRows(h, t, m, cols), cols) == ApplyRows(KMul(k, h), t, m, cols)
  {
    var lhs := ApplyRows(k, t, ApplyRows(h, t, m, cols), cols);
    var rhs := ApplyRows(KMul(k, h), t, m, cols);
    forall i | 0 <= i < |m| ensures lhs[i] == rhs[i] {
      RowsComposeAt(k, h, t, m, cols, i);
    }
  }

  lemma RowsComposeAt(k: Kernel, h: Kernel, t: nat, m: Mat, cols: nat, i: nat)
    requires Rect(m, cols) && Fits(|m|, t) && i < |m|
    ensures ApplyRows(k, t, ApplyRows(h, t, m, cols), cols)[i] == ApplyRows(KMul(k, h), t, m, cols)[i]
  {
    var s := Pow2(t);
    var once := ApplyRows(h, t, m, cols);
    if !Bit(i, t) {
      AddPow2FlipsBit(i, t);
      assert i + s - s == i;
      assert once[i] == VLin(h.a, m[i], h.b, m[i + s]);
      assert once[i + s] == VLin(h.c, m[i], h.d, m[i + s]);
      VLinCompose(k.a, k.b, h.a, h.b, h.c, h.d, m[i], m[i + s]);
    } else {
      SubPow2ClearsBit(i, t);
      assert i - s + s == i;
      assert once[i - s] == VLin(h.a, m[i - s], h.b, m[i]);
      assert once[i] == VLin(h.c, m[i - s], h.d, m[i]);
      VLinCompose(k.c, k.d, h.a, h.b, h.c, h.d, m[i - s], m[i]);
    }
  }

  /** Multiplying a row vector by h and then by k on the same bit is multiplying it by h * k. */
  lemma VTimesCompose(k: Kernel, h: Kernel, t: nat, v: Vec)
    requires Fits(|v|, t)
    ensures VTimes(k, t, VTimes(h, t, v)) == VTimes(KMul(h, k), t, v)
  {
    var lhs := VTimes(k, t, VTimes(h, t, v));
    var rhs := VTimes(KMul(h, k), t, v);
    forall j | 0 <= j < |v| ensures lhs[j] == rhs[j] {
      VTimesComposeAt(k, h, t, v, j);
    }
  }

  lemma VTimesComposeAt(k: Kernel, h: Kernel, t: nat, v: Vec, j: nat)
    requires Fits(|v|, t) && j < |v|
    ensures VTimes(k, t, VTimes(h, t, v))[j] == VTimes(KMul(h, k), t, v)[j]
  {
    var s := Pow2(t);
    var once := VTimes(h, t, v);
    if !Bit(j, t) {
      AddPow2FlipsBit(j, t);
      assert j + s - s == j;
      assert once[j] == Lin(h.a, v[j], h.c, v[j + s]);
      assert once[j + s] == Lin(h.b, v[j], h.d, v[j + s]);
      LinComposeRight(k.a, k.c, h.a, h.b, h.c, h.d, v[j], v[j + s]);
    } else {
      SubPow2ClearsBit(j, t);
      assert j - s + s == j;
      assert once[j - s] == Lin(h.a, v[j - s], h.c, v[j]);
      assert once[j] == Lin(h.b, v[j - s], h.d, v[j]);
      LinComposeRight(k.b, k.d, h.a, h.b, h.c, h.d, v[j - s], v[j]);
    }
  }

  /** Applying h and then k from the right is applying the product h * k from the right. */
  lemma ColsCompose(k: Kernel, h: Kernel, t: nat, m: Mat, cols: nat)
    requires Rect(m, cols) && Fits(cols, t)
    ensures ApplyCols(k, t, ApplyCols(h, t, m, cols), cols) == ApplyCols(KMul(h, k), t, m, cols)
  {
    var lhs := ApplyCols(k, t, ApplyCols(h, t, m, cols), cols);
    var rhs := ApplyCols(KMul(h, k), t, m, cols);
    forall i | 0 <= i < |m| ensures lhs[i] == rhs[i] {
      VTimesCompose(k, h, t, m[i]);
    }
  }

  /** The identity kernel changes nothing. */
  lemma RowsIdentity(t: nat, m: Mat, cols: nat)
    requires Rect(m, cols) && Fits(|m|, t)
    ensures ApplyRows(IdKernel, t, m, cols) == m
  {
    var r := ApplyRows(IdKernel, t, m, cols);
    forall i | 0 <= i < |m| ensures r[i] == m[i] {
      forall j | 0 <= j < cols ensures r[i][j] == m[i][j] {
        RowsAt(IdKernel, t, m, cols, i, j);
        if !Bit(i, t) {
          LinSelects(m[i][j], m[i + Pow2(t)][j]);
        } else {
          LinSelects(m[i - Pow2(t)][j], m[i][j]);
        }
      }
    }
  }

  lemma ColsIdentity(t: nat, m: Mat, cols: nat)
    requires Rect(m, cols) && Fits(cols, t)
    ensures ApplyCols(IdKernel, t, m, cols) == m
  {
    var r := ApplyCols(IdKernel, t, m, cols);
    forall i | 0 <= i < |m| ensures r[i] == m[i] {
      forall j | 0 <= j < cols ensures r[i][j] == m[i][j] {
        ColsAt(IdKernel, t, m, cols, i, j);
        if !Bit(j, t) {
          LinSelects(m[i][j], m[i][j + Pow2(t)]);
        } else {
          LinSelects(m[i][j - Pow2(t)], m[i][j]);
        }
      }
    }
  }

  /** Acting from the right with k is acting from the left with k transposed on the transpose. */
  lemma ColsAreTransposedRows(k: Kernel, t: nat, m: Mat, cols: nat)
    requires Rect(m, cols) && Fits(cols, t)
    ensures Transpose(ApplyCols(k, t, m, cols), cols) == ApplyRows(KTranspose(k), t, Transpose(m, cols), |m|)
  {
    var lhs := Transpose(ApplyCols(k, t, m, cols), cols);
    var rhs := ApplyRows(KTranspose(k), t, Transpose(m, cols), |m|);
    forall j | 0 <= j < cols ensures lhs[j] == rhs[j] {
      forall i | 0 <= i < |m| ensures lhs[j][i] == rhs[j][i] {
        TransposedEntry(k, t, m, cols, i, j);
      }
    }
  }

  lemma TransposedEntry(k: Kernel, t: nat, m: Mat, cols: nat, i: nat, j: nat)
    requires Rect(m, cols) && Fits(cols, t) && i < |m| && j < cols
    ensures Transpose(ApplyCols(k, t, m, cols), cols)[j][i] == ApplyRows(KTranspose(k), t, Transpose(m, cols), |m|)[j][i]
  {
    var mt := Transpose(m, cols);
    var ac := ApplyCols(k, t, m, cols);
    ColsAt(k, t, m, cols, i, j);
    RowsAt(KTranspose(k), t, mt, |m|, j, i);
    assert Transpose(ac, cols)[j][i] == ac[i][j];
    assert mt[j][i] == m[i][j];
    if !Bit(j, t) {
      assert mt[j + Pow2(t)][i] == m[i][j + Pow2(t)];
    } else {
      assert mt[j - Pow2(t)][i] == m[i][j - Pow2(t)];
    }
  }

  /** The entries of a matrix held in a two-dimensional array. */
  function Contents(a: array2<Complex>): (m: Mat)
    reads a
    ensures |m| == a.Length0 && Rect(m, a.Length1)
  {
    seq(a.Length0, i requires 0 <= i < a.Length0 reads a => ArrayRow(a, i))
  }

  function ArrayRow(a: array2<Complex>, i: nat): (r: Vec)
    requires i < a.Length0
    reads a
    ensures |r| == a.Length1
  {
    seq(a.Length1, j requires 0 <= j < a.Length1 reads a => a[i, j])
  }

  /** Rows lo and hi of m replaced by k applied to that pair. */
  function PairRows(m: Mat, cols: nat, k: Kernel, lo: nat, hi: nat): (r: Mat)
    requires Rect(m, cols) && lo < hi < |m|
    ensures |r| == |m| && Rect(r, cols)
  {
    m[lo := VLin(k.a, m[lo], k.b, m[hi])][hi := VLin(k.c, m[lo], k.d, m[hi])]
  }

  /** Entries lo and hi of v replaced by that pair times k. */
  function PairVec(v: Vec, k: Kernel, lo: nat, hi: nat): (w: Vec)
    requires lo < hi < |v|
    ensures |w| == |v|
  {
    v[lo := Lin(k.a, v[lo], k.c, v[hi])][hi := Lin(k.b, v[lo], k.d, v[hi])]
  }

  /** Columns lo and hi of m replaced by that pair times k. */
  function PairCols(m: Mat, cols: nat, k: Kernel, lo: nat, hi: nat): (r: Mat)
    requires Rect(m, cols) && lo < hi < cols
    ensures |r| == |m| && Rect(r, cols)
  {
    seq(|m|, i requires 0 <= i < |m| => PairVec(m[i], k, lo, hi))
  }

  /** ApplyRows on the rows already visited by a sweep that stopped before row r. */
  function RowsUpTo(k: Kernel, t: nat, m: Mat, cols: nat, r: nat): (p: Mat)
    requires Rect(m, cols) && Fits(|m|, t)
    ensures |p| == |m| && Rect(p, cols)
  {
    seq(|m|, i requires 0 <= i < |m| => SweptRow(k, t, m, cols, r, i))
  }

  function SweptRow(k: Kernel, t: nat, m: Mat, cols: nat, r: nat, i: nat): (row: Vec)
    requires Rect(m, cols) && Fits(|m|, t) && i < |m|
    ensures |row| == cols
  {
    if Done(i, r, t) then RowAt(k, t, m, cols, i) else m[i]
  }

  /** VTimes on the entries already visited by a sweep that stopped before entry c. */
  function VecUpTo(k: Kernel, t: nat, v: Vec, c: nat): (w: Vec)
    requires Fits(|v|, t)
    ensures |w| == |v|
  {
    seq(|v|, j requires 0 <= j < |v| => SweptEntry(k, t, v, c, j))
  }

  function SweptEntry(k: Kernel, t: nat, v: Vec, c: nat, j: nat): Complex
    requires Fits(|v|, t) && j < |v|
  {
    if Done(j, c, t) then TimesAt(k, t, v, j) else v[j]
  }

  /** ApplyCols on the columns already visited by a sweep that stopped before column c. */
  function ColsUpTo(k: Kernel, t: nat, m: Mat, cols: nat, c: nat): (p: Mat)
    requires Rect(m, cols) && Fits(cols, t)
    ensures |p| == |m| && Rect(p, cols)
  {
    seq(|m|, i requires 0 <= i < |m| => VecUpTo(k, t, m[i], c))
  }

  lemma RowsSweepStep(k: Kernel, t: nat, m: Mat, cols: nat, r: nat)
    requires Rect(m, cols) && Fits(|m|, t) && r < |m|
    ensures !Bit(r, t) ==> (r + Pow2(t) < |m| &&
      RowsUpTo(k, t, m, cols, r + 1) == PairRows(RowsUpTo(k, t, m, cols, r), cols, k, r, r + Pow2(t)))
    ensures Bit(r, t) ==> RowsUpTo(k, t, m, cols, r + 1) == RowsUpTo(k, t, m, cols, r)
  {
    var p := RowsUpTo(k, t, m, cols, r);
    var q := RowsUpTo(k, t, m, cols, r + 1);
    var target := if !Bit(r, t) then PairRows(p, cols, k, r, r + Pow2(t)) else p;
    forall i | 0 <= i < |m| ensures q[i] == target[i] {
      RowsStepAt(k, t, m, cols, r, i);
    }
  }

  lemma RowsStepAt(k: Kernel, t: nat, m: Mat, cols: nat, r: nat, i: nat)
    requires Rect(m, cols) && Fits(|m|, t) && r < |m| && i < |m|
    ensures !Bit(r, t) ==>
      r + Pow2(t) < |m| &&
      RowsUpTo(k, t, m, cols, r + 1)[i] == PairRows(RowsUpTo(k, t, m, cols, r), cols, k, r, r + Pow2(t))[i]
    ensures Bit(r, t) ==> RowsUpTo(k, t, m, cols, r + 1)[i] == RowsUpTo(k, t, m, cols, r)[i]
  {
    var s := Pow2(t);
    var ar := ApplyRows(k, t, m, cols);
    var p := RowsUpTo(k, t, m, cols, r);
    var q := RowsUpTo(k, t, m, cols, r + 1);
    AddPow2FlipsBit(r, t);
    if Bit(r, t) || (i != r && i != r + s) {
      DoneAdvance(i, r, t);
    } else {
      assert r + s - s == r;
      assert Done(r, r + 1, t) && !Done(r, r, t);
      assert Done(r + s, r + 1, t) && !Done(r + s, r, t);
      assert p[r] == m[r] && p[r + s] == m[r + s];
      assert ar[r] == VLin(k.a, m[r], k.b, m[r + s]);
      assert ar[r + s] == VLin(k.c, m[r], k.d, m[r + s]);
    }
  }

  lemma VecSweepStep(k: Kernel, t: nat, v: Vec, c: nat)
    requires Fits(|v|, t) && c < |v|
    ensures !Bit(c, t) ==> (c + Pow2(t) < |v| &&
      VecUpTo(k, t, v, c + 1) == PairVec(VecUpTo(k, t, v, c), k, c, c + Pow2(t)))
    ensures Bit(c, t) ==> VecUpTo(k, t, v, c + 1) == VecUpTo(k, t, v, c)
  {
    var p := VecUpTo(k, t, v, c);
    var q := VecUpTo(k, t, v, c + 1);
    var target := if !Bit(c, t) then PairVec(p, k, c, c + Pow2(t)) else p;
    forall j | 0 <= j < |v| ensures q[j] == target[j] {
      VecStepAt(k, t, v, c, j);
    }
  }

  lemma VecStepAt(k: Kernel, t: nat, v: Vec, c: nat, j: nat)
    requires Fits(|v|, t) && c < |v| && j < |v|
    ensures !Bit(c, t) ==>
      c + Pow2(t) < |v| &&
      VecUpTo(k, t, v, c + 1)[j] == PairVec(VecUpTo(k, t, v, c), k, c, c + Pow2(t))[j]
    ensures Bit(c, t) ==> VecUpTo(k, t, v, c + 1)[j] == VecUpTo(k, t, v, c)[j]
  {
    var s := Pow2(t);
    var vt := VTimes(k, t, v);
    var p := VecUpTo(k, t, v, c);
    var q := VecUpTo(k, t, v, c + 1);
    AddPow2FlipsBit(c, t);
    if Bit(c, t) || (j != c && j != c + s) {
      DoneAdvance(j, c, t);
    } else {
      assert c + s - s == c;
      assert Done(c, c + 1, t) && !Done(c, c, t);
      assert Done(c + s, c + 1, t) && !Done(c + s, c, t);
      assert p[c] == v[c] && p[c + s] == v[c + s];
      assert vt[c] == Lin(k.a, v[c], k.c, v[c + s]);
      assert vt[c + s] == Lin(k.b, v[c], k.d, v[c + s]);
    }
  }

  lemma ColsSweepStep(k: Kernel, t: nat, m: Mat, cols: nat, c: nat)
    requires Rect(m, cols) && Fits(cols, t) && c < cols
    ensures !Bit(c, t) ==> (c + Pow2(t) < cols &&
      ColsUpTo(k, t, m, cols, c + 1) == PairCols(ColsUpTo(k, t, m, cols, c), cols, k, c, c + Pow2(t)))
    ensures Bit(c, t) ==> ColsUpTo(k, t, m, cols, c + 1) == ColsUpTo(k, t, m, cols, c)
  {
    var p := ColsUpTo(k, t, m, cols, c);
    var q := ColsUpTo(k, t, m, cols, c + 1);
    var target := if !Bit(c, t) then PairCols(p, cols, k, c, c + Pow2(t)) else p;
    forall i | 0 <= i < |m| ensures q[i] == target[i] {
      VecSweepStep(k, t, m[i], c);
    }
  }

  lemma RowsSweepEnds(k: Kernel, t: nat, m: Mat, cols: nat)
    requires Rect(m, cols) && Fits(|m|, t)
    ensures RowsUpTo(k, t, m, cols, 0) == m && RowsUpTo(k, t, m, cols, |m|) == ApplyRows(k, t, m, cols)
  {
    assert forall i | 0 <= i < |m| :: RowsUpTo(k, t, m, cols, 0)[i] == m[i];
    assert forall i | 0 <= i < |m| :: RowsUpTo(k, t, m, cols, |m|)[i] == ApplyRows(k, t, m, cols)[i];
  }

  lemma VecSweepEnds(k: Kernel, t: nat, v: Vec)
    requires Fits(|v|, t)
    ensures VecUpTo(k, t, v, 0) == v && VecUpTo(k, t, v, |v|) == VTimes(k, t, v)
  {
    assert forall j | 0 <= j < |v| :: VecUpTo(k, t, v, 0)[j] == v[j];
    assert forall j | 0 <= j < |v| :: VecUpTo(k, t, v, |v|)[j] == VTimes(k, t, v)[j];
  }

  lemma ColsSweepEnds(k: Kernel, t: nat, m: Mat, cols: nat)
    requires Rect(m, cols) && Fits(cols, t)
    ensures ColsUpTo(k, t, m, cols, 0) == m && ColsUpTo(k, t, m, cols, cols) == ApplyCols(k, t, m, cols)
  {
    forall i | 0 <= i < |m|
      ensures ColsUpTo(k, t, m, cols, 0)[i] == m[i]
      ensures ColsUpTo(k, t, m, cols, cols)[i] == ApplyCols(k, t, m, cols)[i]
    {
      VecSweepEnds(k, t, m[i]);
    }
  }

  /** One step of the column sweep, stated for the current contents cur. */
  lemma ColsAdvance(k: Kernel, t: nat, m: Mat, cols: nat, c: nat, cur: Mat)
    requires Rect(m, cols) && Fits(cols, t) && c < cols && cur == ColsUpTo(k, t, m, cols, c)
    ensures !Bit(c, t) ==> (c + Pow2(t) < cols && PairCols(cur, cols, k, c, c + Pow2(t)) == ColsUpTo(k, t, m, cols, c + 1))
    ensures Bit(c, t) ==> cur == ColsUpTo(k, t, m, cols, c + 1)
  {
    ColsSweepStep(k, t, m, cols, c);
  }

  lemma RowsAdvance(k: Kernel, t: nat, m: Mat, cols: nat, r: nat, cur: Mat)
    requires Rect(m, cols) && Fits(|m|, t) && r < |m| && cur == RowsUpTo(k, t, m, cols, r)
    ensures !Bit(r, t) ==> (r + Pow2(t) < |m| && PairRows(cur, cols, k, r, r + Pow2(t)) == RowsUpTo(k, t, m, cols, r + 1))
    ensures Bit(r, t) ==> cur == RowsUpTo(k, t, m, cols, r + 1)
  {
    RowsSweepStep(k, t, m, cols, r);
  }

  /** Rows lo and hi := k applied to the pair (lo, hi); the rest of a is unchanged. */
  method CombineRows(a: array2<Complex>, k: Kernel, lo: nat, hi: nat)
    requires lo < hi < a.Length0
    modifies a
    ensures Contents(a) == PairRows(old(Contents(a)), a.Length1, k, lo, hi)
  {
    ghost var m0 := Contents(a);
    var j := 0;
    while j < a.Length1
      invariant 0 <= j <= a.Length1
      invariant forall i, c :: 0 <= i < a.Length0 && 0 <= c < a.Length1 ==>
        a[i, c] == (if i == lo && c < j then Lin(k.a, m0[lo][c], k.b, m0[hi][c])
                    else if i == hi && c < j then Lin(k.c, m0[lo][c], k.d, m0[hi][c])
                    else m0[i][c])
    {
      var x, y := a[lo, j], a[hi, j];
      a[lo, j] := Lin(k.a, x, k.b, y);
      a[hi, j] := Lin(k.c, x, k.d, y);
      j := j + 1;
    }
    assert forall i | 0 <= i < a.Length0 :: Contents(a)[i] == PairRows(m0, a.Length1, k, lo, hi)[i];
  }

  /** Columns lo and hi := the pair (lo, hi) times k; the rest of a is unchanged. */
  method CombineCols(a: array2<Complex>, k: Kernel, lo: nat, hi: nat)
    requires lo < hi < a.Length1
    modifies a
    ensures Contents(a) == PairCols(old(Contents(a)), a.Length1, k, lo, hi)
  {
    ghost var m0 := Contents(a);
    var i := 0;
    while i < a.Length0
      invariant 0 <= i <= a.Length0
      invariant forall r, c :: 0 <= r < a.Length0 && 0 <= c < a.Length1 ==>
        a[r, c] == (if c == lo && r < i then Lin(k.a, m0[r][lo], k.c, m0[r][hi])
                    else if c == hi && r < i then Lin(k.b, m0[r][lo], k.d, m0[r][hi])
                    else m0[r][c])
    {
      var x, y := a[i, lo], a[i, hi];
      a[i, lo] := Lin(k.a, x, k.c, y);
      a[i, hi] := Lin(k.b, x, k.d, y);
      i := i + 1;
    }
    assert forall r | 0 <= r < a.Length0 :: Contents(a)[r] == PairCols(m0, a.Length1, k, lo, hi)[r];
  }

  /** One step of the row sweep: row r is combined with its partner when bit t of r is clear. */
  method SweepRowsStep(a: array2<Complex>, k: Kernel, t: nat, r: nat, ghost m0: Mat)
    requires Fits(a.Length0, t) && r < a.Length0 && |m0| == a.Length0 && Rect(m0, a.Length1)
    requires Contents(a) == RowsUpTo(k, t, m0, a.Length1, r)
    modifies a
    ensures Contents(a) == RowsUpTo(k, t, m0, a.Length1, r + 1)
  {
    ghost var cur := Contents(a);
    RowsAdvance(k, t, m0, a.Length1, r, cur);
    if !Bit(r, t) {
      CombineRows(a, k, r, r + Pow2(t));
    }
  }

  /** In place: a := k applied on qubit t from the left. */
  method ApplyKernelTo(a: array2<Complex>, k: Kernel, t: nat)
    requires Fits(a.Length0, t)
    modifies a
    ensures Contents(a) == ApplyRows(k, t, old(Contents(a)), a.Length1)
  {
    ghost var m0 := Contents(a);
    RowsSweepEnds(k, t, m0, a.Length1);
    var r := 0;
    while r < a.Length0
      invariant 0 <= r <= a.Length0
      invariant Contents(a) == RowsUpTo(k, t, m0, a.Length1, r)
    {
      SweepRowsStep(a, k, t, r, m0);
      r := r + 1;
    }
  }

  /** One step of the column sweep: column c is combined with its partner when bit t of c is clear. */
  method SweepColsStep(a: array2<Complex>, k: Kernel, t: nat, c: nat, ghost m0: Mat)
    requires Fits(a.Length1, t) && c < a.Length1 && |m0| == a.Length0 && Rect(m0, a.Length1)
    requires Contents(a) == ColsUpTo(k, t, m0, a.Length1, c)
    modifies a
    ensures Contents(a) == ColsUpTo(k, t, m0, a.Length1, c + 1)
  {
    ghost var cur := Contents(a);
    ColsAdvance(k, t, m0, a.Length1, c, cur);
    if !Bit(c, t) {
      CombineCols(a, k, c, c + Pow2(t));
    }
  }

  /** In place: a := a times k on qubit t from the right. */
  method ApplyKernelFromRight(a: array2<Complex>, k: Kernel, t: nat)
    requires Fits(a.Length1, t)
    modifies a
    ensures Contents(a) == ApplyCols(k, t, old(Contents(a)), a.Length1)
  {
    ghost var m0 := Contents(a);
    ColsSweepEnds(k, t, m0, a.Length1);
    var c := 0;
    while c < a.Length1
      invariant 0 <= c <= a.Length1
      invariant Contents(a) == ColsUpTo(k, t, m0, a.Length1, c)
    {
      SweepColsStep(a, k, t, c, m0);
      c := c + 1;
    }
  }

  /** A fresh array holding the identity matrix of the given size. */
  method NewIdentity(size: nat) returns (a: array2<Complex>)
    ensures fresh(a) && a.Length0 == size && a.Length1 == size
    ensures Contents(a) == Identity(size)
  {
    a := new Complex[size, size]((i, j) => if i == j then One else Zero);
    assert forall i | 0 <= i < size :: Contents(a)[i] == Identity(size)[i];
  }
}
