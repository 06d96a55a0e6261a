/**
 * The parameter-free single-qubit gates X, Y, Z and SX. Each is a value
 * (qubit count, matrix size, target qubit) with an exact 2x2 kernel that is
 * applied in place to a 2^n x 2^n matrix from the left or from the right.
 */
module FixedGates {
  import opened Common
  import opened ComplexNum
  import opened Bits
  import opened Kernels

  datatype FixedKind = PauliX | PauliY | PauliZ | SqrtX

  const XKernel: Kernel := Kernel(Zero, One, One, Zero)
  const YKernel: Kernel := Kernel(Zero, Complex(0.0, -1.0), Complex(0.0, 1.0), Zero)
  const ZKernel: Kernel := Kernel(One, Zero, Zero, Complex(-1.0, 0.0))
  const SXKernel: Kernel := Kernel(Complex(0.5, 0.5), Complex(0.5, -0.5), Complex(0.5, -0.5), Complex(0.5, 0.5))

  function KernelOf(kind: FixedKind): Kernel
  {
    match kind
    case PauliX => XKernel
    case PauliY => YKernel
    case PauliZ => ZKernel
    case SqrtX => SXKernel
  }

  /** control is -1: none of these gates has a control qubit. */
  datatype FixedGate = FixedGate(kind: FixedKind, qbitNum: nat, matrixSize: nat, target: nat, control: int, parameterNum: nat)

  /** What every constructed gate satisfies. */
  predicate WellFormed(g: FixedGate)
  {
    g.target < g.qbitNum && g.matrixSize == Pow2(g.qbitNum) && g.control == -1 && g.parameterNum == 0 &&
    Fits(g.matrixSize, g.target)
  }

  /** The constructor: it throws when the target is not below the qubit count. */
  function New(kind: FixedKind, qbitNum: nat, target: nat): (r: Result<FixedGate>)
    ensures r.Ok? <==> target < qbitNum
    ensures r.Ok? ==> WellFormed(r.value) && r.value.kind == kind &&
                      r.value.qbitNum == qbitNum && r.value.target == target
  {
    if target >= qbitNum then Err("The index of the target qubit is larger than the number of qubits")
    else PowerOfTwoFits(qbitNum, target); Ok(FixedGate(kind, qbitNum, Pow2(qbitNum), target, -1, 0))
  }

  /** clone constructs a new gate from the qubit count and the target: it equals the original. */
  function Clone(g: FixedGate): (c: FixedGate)
    requires WellFormed(g)
    ensures c == g
  {
    New(g.kind, g.qbitNum, g.target).value
  }

  /**
   * input := kernel * input on the target qubit. A row count other than the
   * gate's matrix size makes the source print and exit; here it returns false
   * and leaves the matrix unchanged.
   */
  method ApplyTo(g: FixedGate, input: array2<Complex>) returns (ok: bool)
    requires WellFormed(g)
    modifies input
    ensures ok <==> input.Length0 == g.matrixSize
    ensures ok ==> Contents(input) == ApplyRows(KernelOf(g.kind), g.target, old(Contents(input)), input.Length1)
    ensures !ok ==> Contents(input) == old(Contents(input))
  {
    if input.Length0 != g.matrixSize {
      return false;
    }
    ApplyKernelTo(input, KernelOf(g.kind), g.target);
    return true;
  }

  /** input := input * kernel on the target qubit; checks the column count. */
  method ApplyFromRight(g: FixedGate, input: array2<Complex>) returns (ok: bool)
    requires WellFormed(g)
    modifies input
    ensures ok <==> input.Length1 == g.matrixSize
    ensures ok ==> Contents(input) == ApplyCols(KernelOf(g.kind), g.target, old(Contents(input)), input.Length1)
    ensures !ok ==> Contents(input) == old(Contents(input))
  {
    if input.Length1 != g.matrixSize {
      return false;
    }
    ApplyKernelFromRight(input, KernelOf(g.kind), g.target);
    return true;
  }

  /** The matrix of the gate: apply_to on the identity of size 2^qbit_num. */
  method GetMatrix(g: FixedGate) returns (m: array2<Complex>)
    requires WellFormed(g)
    ensures fresh(m) && m.Length0 == g.matrixSize && m.Length1 == g.matrixSize
    ensures Fits(g.matrixSize, g.target)
    ensures Contents(m) == ApplyRows(KernelOf(g.kind), g.target, Identity(g.matrixSize), g.matrixSize)
  {
    m := NewIdentity(g.matrixSize);
    var ok := ApplyTo(g, m);
  }

  /** X, Y and Z square to the identity kernel; SX squares to X and is symmetric. */
  lemma XSquare()
    ensures KMul(XKernel, XKernel) == IdKernel
  {
    assert Mul(Zero, Zero) == Zero;
    assert Mul(One, One) == One;
    assert Mul(Zero, One) == Zero;
    assert Mul(One, Zero) == Zero;
  }

  lemma YSquare()
    ensures KMul(YKernel, YKernel) == IdKernel
  {
    var mi, pi := Complex(0.0, -1.0), Complex(0.0, 1.0);
    assert Mul(mi, pi) == One;
    assert Mul(pi, mi) == One;
    assert Mul(Zero, Zero) == Zero;
    assert Mul(mi, Zero) == Zero;
    assert Mul(pi, Zero) == Zero;
    assert Mul(Zero, pi) == Zero;
    assert Mul(Zero, mi) == Zero;
  }

  lemma ZSquare()
    ensures KMul(ZKernel, ZKernel) == IdKernel
  {
    var m1 := Complex(-1.0, 0.0);
    assert Mul(One, One) == One;
    assert Mul(m1, m1) == One;
    assert Mul(Zero, Zero) == Zero;
    assert Mul(One, Zero) == Zero;
    assert Mul(Zero, One) == Zero;
    assert Mul(m1, Zero) == Zero;
    assert Mul(Zero, m1) == Zero;
  }

  lemma SXSquare()
    ensures KMul(SXKernel, SXKernel) == XKernel
  {
    var p, q := Complex(0.5, 0.5), Complex(0.5, -0.5);
    assert Mul(p, p) == Complex(0.0, 0.5);
    assert Mul(q, q) == Complex(0.0, -0.5);
    assert Mul(p, q) == Complex(0.5, 0.0);
    assert Mul(q, p) == Complex(0.5, 0.0);
  }

  /** A kernel that squares to the identity undoes itself, from the left. */
  lemma RowsSquareRestores(k: Kernel, t: nat, m: Mat, cols: nat)
    requires KMul(k, k) == IdKernel && Rect(m, cols) && Fits(|m|, t)
    ensures ApplyRows(k, t, ApplyRows(k, t, m, cols), cols) == m
  {
    RowsCompose(k, k, t, m, cols);
    RowsIdentity(t, m, cols);
  }

  /** A kernel that squares to the identity undoes itself, from the right. */
  lemma ColsSquareRestores(k: Kernel, t: nat, m: Mat, cols: nat)
    requires KMul(k, k) == IdKernel && Rect(m, cols) && Fits(cols, t)
    ensures ApplyCols(k, t, ApplyCols(k, t, m, cols), cols) == m
  {
    ColsCompose(k, k, t, m, cols);
    ColsIdentity(t, m, cols);
  }

  /** X, Y and Z are their own inverses. */
  lemma PauliSelfInverse(kind: FixedKind)
    requires kind != SqrtX
    ensures KMul(KernelOf(kind), KernelOf(kind)) == IdKernel
  {
    var k := KernelOf(kind);
    if kind == PauliX {
      assert k == XKernel;
      XSquare();
    } else if kind == PauliY {
      assert k == YKernel;
      YSquare();
    } else {
      assert k == ZKernel;
      ZSquare();
    }
  }

  /** Applying X, Y or Z twice on the same target from the left restores the input. */
  lemma PauliTwiceRestoresRows(kind: FixedKind, t: nat, m: Mat, cols: nat)
    requires kind != SqrtX && Rect(m, cols) && Fits(|m|, t)
    ensures ApplyRows(KernelOf(kind), t, ApplyRows(KernelOf(kind), t, m, cols), cols) == m
  {
    PauliSelfInverse(kind);
    RowsSquareRestores(KernelOf(kind), t, m, cols);
  }

  /** Applying X, Y or Z twice on the same target from the right restores the input. */
  lemma PauliTwiceRestoresCols(kind: FixedKind, t: nat, m: Mat, cols: nat)
    requires kind != SqrtX && Rect(m, cols) && Fits(cols, t)
    ensures ApplyCols(KernelOf(kind), t, ApplyCols(KernelOf(kind), t, m, cols), cols) == m
  {
    PauliSelfInverse(kind);
    ColsSquareRestores(KernelOf(kind), t, m, cols);
  }

  /** SX is a square root of X: applying it twice from the left is applying X. */
  lemma SXTwiceIsXRows(t: nat, m: Mat, cols: nat)
    requires Rect(m, cols) && Fits(|m|, t)
    ensures ApplyRows(SXKernel, t, ApplyRows(SXKernel, t, m, cols), cols) == ApplyRows(XKernel, t, m, cols)
  {
    SXSquare();
    RowsCompose(SXKernel, SXKernel, t, m, cols);
  }

  /** Applying SX twice from the right is applying X from the right. */
  lemma SXTwiceIsXCols(t: nat, m: Mat, cols: nat)
    requires Rect(m, cols) && Fits(cols, t)
    ensures ApplyCols(SXKernel, t, ApplyCols(SXKernel, t, m, cols), cols) == ApplyCols(XKernel, t, m, cols)
  {
    SXSquare();
    ColsCompose(SXKernel, SXKernel, t, m, cols);
  }

  /** SX from the right is SX from the left on the transpose, as the kernel is symmetric. */
  lemma SXFromRightIsTransposed(t: nat, m: Mat, cols: nat)
    requires Rect(m, cols) && Fits(cols, t)
    ensures Transpose(ApplyCols(SXKernel, t, m, cols), cols) == ApplyRows(SXKernel, t, Transpose(m, cols), |m|)
  {
    assert KTranspose(SXKernel) == SXKernel;
    ColsAreTransposedRows(SXKernel, t, m, cols);
  }

  /** X from the left swaps every row with its partner across bit t. */
  lemma XSwapsRows(t: nat, m: Mat, cols: nat, i: nat, j: nat)
    requires Rect(m, cols) && Fits(|m|, t) && i < |m| && j < cols
    ensures ApplyRows(XKernel, t, m, cols)[i][j] == (if Bit(i, t) then m[i - Pow2(t)][j] else m[i + Pow2(t)][j])
  {
    if Bit(i, t) {
      LinSelects(m[i - Pow2(t)][j], m[i][j]);
    } else {
      LinSelects(m[i][j], m[i + Pow2(t)][j]);
    }
  }

  /** X from the right swaps every column with its partner across bit t. */
  lemma XSwapsCols(t: nat, m: Mat, cols: nat, i: nat, j: nat)
    requires Rect(m, cols) && Fits(cols, t) && i < |m| && j < cols
    ensures ApplyCols(XKernel, t, m, cols)[i][j] == (if Bit(j, t) then m[i][j - Pow2(t)] else m[i][j + Pow2(t)])
  {
    if Bit(j, t) {
      LinSelects(m[i][j - Pow2(t)], m[i][j]);
    } else {
      LinSelects(m[i][j], m[i][j + Pow2(t)]);
    }
  }

  /** Z from the left negates exactly the rows whose index has bit t set. */
  lemma ZNegatesRows(t: nat, m: Mat, cols: nat, i: nat, j: nat)
    requires Rect(m, cols) && Fits(|m|, t) && i < |m| && j < cols
    ensures ApplyRows(ZKernel, t, m, cols)[i][j] == (if Bit(i, t) then Neg(m[i][j]) else m[i][j])
  {
    if Bit(i, t) {
      LinSelects(m[i - Pow2(t)][j], m[i][j]);
    } else {
      LinSelects(m[i][j], m[i + Pow2(t)][j]);
    }
  }

  /** Z from the right negates exactly the columns whose index has bit t set. */
  lemma ZNegatesCols(t: nat, m: Mat, cols: nat, i: nat, j: nat)
    requires Rect(m, cols) && Fits(cols, t) && i < |m| && j < cols
    ensures ApplyCols(ZKernel, t, m, cols)[i][j] == (if Bit(j, t) then Neg(m[i][j]) else m[i][j])
  {
    if Bit(j, t) {
      LinSelects(m[i][j - Pow2(t)], m[i][j]);
    } else {
      LinSelects(m[i][j], m[i][j + Pow2(t)]);
    }
  }

  /** Y: the low row becomes -i times its partner, the partner becomes i times the low row. */
  lemma YRotatesPairs(t: nat, m: Mat, cols: nat, i: nat, j: nat)
    requires Rect(m, cols) && i < |m| && j < cols && Fits(|m|, t)
    ensures ApplyRows(YKernel, t, m, cols)[i][j] ==
      (if Bit(i, t) then Mul(Complex(0.0, 1.0), m[i - Pow2(t)][j]) else Mul(Complex(0.0, -1.0), m[i + Pow2(t)][j]))
  {
    MulUnits(m[i][j]);
    if Bit(i, t) { MulUnits(Mul(Complex(0.0, 1.0), m[i - Pow2(t)][j])); } else { MulUnits(Mul(Complex(0.0, -1.0), m[i + Pow2(t)][j])); }
  }

  /** The matrix of X is the permutation matrix that flips bit t of the row index. */
  lemma XMatrixIsBitFlip(n: nat, t: nat, i: nat, j: nat)
    requires t < n && i < Pow2(n) && j < Pow2(n)
    ensures Fits(Pow2(n), t)
    ensures ApplyRows(XKernel, t, Identity(Pow2(n)), Pow2(n))[i][j] ==
      (if j == (if Bit(i, t) then i - Pow2(t) else i + Pow2(t)) then One else Zero)
  {
    PowerOfTwoFits(n, t);
    var size := Pow2(n);
    var id := Identity(size);
    XSwapsRows(t, id, size, i, j);
    var k := if Bit(i, t) then i - Pow2(t) else i + Pow2(t);
    assert ApplyRows(XKernel, t, id, size)[i][j] == id[k][j];
    assert id[k] == UnitRow(size, k);
    assert id[k][j] == Delta(k, j);
  }

  /** The matrix of Z is diagonal, with -1 exactly where bit t of the index is set. */
  lemma ZMatrixIsDiagonal(n: nat, t: nat, i: nat, j: nat)
    requires t < n && i < Pow2(n) && j < Pow2(n)
    ensures Fits(Pow2(n), t)
    ensures ApplyRows(ZKernel, t, Identity(Pow2(n)), Pow2(n))[i][j] ==
      (if i != j then Zero else if Bit(i, t) then Complex(-1.0, 0.0) else One)
  {
    PowerOfTwoFits(n, t);
    var size := Pow2(n);
    var e := ApplyRows(ZKernel, t, Identity(size), size)[i][j];
    ZNegatesRows(t, Identity(size), size, i, j);
    if i != j {
      assert Identity(size)[i][j] == Zero;
      assert Neg(Zero) == Zero;
      assert e == Zero;
    } else if Bit(i, t) {
      assert Identity(size)[i][j] == One;
      assert e == Neg(One);
    } else {
      assert Identity(size)[i][j] == One;
      assert e == One;
    }
  }
}
