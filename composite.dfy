/**
 * The Composite gate: a gate on all qbit_num qubits whose parameter count is
 * fixed by a formula in the matrix size, with a qubit-relabelling operation
 * and size checks before it is applied.
 */
module CompositeGate {
  import opened Bits
  import opened Qubits

  /** The number of unordered pairs drawn from n elements. */
  function Pairs(n: nat): nat
  {
    if n == 0 then 0 else Pairs(n - 1) + (n - 1)
  }

  /**
   * parameter_num for qbit_num qubits: (m/2)(m/2 - 1)/2 - 5 with m = 2^qbit_num.
   * The product is never negative, so C's truncating division agrees with
   * Dafny's here.
   */
  function ParameterCount(qbitNum: nat): int
  {
    var h := Pow2(qbitNum) / 2;
    h * (h - 1) / 2 - 5
  }

  /** get_parameter_num returns the count as a 32-bit unsigned integer. */
  function AsUnsigned32(x: int): (r: nat)
    ensures r < 0x1_0000_0000
    ensures 0 <= x < 0x1_0000_0000 ==> r == x
    ensures -0x1_0000_0000 <= x < 0 ==> r == x + 0x1_0000_0000
  {
    x % 0x1_0000_0000
  }

  lemma {:induction false} PairsClosedForm(n: nat)
    ensures 2 * Pairs(n) == n * (n - 1)
  {
    if n > 0 {
      PairsClosedForm(n - 1);
      assert (n - 1) * (n - 2) + 2 * (n - 1) == n * (n - 1);
    }
  }

  lemma {:induction false} PairsMonotone(a: nat, b: nat)
    requires a <= b
    ensures Pairs(a) <= Pairs(b)
  {
    if a < b {
      PairsMonotone(a, b - 1);
    }
  }

  /** The count is the number of pairs among half the matrix size, less five. */
  lemma ParameterCountIsPairs(qbitNum: nat)
    ensures ParameterCount(qbitNum) == Pairs(Pow2(qbitNum) / 2) - 5
  {
    var h := Pow2(qbitNum) / 2;
    PairsClosedForm(h);
    assert h * (h - 1) == 2 * Pairs(h);
  }

  lemma {:induction false} HalfPowAtLeastFour(qbitNum: nat)
    requires qbitNum >= 3
    ensures Pow2(qbitNum) / 2 >= 4
  {
    if qbitNum > 3 {
      HalfPowAtLeastFour(qbitNum - 1);
    } else {
      assert Pow2(3) == 8 by {
        assert Pow2(1) == 2;
        assert Pow2(2) == 4;
      }
    }
  }

  /**
   * The count is negative exactly for qbit_num <= 2, and then the unsigned
   * value get_parameter_num hands out is close to 2^32.
   */
  lemma NegativeCountForSmallGates(qbitNum: nat)
    ensures ParameterCount(qbitNum) < 0 <==> qbitNum <= 2
    ensures qbitNum <= 2 ==> AsUnsigned32(ParameterCount(qbitNum)) >= 0x1_0000_0000 - 5
  {
    ParameterCountIsPairs(qbitNum);
    if qbitNum >= 3 {
      HalfPowAtLeastFour(qbitNum);
      PairsMonotone(4, Pow2(qbitNum) / 2);
      assert Pairs(4) == 6;
    } else {
      assert Pow2(1) == 2;
      assert Pow2(2) == 4;
      assert Pow2(qbitNum) / 2 <= 2;
      PairsMonotone(Pow2(qbitNum) / 2, 2);
    }
  }

  /** apply_to's checks: the row count is the matrix size and there are enough parameters. */
  predicate ApplyToAccepts(matrixSize: nat, parameterNum: int, params: seq<real>, rows: nat)
  {
    rows == matrixSize && |params| >= parameterNum
  }

  /** apply_from_right's checks as written: it tests the row count too. */
  predicate FromRightAcceptsAsWritten(matrixSize: nat, parameterNum: int, params: seq<real>, rows: nat, cols: nat)
  {
    rows == matrixSize && |params| >= parameterNum
  }

  /** input * gate needs the column count of input to be the matrix size. */
  predicate FromRightAccepts(matrixSize: nat, parameterNum: int, params: seq<real>, rows: nat, cols: nat)
  {
    cols == matrixSize && |params| >= parameterNum
  }

  /**
   * A non-square input whose columns match (so input * gate is defined) is
   * refused by the written check, and one whose rows match but columns do not
   * is let through; the corrected check decides by the columns alone.
   */
  lemma FromRightCheckDisagrees(matrixSize: nat, parameterNum: int, params: seq<real>, rows: nat, cols: nat)
    requires |params| >= parameterNum && rows != cols
    requires rows == matrixSize || cols == matrixSize
    ensures FromRightAcceptsAsWritten(matrixSize, parameterNum, params, rows, cols) !=
            FromRightAccepts(matrixSize, parameterNum, params, rows, cols)
    ensures FromRightAccepts(matrixSize, parameterNum, params, rows, cols) <==> cols == matrixSize
  {
  }

  /** For square inputs the two checks agree. */
  lemma FromRightChecksAgreeOnSquare(matrixSize: nat, parameterNum: int, params: seq<real>, n: nat)
    ensures FromRightAcceptsAsWritten(matrixSize, parameterNum, params, n, n) ==
            FromRightAccepts(matrixSize, parameterNum, params, n, n)
  {
  }

  class Composite {
    var qbitNum: nat
    var matrixSize: nat
    var target: int
    var control: int
    var parameterNum: int
    var parameters: seq<real>

    predicate Valid()
      reads this
    {
      matrixSize == Pow2(qbitNum) && parameterNum == ParameterCount(qbitNum)
    }

    constructor(qbitNum: nat)
      ensures Valid() && this.qbitNum == qbitNum
      ensures target == -1 && control == -1 && parameters == []
    {
      this.qbitNum := qbitNum;
      this.matrixSize := Pow2(qbitNum);
      this.target := -1;
      this.control := -1;
      this.parameterNum := ParameterCount(qbitNum);
      this.parameters := [];
    }

    /** Changes the qubit count; the matrix size and parameter count follow it. */
    method SetQbitNum(n: nat)
      modifies this
      ensures Valid() && qbitNum == n
      ensures target == old(target) && control == old(control) && parameters == old(parameters)
    {
      qbitNum := n;
      matrixSize := Pow2(n);
      parameterNum := ParameterCount(n);
    }

    /** The parameter count as get_parameter_num returns it. */
    function GetParameterNum(): (r: nat)
      reads this
      ensures 0 <= parameterNum < 0x1_0000_0000 ==> r == parameterNum
      ensures r < 0x1_0000_0000
    {
      AsUnsigned32(parameterNum)
    }

    /**
     * Relabels target and control by the reordered qubit list. A list whose
     * length is not the qubit count makes the source exit; here it returns
     * false and changes nothing.
     */
    method ReorderQubits(list: seq<int>) returns (ok: bool)
      modifies this
      ensures ok <==> |list| == qbitNum
      ensures ok ==> target == Relabel(list, qbitNum, old(target)) && control == Relabel(list, qbitNum, old(control))
      ensures !ok ==> target == old(target) && control == old(control)
      ensures qbitNum == old(qbitNum) && matrixSize == old(matrixSize)
      ensures parameterNum == old(parameterNum) && parameters == old(parameters)
    {
      if |list| != qbitNum {
        return false;
      }
      var targetNew, controlNew := target, control;
      var idx := 0;
      while idx < qbitNum
        invariant 0 <= idx <= qbitNum
        invariant targetNew == Relabel(list[..idx], qbitNum, target)
        invariant controlNew == Relabel(list[..idx], qbitNum, control)
      {
        assert list[..idx + 1][..idx] == list[..idx];
        if target == list[idx] {
          targetNew := qbitNum - 1 - idx;
        }
        if control == list[idx] {
          controlNew := qbitNum - 1 - idx;
        }
        idx := idx + 1;
      }
      assert list[..idx] == list;
      control := controlNew;
      target := targetNew;
      return true;
    }

    method SetOptimizedParameters(p: seq<real>)
      modifies this
      ensures parameters == p
      ensures qbitNum == old(qbitNum) && matrixSize == old(matrixSize) && parameterNum == old(parameterNum)
      ensures target == old(target) && control == old(control)
    {
      parameters := p;
    }

    method GetOptimizedParameters() returns (p: seq<real>)
      ensures p == parameters
    {
      p := parameters;
    }

    /**
     * A new gate on the same qubit count carrying the stored parameters.
     * The relabelled target and control are not carried over: the new gate
     * starts from -1.
     */
    method Clone() returns (c: Composite)
      ensures fresh(c) && c.Valid() && c.qbitNum == qbitNum && c.parameters == parameters
      ensures c.target == -1 && c.control == -1
    {
      c := new Composite(qbitNum);
      if |parameters| > 0 {
        c.SetOptimizedParameters(parameters);
      }
    }
  }

  /** After a valid reordering, target and control name distinct qubits when they did before. */
  lemma ReorderKeepsDistinct(list: seq<int>, n: nat, target: int, control: int)
    requires IsPermutation(list, n) && 0 <= target < n && (control == -1 || 0 <= control < n) && target != control
    ensures 0 <= Relabel(list, n, target) < n
    ensures Relabel(list, n, control) == -1 || 0 <= Relabel(list, n, control) < n
    ensures Relabel(list, n, target) != Relabel(list, n, control)
  {
    RelabelInRange(list, n, target);
    if control == -1 {
      RelabelKeepsNone(list, n);
    } else {
      RelabelInRange(list, n, control);
      RelabelInjective(list, n, target, control);
    }
  }
}
