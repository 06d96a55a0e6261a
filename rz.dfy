/**
 * The RZ gate: a U3 gate whose only free angle is Phi (Theta and Lambda are
 * fixed at zero). The trigonometric U3 kernel is a function supplied by the
 * caller; what is modelled is the gate's state, its checks and how the
 * parameter reaches the kernel.
 */
module RotationZ {
  import opened ComplexNum
  import opened Bits
  import opened Kernels

  /** M_PI / 2 as the nearest double. */
  const HalfPi: real := 1.5707963267948966

  /** The U3 kernel for angles (Theta, Phi, Lambda), left abstract. */
  type U3Kernel = (real, real, real) -> Kernel

  /** The kernel RZ applies for parameter phi. */
  function RZKernel(u3: U3Kernel, phi: real): Kernel
  {
    u3(0.0, phi, 0.0)
  }

  /**
   * The kernel of the derivative: Phi shifted by pi/2 and the first kernel
   * row (the entries that produce the low row of each pair) cleared.
   */
  function DerivativeKernel(u3: U3Kernel, phi: real): Kernel
  {
    var u := RZKernel(u3, phi + HalfPi);
    Kernel(Zero, Zero, u.c, u.d)
  }

  /** Applying the derivative kernel leaves the low row of every pair zero. */
  lemma DerivativeClearsLowRows(u3: U3Kernel, phi: real, t: nat, m: Mat, cols: nat, i: nat, j: nat)
    requires Rect(m, cols) && Fits(|m|, t) && i < |m| && j < cols && !Bit(i, t)
    ensures ApplyRows(DerivativeKernel(u3, phi), t, m, cols)[i][j] == Zero
  {
    var k := DerivativeKernel(u3, phi);
    RowsAt(k, t, m, cols, i, j);
    MulUnits(m[i][j]);
    MulUnits(m[i + Pow2(t)][j]);
  }

  class RZ {
    var qbitNum: nat
    var matrixSize: nat
    var target: nat
    var control: int
    var theta: bool
    var phi: bool
    var lambda: bool
    var theta0: real
    var lambda0: real
    var parameterNum: nat
    var parameters: seq<real>

    /** What the constructor establishes and every method keeps. */
    predicate Valid()
      reads this
    {
      target < qbitNum && matrixSize == Pow2(qbitNum) && control == -1 &&
      !theta && phi && !lambda && theta0 == 0.0 && lambda0 == 0.0 &&
      parameterNum == 1 && |parameters| == 1
    }

    /**
     * Reached only after New's target check. The parameter storage is one
     * uninitialised entry in the source; it is 0.0 here.
     */
    constructor Init(qbitNum: nat, target: nat)
      requires target < qbitNum
      ensures Valid() && this.qbitNum == qbitNum && this.target == target
      ensures parameters == [0.0]
    {
      this.qbitNum := qbitNum;
      this.matrixSize := Pow2(qbitNum);
      this.target := target;
      this.control := -1;
      this.theta := false;
      this.phi := true;
      this.lambda := false;
      this.theta0 := 0.0;
      this.lambda0 := 0.0;
      this.parameterNum := 1;
      this.parameters := [0.0];
    }

    /** The constructor with its check: no gate when the target is not below the qubit count. */
    static method New(qbitNum: nat, target: nat) returns (g: RZ?)
      ensures g == null <==> target >= qbitNum
      ensures g != null ==> fresh(g) && g.Valid() && g.qbitNum == qbitNum && g.target == target
    {
      if target >= qbitNum {
        return null;
      }
      g := new RZ.Init(qbitNum, target);
    }

    /** input := RZ(parameters[0]) * input; a wrong row count is refused. */
    method ApplyTo(params: seq<real>, input: array2<Complex>, u3: U3Kernel) returns (ok: bool)
      requires Valid() && |params| >= 1
      modifies input
      ensures ok <==> input.Length0 == matrixSize
      ensures ok ==> Fits(input.Length0, target)
      ensures ok ==> Contents(input) == ApplyRows(RZKernel(u3, params[0]), target, old(Contents(input)), input.Length1)
      ensures !ok ==> Contents(input) == old(Contents(input))
    {
      if input.Length0 != matrixSize {
        return false;
      }
      PowerOfTwoFits(qbitNum, target);
      ApplyKernelTo(input, u3(theta0, params[0], lambda0), target);
      return true;
    }

    /** input := input * RZ(parameters[0]); a wrong column count is refused. */
    method ApplyFromRight(params: seq<real>, input: array2<Complex>, u3: U3Kernel) returns (ok: bool)
      requires Valid() && |params| >= 1
      modifies input
      ensures ok <==> input.Length1 == matrixSize
      ensures ok ==> Fits(input.Length1, target)
      ensures ok ==> Contents(input) == ApplyCols(RZKernel(u3, params[0]), target, old(Contents(input)), input.Length1)
      ensures !ok ==> Contents(input) == old(Contents(input))
    {
      if input.Length1 != matrixSize {
        return false;
      }
      PowerOfTwoFits(qbitNum, target);
      ApplyKernelFromRight(input, u3(theta0, params[0], lambda0), target);
      return true;
    }

    /**
     * The derivative with respect to Phi: a list of exactly one matrix, the
     * derivative kernel applied to a copy of the input. The input is untouched.
     */
    method ApplyDerivateTo(params: seq<real>, input: array2<Complex>, u3: U3Kernel) returns (ok: bool, ret: seq<Mat>)
      requires Valid() && |params| >= 1
      ensures ok <==> input.Length0 == matrixSize
      ensures ok ==> Fits(input.Length0, target) && |ret| == 1
      ensures ok ==> ret[0] == ApplyRows(DerivativeKernel(u3, params[0]), target, Contents(input), input.Length1)
      ensures !ok ==> ret == []
    {
      if input.Length0 != matrixSize {
        return false, [];
      }
      PowerOfTwoFits(qbitNum, target);
      var res := new Complex[input.Length0, input.Length1]((i, j) reads input =>
        if 0 <= i < input.Length0 && 0 <= j < input.Length1 then input[i, j] else Zero);
      assert forall i | 0 <= i < input.Length0 :: Contents(res)[i] == Contents(input)[i];
      var u := u3(theta0, params[0] + HalfPi, lambda0);
      ApplyKernelTo(res, Kernel(Zero, Zero, u.c, u.d), target);
      return true, [Contents(res)];
    }

    /** Overwrites the stored parameter. */
    method SetOptimizedParameters(p: real)
      requires Valid()
      modifies this
      ensures Valid() && parameters == [p]
      ensures qbitNum == old(qbitNum) && target == old(target)
    {
      parameters := [p];
    }

    /** A copy of the stored parameters. */
    method GetOptimizedParameters() returns (p: seq<real>)
      requires Valid()
      ensures p == parameters && |p| == parameterNum
    {
      p := parameters;
    }

    /** A new gate on the same qubits, carrying over the stored parameter when there is one. */
    method Clone() returns (c: RZ)
      requires Valid()
      ensures fresh(c) && c.Valid()
      ensures c.qbitNum == qbitNum && c.target == target && c.parameters == parameters
    {
      c := new RZ.Init(qbitNum, target);
      if |parameters| > 0 {
        c.SetOptimizedParameters(parameters[0]);
      }
    }
  }

  /** set_optimized_parameters followed by get_optimized_parameters returns [phi]. */
  method SetThenGet(g: RZ, p: real) returns (r: seq<real>)
    requires g.Valid()
    modifies g
    ensures r == [p]
  {
    g.SetOptimizedParameters(p);
    r := g.GetOptimizedParameters();
  }
}
