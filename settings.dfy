/**
 * The enumerations the decomposition classes are configured with: the cost
 * function variants, the optimisers and the kinds of initial guess, with the
 * integer codes the C++ enums give them.
 */
module Settings {
  import opened Common

  /** cost_function_type, in declaration order (codes 0 to 5). */
  datatype CostFunction =
    | FrobeniusNorm
    | FrobeniusNormCorrection1
    | FrobeniusNormCorrection2
    | HilbertSchmidtTest
    | HilbertSchmidtTestCorrection1
    | HilbertSchmidtTestCorrection2

  /** optimization_aglorithms, in declaration order. */
  datatype Optimizer = Adam | Bfgs | Bfgs2 | AdamBatched

  /** guess_type, with the documented codes zeros = 0, random = 1, close_to_zero = 2. */
  datatype GuessType = Zeros | Random | CloseToZero

  /** The integer an enumerator of cost_function_type stands for. */
  function CostFunctionCode(c: CostFunction): (k: nat)
    ensures k < 6
  {
    match c
    case FrobeniusNorm => 0
    case FrobeniusNormCorrection1 => 1
    case FrobeniusNormCorrection2 => 2
    case HilbertSchmidtTest => 3
    case HilbertSchmidtTestCorrection1 => 4
    case HilbertSchmidtTestCorrection2 => 5
  }

  /** The enumerator with code k, if there is one. */
  function CostFunctionOf(k: int): (r: Option<CostFunction>)
    ensures r.Some? <==> 0 <= k < 6
    ensures r.Some? ==> CostFunctionCode(r.value) == k
  {
    if k == 0 then Some(FrobeniusNorm)
    else if k == 1 then Some(FrobeniusNormCorrection1)
    else if k == 2 then Some(FrobeniusNormCorrection2)
    else if k == 3 then Some(HilbertSchmidtTest)
    else if k == 4 then Some(HilbertSchmidtTestCorrection1)
    else if k == 5 then Some(HilbertSchmidtTestCorrection2)
    else None
  }

  /** Codes and enumerators are in one-to-one correspondence. */
  lemma CostFunctionCodes(c: CostFunction, d: CostFunction)
    ensures CostFunctionOf(CostFunctionCode(c)) == Some(c)
    ensures CostFunctionCode(c) == CostFunctionCode(d) ==> c == d
  {
  }
}
