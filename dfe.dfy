/**
 * Sizing of the gate arrays handed to the DFE accelerator by
 * Gates_block::convert_to_DFE_gates_with_derivates and
 * Gates_block::convert_to_DFE_gates: the parameter-count check, the padding
 * of the gate chain to a multiple of the chained gate count, and the
 * rounding of the number of gate sets to a multiple of 4 (times the MPI
 * world size). Only the integer arithmetic is modelled; the fixed-point
 * encoding of the gates is not.
 */
module Dfe {
  import opened Common
  import opened GateTree

  const WrongParameterNumber: string := "N_Qubit_Decomposition_Base::convert_to_DFE_gates: wrong number of parameters"

  /** The three sizes convert_to_DFE_gates_with_derivates writes back to its caller. */
  datatype DfeSizes = DfeSizes(gatesNum: nat, gateSetNum: nat, redundantGateSets: nat)

  /** gates_total_num: get_gate_nums().total, the leaves of the block at every depth. */
  function GatesTotal(gs: seq<Gate>): (n: nat)
    ensures n == |Flatten(gs)|
  {
    GateNumsCountLeaves(gs);
    GetGateNums(gs).total
  }

  lemma MulAtLeast(c: int, d: int)
    requires c >= 1 && d >= 1
    ensures c * d >= c
  {
  }

  lemma MulNotPositive(c: int, d: int)
    requires c >= 1 && d <= 0
    ensures c * d <= 0
  {
  }

  /** Euclidean division is unique: a quotient and a remainder in [0, c) are a / c and a % c. */
  lemma DivisionUnique(a: int, c: int, k: int, r: int)
    requires c >= 1 && a == c * k + r && 0 <= r < c
    ensures a / c == k && a % c == r
  {
    var q := a / c;
    assert c * (k - q) == a % c - r;
    if k - q >= 1 {
      MulAtLeast(c, k - q);
    } else if k - q <= -1 {
      MulAtLeast(c, q - k);
    }
  }

  /** Two different multiples of c are at least c apart. */
  lemma MultiplesApart(a: int, b: int, c: int)
    requires c >= 1 && a % c == 0 && b % c == 0 && b < a
    ensures a - b >= c
  {
    var p, q := a / c, b / c;
    assert c * (p - q) == a - b;
    if p - q <= 0 {
      MulNotPositive(c, p - q);
    }
    MulAtLeast(c, p - q);
  }

  /**
   * gatesNum of convert_to_DFE_gates_with_derivates: the gate count padded
   * up to a multiple of the chained gate count, with no padding when it
   * already is one.
   */
  function PaddedGatesNum(total: nat, chained: nat): nat
    requires chained >= 1
  {
    if total % chained == 0 then total else total + (chained - total % chained)
  }

  /** PaddedGatesNum is the least multiple of chained that is at least total. */
  lemma PaddedIsLeastMultiple(total: nat, chained: nat)
    requires chained >= 1
    ensures PaddedGatesNum(total, chained) % chained == 0
    ensures total <= PaddedGatesNum(total, chained) < total + chained
    ensures forall m: nat :: total <= m && m % chained == 0 ==> PaddedGatesNum(total, chained) <= m
  {
    var n := PaddedGatesNum(total, chained);
    var r := total % chained;
    if r != 0 {
      assert n == chained * (total / chained + 1) + 0;
      DivisionUnique(n, chained, total / chained + 1, 0);
    }
    forall m: nat | total <= m && m % chained == 0
      ensures n <= m
    {
      if m < n {
        MultiplesApart(n, m, chained);
      }
    }
  }

  /**
   * gatesNum of convert_to_DFE_gates: the padding is chained minus the
   * remainder, so a total that is already a multiple gets a full extra chunk.
   */
  function ChunkedGatesNum(total: nat, chained: nat): nat
    requires chained >= 1
  {
    total + (chained - total % chained)
  }

  /** The two paddings agree except on a multiple of chained, where convert_to_DFE_gates adds one whole chunk more. */
  lemma ChunkedVersusPadded(total: nat, chained: nat)
    requires chained >= 1
    ensures ChunkedGatesNum(total, chained) % chained == 0
    ensures total < ChunkedGatesNum(total, chained) <= total + chained
    ensures total % chained == 0 ==> ChunkedGatesNum(total, chained) == PaddedGatesNum(total, chained) + chained
    ensures total % chained != 0 ==> ChunkedGatesNum(total, chained) == PaddedGatesNum(total, chained)
  {
    PaddedIsLeastMultiple(total, chained);
    if total % chained == 0 {
      assert total + chained == chained * (total / chained + 1) + 0;
      DivisionUnique(total + chained, chained, total / chained + 1, 0);
    }
  }

  /**
   * The rounding of the gate-set count: redundantGateSets sets are added so
   * that the count is a multiple of unit (4 without MPI, 4 * world_size with it).
   */
  function RoundGateSets(base: nat, unit: nat): (r: (nat, nat))
    requires unit >= 1
  {
    if base % unit == 0 then (base, 0) else (base + (unit - base % unit), unit - base % unit)
  }

  /** The rounded count is the least multiple of unit at least base, and the redundant sets make up the difference. */
  lemma RoundGateSetsIsLeastMultiple(base: nat, unit: nat)
    requires unit >= 1
    ensures RoundGateSets(base, unit).0 == base + RoundGateSets(base, unit).1
    ensures RoundGateSets(base, unit).1 < unit
    ensures RoundGateSets(base, unit).1 == 0 <==> base % unit == 0
    ensures RoundGateSets(base, unit).0 == PaddedGatesNum(base, unit)
    ensures RoundGateSets(base, unit).0 % unit == 0
  {
    PaddedIsLeastMultiple(base, unit);
  }

  /**
   * convert_to_DFE_gates_with_derivates, sizes only: an error when the
   * block's parameter counter differs from the length of the parameter
   * vector; otherwise the padded gate count, and one gate set per parameter
   * (plus one for the plain evaluation unless only derivatives are asked
   * for) rounded up to a multiple of 4 * worldSize (worldSize is 1 without MPI).
   */
  function SizesWithDerivates(gs: seq<Gate>, parameterNum: nat, paramsLen: nat, chained: nat,
                              onlyDerivates: bool, worldSize: nat): (r: Result<DfeSizes>)
    requires chained >= 1 && worldSize >= 1
  {
    if parameterNum != paramsLen then Err(WrongParameterNumber)
    else
      var base := if onlyDerivates then parameterNum else parameterNum + 1;
      var sets := RoundGateSets(base, 4 * worldSize);
      Ok(DfeSizes(PaddedGatesNum(GatesTotal(gs), chained), sets.0, sets.1))
  }

  /** What convert_to_DFE_gates_with_derivates promises about the sizes it writes back. */
  lemma SizesWithDerivatesMeaning(gs: seq<Gate>, parameterNum: nat, paramsLen: nat, chained: nat,
                                  onlyDerivates: bool, worldSize: nat)
    requires chained >= 1 && worldSize >= 1
    ensures SizesWithDerivates(gs, parameterNum, paramsLen, chained, onlyDerivates, worldSize).Err? <==> parameterNum != paramsLen
    ensures var r := SizesWithDerivates(gs, parameterNum, paramsLen, chained, onlyDerivates, worldSize);
            var base := if onlyDerivates then parameterNum else parameterNum + 1;
            r.Ok? ==>
              r.value.gatesNum % chained == 0 &&
              |Flatten(gs)| <= r.value.gatesNum < |Flatten(gs)| + chained &&
              r.value.gateSetNum == base + r.value.redundantGateSets &&
              r.value.gateSetNum % (4 * worldSize) == 0 &&
              r.value.redundantGateSets < 4 * worldSize
  {
    PaddedIsLeastMultiple(GatesTotal(gs), chained);
    var base := if onlyDerivates then parameterNum else parameterNum + 1;
    RoundGateSetsIsLeastMultiple(base, 4 * worldSize);
  }

  /** convert_to_DFE_gates, sizes only: the parameter check and the chunked gate count. */
  function GatesNumPlain(gs: seq<Gate>, parameterNum: nat, paramsLen: nat, chained: nat): (r: Result<nat>)
    requires chained >= 1
    ensures r.Err? <==> parameterNum != paramsLen
    ensures r.Ok? ==> r.value == ChunkedGatesNum(|Flatten(gs)|, chained)
  {
    if parameterNum != paramsLen then Err(WrongParameterNumber)
    else Ok(ChunkedGatesNum(GatesTotal(gs), chained))
  }

  /** Four leaves chained in threes: padded to 6 by the derivative sizing, and to 6 by the plain one. */
  lemma SizesExample()
    ensures PaddedGatesNum(4, 3) == 6 && ChunkedGatesNum(4, 3) == 6
    ensures PaddedGatesNum(6, 3) == 6 && ChunkedGatesNum(6, 3) == 9
    ensures RoundGateSets(5, 4) == (8, 3) && RoundGateSets(8, 4) == (8, 0)
  {
  }
}
