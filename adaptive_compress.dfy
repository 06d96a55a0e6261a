/**
 * The compression bookkeeping of the adaptive decomposition: the parameter
 * vector without one layer's slice, the penalty of a structure, the trial
 * removal of one layer, the choice among the candidate layers, the
 * compression loop of start_decomposition and the choice of the initial
 * level. The optimiser runs are an oracle: a function from the reduced
 * structure and parameters to the minimum and parameters it reports.
 */
module AdaptiveCompress {
  import opened Common
  import opened GateTree
  import opened GatesBlocks

  /** What a run of the custom decomposition reports: its minimum and its optimised parameters. */
  datatype Trial = Trial(minimum: real, params: seq<real>)

  /** A gate structure with the parameters and the minimum that go with it. */
  datatype Compressed = Compressed(gates: seq<Gate>, params: seq<real>, minimum: real)

  /** release_gate(idx) on a list that has gate idx. */
  function Remove(gs: seq<Gate>, idx: nat): (r: seq<Gate>)
    requires idx < |gs|
    ensures |r| == |gs| - 1
    ensures forall j :: 0 <= j < idx ==> r[j] == gs[j]
    ensures forall j :: idx <= j < |r| ==> r[j] == gs[j + 1]
  {
    gs[..idx] + gs[idx + 1..]
  }

  // ---------------------------------------------------------------------
  // create_reduced_parameters
  // ---------------------------------------------------------------------

  /** The parameters without gate idx's slice: the part before its offset, then the part after its last parameter. */
  function ReducedParameters(gs: seq<Gate>, params: seq<real>, idx: nat): seq<real>
    requires idx < |gs| && Offset(gs, idx + 1) <= |params|
  {
    OffsetStep(gs, idx);
    params[..Offset(gs, idx)] + params[Offset(gs, idx + 1)..]
  }

  /** Before gate idx, the list without it has the same offsets. */
  lemma OffsetBeforeRemoval(gs: seq<Gate>, idx: nat, j: nat)
    requires j <= idx < |gs|
    ensures Offset(Remove(gs, idx), j) == Offset(gs, j)
  {
    assert Remove(gs, idx)[..j] == gs[..j];
  }

  /** From gate idx on, the list without it has offsets one slice lower. */
  lemma OffsetAfterRemoval(gs: seq<Gate>, idx: nat, j: nat)
    requires idx <= j < |gs|
    ensures Offset(Remove(gs, idx), j) + ParamCount(gs[idx]) == Offset(gs, j + 1)
  {
    var r := Remove(gs, idx);
    assert r[..j] == gs[..idx] + gs[idx + 1..j + 1];
    assert gs[..j + 1] == gs[..idx + 1] + gs[idx + 1..j + 1];
    SumParamsAppend(gs[..idx], gs[idx + 1..j + 1]);
    SumParamsAppend(gs[..idx + 1], gs[idx + 1..j + 1]);
    OffsetStep(gs, idx);
  }

  /**
   * create_reduced_parameters keeps the layout: the vector is one slice
   * shorter, and every remaining gate finds in it the parameters it had.
   */
  lemma ReducedParametersLayout(gs: seq<Gate>, params: seq<real>, idx: nat)
    requires idx < |gs| && SumParams(gs) <= |params|
    ensures Offset(gs, idx + 1) <= |params|
    ensures |ReducedParameters(gs, params, idx)| == |params| - ParamCount(gs[idx])
    ensures SumParams(Remove(gs, idx)) + ParamCount(gs[idx]) == SumParams(gs)
    ensures forall j :: 0 <= j < idx ==>
              Slice(ReducedParameters(gs, params, idx), Remove(gs, idx), j) == Slice(params, gs, j)
    ensures forall j :: idx <= j < |gs| - 1 ==>
              Slice(ReducedParameters(gs, params, idx), Remove(gs, idx), j) == Slice(params, gs, j + 1)
  {
    OffsetBounded(gs, idx + 1);
    OffsetStep(gs, idx);
    RemoveSum(gs, idx);
    var r := Remove(gs, idx);
    var red := ReducedParameters(gs, params, idx);
    forall j | 0 <= j < |gs| - 1
      ensures j < idx ==> Slice(red, r, j) == Slice(params, gs, j)
      ensures j >= idx ==> Slice(red, r, j) == Slice(params, gs, j + 1)
    {
      if j < idx {
        ReducedSliceBefore(gs, params, idx, j);
      } else {
        ReducedSliceAfter(gs, params, idx, j);
      }
    }
  }

  /** Removing gate idx takes its parameter count off the total. */
  lemma RemoveSum(gs: seq<Gate>, idx: nat)
    requires idx < |gs|
    ensures SumParams(Remove(gs, idx)) + ParamCount(gs[idx]) == SumParams(gs)
  {
    assert gs == gs[..idx + 1] + gs[idx + 1..];
    SumParamsAppend(gs[..idx + 1], gs[idx + 1..]);
    SumParamsAppend(gs[..idx], gs[idx + 1..]);
    OffsetStep(gs, idx);
  }

  lemma ReducedSliceBefore(gs: seq<Gate>, params: seq<real>, idx: nat, j: nat)
    requires j < idx < |gs| && SumParams(gs) <= |params|
    requires SumParams(Remove(gs, idx)) + ParamCount(gs[idx]) == SumParams(gs)
    requires Offset(gs, idx + 1) <= |params|
    requires SumParams(Remove(gs, idx)) <= |ReducedParameters(gs, params, idx)|
    ensures Slice(ReducedParameters(gs, params, idx), Remove(gs, idx), j) == Slice(params, gs, j)
  {
    OffsetStep(gs, idx);
    OffsetBeforeRemoval(gs, idx, j);
    OffsetBeforeRemoval(gs, idx, j + 1);
    OffsetStep(gs, j);
    OffsetMono(gs, j + 1, idx);
    CutBefore(params, Offset(gs, idx), Offset(gs, idx + 1), Offset(gs, j), Offset(gs, j + 1));
  }

  lemma ReducedSliceAfter(gs: seq<Gate>, params: seq<real>, idx: nat, j: nat)
    requires idx <= j < |gs| - 1 && SumParams(gs) <= |params|
    requires SumParams(Remove(gs, idx)) + ParamCount(gs[idx]) == SumParams(gs)
    requires Offset(gs, idx + 1) <= |params|
    requires SumParams(Remove(gs, idx)) <= |ReducedParameters(gs, params, idx)|
    ensures Slice(ReducedParameters(gs, params, idx), Remove(gs, idx), j) == Slice(params, gs, j + 1)
  {
    var rs := Remove(gs, idx);
    var a, b, p := Offset(rs, j), Offset(rs, j + 1), ParamCount(gs[idx]);
    ReducedSliceIs(gs, params, idx, j);
    AfterSliceIs(gs, params, idx, j);
    CutAfter(params, Offset(gs, idx), Offset(gs, idx + 1), a, b);
  }

  /** Slice j of the reduced vector, read off the cut vector. */
  lemma ReducedSliceIs(gs: seq<Gate>, params: seq<real>, idx: nat, j: nat)
    requires idx <= j < |gs| - 1 && SumParams(gs) <= |params|
    requires Offset(gs, idx + 1) <= |params|
    requires SumParams(Remove(gs, idx)) <= |ReducedParameters(gs, params, idx)|
    ensures j + 1 <= |Remove(gs, idx)|
    ensures Offset(Remove(gs, idx), j) <= Offset(Remove(gs, idx), j + 1) <= |ReducedParameters(gs, params, idx)|
    ensures Offset(gs, idx) <= Offset(gs, idx + 1)
    ensures ReducedParameters(gs, params, idx) == params[..Offset(gs, idx)] + params[Offset(gs, idx + 1)..]
    ensures Slice(ReducedParameters(gs, params, idx), Remove(gs, idx), j) ==
            ReducedParameters(gs, params, idx)[Offset(Remove(gs, idx), j)..Offset(Remove(gs, idx), j + 1)]
  {
    OffsetStep(gs, idx);
    var rs := Remove(gs, idx);
    OffsetStep(rs, j);
    OffsetBounded(rs, j + 1);
  }

  /** Slice j + 1 of the original vector, in the offsets of the reduced list. */
  lemma AfterSliceIs(gs: seq<Gate>, params: seq<real>, idx: nat, j: nat)
    requires idx <= j < |gs| - 1 && SumParams(gs) <= |params|
    ensures j + 1 <= |Remove(gs, idx)|
    ensures Offset(gs, idx + 1) - Offset(gs, idx) == ParamCount(gs[idx])
    ensures Offset(gs, idx) <= Offset(gs, idx + 1) <= Offset(Remove(gs, idx), j) + ParamCount(gs[idx])
    ensures Offset(Remove(gs, idx), j) <= Offset(Remove(gs, idx), j + 1)
    ensures Offset(Remove(gs, idx), j + 1) + ParamCount(gs[idx]) <= |params|
    ensures Slice(params, gs, j + 1) ==
            params[Offset(Remove(gs, idx), j) + ParamCount(gs[idx])..Offset(Remove(gs, idx), j + 1) + ParamCount(gs[idx])]
  {
    AfterOffsets(gs, idx, j);
  }

  /** The offsets that a slice after the removed gate reads, on both sides of the removal. */
  lemma AfterOffsets(gs: seq<Gate>, idx: nat, j: nat)
    requires idx <= j < |gs| - 1
    ensures Offset(Remove(gs, idx), j) + ParamCount(gs[idx]) == Offset(gs, j + 1)
    ensures Offset(Remove(gs, idx), j + 1) + ParamCount(gs[idx]) == Offset(gs, j + 2)
    ensures Offset(gs, idx + 1) == Offset(gs, idx) + ParamCount(gs[idx])
    ensures Offset(gs, idx + 1) <= Offset(gs, j + 1) <= Offset(gs, j + 2) <= SumParams(gs)
  {
    OffsetAfterRemoval(gs, idx, j);
    OffsetAfterRemoval(gs, idx, j + 1);
    AfterOrder(gs, idx, j);
  }

  /** The offsets of gate idx's end and of gate j + 1's slice come in order. */
  lemma AfterOrder(gs: seq<Gate>, idx: nat, j: nat)
    requires idx <= j < |gs| - 1
    ensures Offset(gs, idx + 1) == Offset(gs, idx) + ParamCount(gs[idx])
    ensures Offset(gs, idx + 1) <= Offset(gs, j + 1) <= Offset(gs, j + 2) <= SumParams(gs)
  {
    OffsetStep(gs, idx);
    OffsetStep(gs, j + 1);
    OffsetBounded(gs, j + 2);
    OffsetMono(gs, idx + 1, j + 1);
  }

  /** Offsets grow along the list. */
  lemma OffsetMono(gs: seq<Gate>, a: nat, b: nat)
    requires a <= b <= |gs|
    ensures Offset(gs, a) <= Offset(gs, b)
  {
    OffsetBounded(gs[..b], a);
    assert gs[..b][..a] == gs[..a];
  }

  /** A slice before the cut is read unchanged. */
  lemma CutBefore(params: seq<real>, off: nat, end: nat, a: nat, b: nat)
    requires off <= end <= |params| && a <= b <= off
    ensures (params[..off] + params[end..])[a..b] == params[a..b]
  {
  }

  /** A slice after the cut is read end - off places further on. */
  lemma CutAfter(params: seq<real>, off: nat, end: nat, a: nat, b: nat)
    requires off <= end <= |params| && off <= a <= b && b + (end - off) <= |params|
    ensures (params[..off] + params[end..])[a..b] == params[a + (end - off)..b + (end - off)]
  {
  }

  // ---------------------------------------------------------------------
  // get_panelty
  // ---------------------------------------------------------------------

  /** Every gate's first parameter, which get_panelty reads, lies inside the vector. */
  predicate ReadsInRange(gs: seq<Gate>, params: seq<real>)
  {
    forall i :: 0 <= i < |gs| ==> Offset(gs, i) < |params|
  }

  /**
   * get_panelty: the walk over the gates reads each gate's first parameter;
   * each of the three branches adds one, so the penalty is the gate count.
   */
  method GetPanelty(gs: seq<Gate>, params: seq<real>) returns (panelty: nat)
    requires ReadsInRange(gs, params)
    ensures panelty == |gs|
  {
    panelty := 0;
    var parameterIdx := 0;
    var idx := 0;
    while idx < |gs|
      invariant 0 <= idx <= |gs| && panelty == idx
      invariant parameterIdx == Offset(gs, idx)
    {
      var parameter := params[parameterIdx];
      panelty := panelty + 1;
      OffsetStep(gs, idx);
      parameterIdx := parameterIdx + ParamCount(gs[idx]);
      idx := idx + 1;
    }
  }

  // ---------------------------------------------------------------------
  // compress_gate_structure(gate_structure, layer_idx, ...)
  // ---------------------------------------------------------------------

  /** The parameters handed to the trial run: the reduced vector, or none when there are none. */
  function TrialParameters(gs: seq<Gate>, params: seq<real>, idx: nat): seq<real>
    requires idx < |gs| && (|params| > 0 ==> Offset(gs, idx + 1) <= |params|)
  {
    if |params| > 0 then ReducedParameters(gs, params, idx) else []
  }

  /**
   * One trial removal on a structure of q qubits: the clone without layer
   * idx is optimised from the reduced parameters; when the run reaches the
   * tolerance its structure, parameters and minimum are taken, otherwise a
   * clone of the structure comes back with the parameters and minimum the
   * caller passed in.
   */
  function CompressOne(gs: seq<Gate>, q: int, params: seq<real>, minimum: real, idx: nat, tol: real,
                       solve: (seq<Gate>, seq<real>) -> Trial): Compressed
    requires idx < |gs| && (|params| > 0 ==> Offset(gs, idx + 1) <= |params|)
  {
    var reduced := Remove(CloneInto(gs, q), idx);
    var trial := solve(reduced, TrialParameters(gs, params, idx));
    if trial.minimum < tol then Compressed(reduced, trial.params, trial.minimum)
    else Compressed(CloneInto(gs, q), params, minimum)
  }

  /**
   * On a canonical structure a trial either removes exactly layer idx and
   * takes the run's result, or changes nothing.
   */
  lemma CompressOneMeaning(gs: seq<Gate>, q: int, params: seq<real>, minimum: real, idx: nat, tol: real,
                           solve: (seq<Gate>, seq<real>) -> Trial)
    requires idx < |gs| && (|params| > 0 ==> Offset(gs, idx + 1) <= |params|)
    requires AllCanonical(gs) && AllOnQubits(gs, q)
    ensures var c := CompressOne(gs, q, params, minimum, idx, tol, solve);
            var trial := solve(Remove(gs, idx), TrialParameters(gs, params, idx));
            (trial.minimum < tol && c == Compressed(Remove(gs, idx), trial.params, trial.minimum)) ||
            (trial.minimum >= tol && c == Compressed(gs, params, minimum))
  {
    CloneIntoOwn(gs, q);
  }

  // ---------------------------------------------------------------------
  // compress_gate_structure(gate_structure)
  // ---------------------------------------------------------------------

  /** How many layers are tried at most: 10 below 50 layers, 4 below 60, 2 otherwise. */
  function Cap(orig: int): nat
  {
    if orig < 50 then 10 else if orig < 60 then 4 else 2
  }

  function Min(a: int, b: int): int
  {
    if a < b then a else b
  }

  /** A strictly increasing list of layer indices in 1..orig. */
  predicate Candidates(cands: seq<int>, orig: int)
  {
    (forall i :: 0 <= i < |cands| ==> 1 <= cands[i] <= orig) &&
    (forall i, j :: 0 <= i < j < |cands| ==> cands[i] < cands[j])
  }

  /**
   * The candidate layers: 1..orig, then, while more than the cap remain, the
   * one at draw % (count) is erased. Index 0, the finalising layer, is never a candidate.
   */
  method PruneCandidates(orig: nat, draw: nat -> nat) returns (cands: seq<int>)
    ensures Candidates(cands, orig)
    ensures |cands| == Min(Cap(orig), orig)
  {
    cands := [];
    var idx := 0;
    while idx < orig
      invariant 0 <= idx <= orig && |cands| == idx
      invariant forall i :: 0 <= i < idx ==> cands[i] == i + 1
    {
      cands := cands + [idx + 1];
      idx := idx + 1;
    }
    var k := 0;
    while |cands| > Cap(orig)
      invariant Candidates(cands, orig) && |cands| >= Min(Cap(orig), orig)
      decreases |cands|
    {
      var removeIdx := draw(k) % |cands|;
      cands := cands[..removeIdx] + cands[removeIdx + 1..];
      k := k + 1;
    }
  }

  /**
   * The choice among the penalties: a strictly smaller one is taken, an
   * equal one is taken when coin gives an odd number. The choice always has
   * the least penalty.
   */
  method SelectLeast(panelties: seq<nat>, coin: nat -> nat) returns (idxMin: nat)
    requires |panelties| > 0
    ensures idxMin < |panelties|
    ensures forall i :: 0 <= i < |panelties| ==> panelties[idxMin] <= panelties[i]
  {
    var paneltyMin := panelties[0];
    idxMin := 0;
    var k := 0;
    var idx := 0;
    while idx < |panelties|
      invariant 0 <= idx <= |panelties| && idxMin < |panelties|
      invariant paneltyMin == panelties[idxMin]
      invariant forall i :: 0 <= i < idx ==> paneltyMin <= panelties[i]
    {
      if paneltyMin > panelties[idx] {
        paneltyMin := panelties[idx];
        idxMin := idx;
      } else if paneltyMin == panelties[idx] {
        if coin(k) % 2 == 1 {
          idxMin := idx;
          paneltyMin := panelties[idx];
        }
        k := k + 1;
      }
      idx := idx + 1;
    }
  }

  /**
   * What trying candidate layer idx leaves: the trial's structure, cloned
   * when nothing was removed and passed through remove_trivial_gates (an
   * oracle here, trim) otherwise; an empty parameter result falls back to
   * the structure's parameters.
   */
  function Tried(gs: seq<Gate>, q: int, params: seq<real>, idx: nat, tol: real,
                 solve: (seq<Gate>, seq<real>) -> Trial, trim: Compressed -> Compressed): Compressed
    requires idx < |gs| && (|params| > 0 ==> Offset(gs, idx + 1) <= |params|)
  {
    var reduced := CompressOne(gs, q, params, MaxMinimum, idx, tol, solve);
    var loc := if |reduced.params| == 0 then reduced.(params := params) else reduced;
    if |loc.gates| == |gs| then loc.(gates := CloneInto(loc.gates, q)) else trim(loc)
  }

  /** DBL_MAX, the minimum a trial starts from; only its role as "not reached" matters. */
  const MaxMinimum: real := 1000000000000000000000000000000.0

  /** A trial never adds layers when remove_trivial_gates never does. */
  lemma TriedNeverGrows(gs: seq<Gate>, q: int, params: seq<real>, idx: nat, tol: real,
                        solve: (seq<Gate>, seq<real>) -> Trial, trim: Compressed -> Compressed)
    requires idx < |gs| && (|params| > 0 ==> Offset(gs, idx + 1) <= |params|)
    requires forall c :: |trim(c).gates| <= |c.gates|
    ensures |Tried(gs, q, params, idx, tol, solve, trim).gates| <= |gs|
  {
    var reduced := CompressOne(gs, q, params, MaxMinimum, idx, tol, solve);
    assert |reduced.gates| <= |gs|;
  }

  /** The penalty of every candidate, as get_panelty gives it: its gate count. */
  method TryCandidates(gs: seq<Gate>, q: int, params: seq<real>, cands: seq<int>, tol: real,
                       solve: (seq<Gate>, seq<real>) -> Trial, trim: Compressed -> Compressed)
    returns (tried: seq<Compressed>, panelties: seq<nat>)
    requires Candidates(cands, |gs| - 1)
    requires |params| > 0 ==> SumParams(gs) <= |params|
    ensures |tried| == |panelties| == |cands|
    ensures forall i :: 0 <= i < |cands| ==>
              (OffsetFits(gs, params, cands[i]) &&
               tried[i] == Tried(gs, q, params, cands[i], tol, solve, trim) && panelties[i] == |tried[i].gates|)
  {
    tried, panelties := [], [];
    var idx := 0;
    while idx < |cands|
      invariant 0 <= idx <= |cands| && |tried| == |panelties| == idx
      invariant forall i :: 0 <= i < idx ==>
                  (OffsetFits(gs, params, cands[i]) &&
                   tried[i] == Tried(gs, q, params, cands[i], tol, solve, trim) && panelties[i] == |tried[i].gates|)
    {
      CandidateFits(gs, params, cands, idx);
      var t := Tried(gs, q, params, cands[idx], tol, solve, trim);
      tried := tried + [t];
      panelties := panelties + [|t.gates|];
      idx := idx + 1;
    }
  }

  /** Every candidate's slice lies inside the parameters. */
  lemma CandidateFits(gs: seq<Gate>, params: seq<real>, cands: seq<int>, i: nat)
    requires Candidates(cands, |gs| - 1) && i < |cands|
    requires |params| > 0 ==> SumParams(gs) <= |params|
    ensures OffsetFits(gs, params, cands[i])
  {
    OffsetBounded(gs, cands[i] + 1);
  }

  /** Candidate idx is a layer and its slice lies inside the parameters, when there are any. */
  predicate OffsetFits(gs: seq<Gate>, params: seq<real>, idx: int)
  {
    0 <= idx < |gs| && (|params| > 0 ==> Offset(gs, idx + 1) <= |params|)
  }

  /**
   * compress_gate_structure: up to Cap candidate layers (never layer 0) are
   * each tried for removal, and one with the fewest remaining layers is kept.
   * The source reads the first penalty, so it needs at least two layers.
   */
  method CompressGateStructure(gs: seq<Gate>, q: int, params: seq<real>, tol: real,
                               draw: nat -> nat, coin: nat -> nat,
                               solve: (seq<Gate>, seq<real>) -> Trial, trim: Compressed -> Compressed)
    returns (r: Compressed, cands: seq<int>, idxMin: nat)
    requires |gs| >= 2
    requires |params| > 0 ==> SumParams(gs) <= |params|
    ensures Candidates(cands, |gs| - 1) && |cands| == Min(Cap(|gs| - 1), |gs| - 1) && idxMin < |cands|
    ensures OffsetFits(gs, params, cands[idxMin])
    ensures r == Tried(gs, q, params, cands[idxMin], tol, solve, trim)
    ensures forall i :: 0 <= i < |cands| ==>
              (OffsetFits(gs, params, cands[i]) &&
               |r.gates| <= |Tried(gs, q, params, cands[i], tol, solve, trim).gates|)
  {
    cands := PruneCandidates(|gs| - 1, draw);
    var tried, panelties := TryCandidates(gs, q, params, cands, tol, solve, trim);
    idxMin := SelectLeast(panelties, coin);
    r := tried[idxMin];
  }

  // ---------------------------------------------------------------------
  // The compression loop of start_decomposition
  // ---------------------------------------------------------------------

  /**
   * The loop: it runs while fewer than 25 rounds were made or at most 5
   * rounds in a row failed to shrink the structure, and stops after more
   * than 10 such rounds. step(iter, c) is what compress_gate_structure
   * leaves in round iter: the structure and the parameter vector it
   * updates; it never has more layers than c.
   */
  method CompressionLoop(c: Compressed, step: (nat, Compressed) -> Compressed)
    returns (result: Compressed, iter: nat, uncompressed: nat)
    requires forall k: nat, g: Compressed {:trigger step(k, g)} :: |step(k, g).gates| <= |g.gates|
    ensures |result.gates| <= |c.gates|
    ensures result == c || exists k: nat, g: Compressed {:trigger step(k, g)} :: result == step(k, g)
    ensures uncompressed > 10 || (iter >= 25 && uncompressed > 5)
    ensures iter >= 1
  {
    result := c;
    iter := 0;
    uncompressed := 0;
    while iter < 25 || uncompressed <= 5
      invariant |result.gates| <= |c.gates| && uncompressed <= 10
      invariant result == c || exists k: nat, g: Compressed {:trigger step(k, g)} :: result == step(k, g)
      decreases |result.gates|, 10 - uncompressed
    {
      var compressed := step(iter, result);
      if |compressed.gates| < |result.gates| {
        uncompressed := 0;
      } else {
        uncompressed := uncompressed + 1;
      }
      result := compressed;
      iter := iter + 1;
      if uncompressed > 10 {
        break;
      }
    }
  }

  // ---------------------------------------------------------------------
  // The choice of the initial level
  // ---------------------------------------------------------------------

  /** The index of the first strict minimum: a later value is taken only when strictly smaller. */
  method FirstMinimum(mins: seq<real>) returns (idxMin: nat)
    requires |mins| > 0
    ensures idxMin < |mins|
    ensures forall i :: 0 <= i < |mins| ==> mins[idxMin] <= mins[i]
    ensures forall i :: 0 <= i < idxMin ==> mins[i] > mins[idxMin]
  {
    idxMin := 0;
    var current := mins[0];
    var idx := 1;
    while idx < |mins|
      invariant 1 <= idx <= |mins| && idxMin < idx && current == mins[idxMin]
      invariant forall i :: 0 <= i < idx ==> current <= mins[i]
      invariant forall i :: 0 <= i < idxMin ==> mins[i] > current
    {
      if current > mins[idx] {
        idxMin := idx;
        current := mins[idx];
      }
      idx := idx + 1;
    }
  }

  /**
   * The level loop of determine_initial_gate_structure: levels from
   * levelMin up to levelLimit are tried, each reporting minimumAt(level),
   * until one is below the tolerance; the level with the first least
   * minimum is chosen. The loop must run once, since the first minimum is read.
   */
  method LevelSearch(levelMin: int, levelLimit: int, currentMinimum: real, tol: real, minimumAt: int -> real)
    returns (mins: seq<real>, idxMin: nat)
    requires currentMinimum > tol && levelMin <= levelLimit
    ensures 1 <= |mins| <= levelLimit - levelMin + 1
    ensures forall i :: 0 <= i < |mins| ==> mins[i] == minimumAt(levelMin + i)
    ensures forall i :: 0 <= i < |mins| - 1 ==> mins[i] >= tol
    ensures mins[|mins| - 1] < tol || |mins| == levelLimit - levelMin + 1
    ensures idxMin < |mins| && forall i :: 0 <= i < |mins| ==> mins[idxMin] <= mins[i]
    ensures forall i :: 0 <= i < idxMin ==> mins[i] > mins[idxMin]
  {
    mins := [];
    var level := levelMin;
    while currentMinimum > tol && level <= levelLimit
      invariant levelMin <= level <= levelLimit + 1 && |mins| == level - levelMin
      invariant forall i :: 0 <= i < |mins| ==> mins[i] == minimumAt(levelMin + i) && mins[i] >= tol
      decreases levelLimit - level
    {
      var loc := minimumAt(level);
      mins := mins + [loc];
      if loc < tol {
        break;
      }
      level := level + 1;
    }
    idxMin := FirstMinimum(mins);
  }

  /** The relaxed tolerance after a level search that missed it: 1.5 times the minimum, at most 0.01. */
  function RelaxedTolerance(minimum: real, tol: real): (t: real)
    ensures minimum > tol ==> t <= 0.01 && (t == 0.01 || t == 1.5 * minimum)
    ensures minimum <= tol ==> t == tol
  {
    if minimum > tol then (if 1.5 * minimum < 0.01 then 1.5 * minimum else 0.01) else tol
  }
}
