/**
 * The sub-matrix decomposition: the search that disentangles the most
 * significant qubit from the others by adding layers of gates to the
 * decomposer's gate block and optimising their parameters after each
 * addition. The decomposer is a gate block in the source; here it holds one
 * (structure) and keeps its own settings beside it: the per-qubit-count maps
 * of maximal layer numbers, identical blocks and iteration loops, the
 * optional custom unit structure, the best cost found and its parameters.
 * The matrix transform, the sub-matrix cost, the tolerance test, the
 * optimiser and the random draws are parameters.
 */
module SubMatrix {
  import opened Common
  import opened ComplexNum
  import opened GateTree
  import opened GatesBlocks

  // ---------------------------------------------------------------------
  // std::map<int, int> as the decomposer uses it
  // ---------------------------------------------------------------------

  /** The value operator[] reads: the stored one, or 0 for a missing key. */
  function At(m: map<int, int>, k: int): int
  {
    if k in m then m[k] else 0
  }

  /** The map after operator[] read key k: a missing key is inserted with 0. */
  function Touch(m: map<int, int>, k: int): (r: map<int, int>)
    ensures r.Keys == m.Keys + {k}
    ensures At(r, k) == At(m, k)
    ensures forall j :: j in m ==> r[j] == m[j]
  {
    if k in m then m else m[k := 0]
  }

  /** A non-empty set has a member to pick. */
  lemma SomeMember(s: set<int>)
    requires s != {}
    ensures exists x :: x in s
  {
    if forall x :: x !in s {
      assert false;
    }
  }

  /**
   * The constructor's filling-in of defaults: every key of def that the
   * given map lacks is inserted with def's value; given keys are kept.
   */
  method FillDefaults(given: map<int, int>, def: map<int, int>) returns (m: map<int, int>)
    ensures m.Keys == given.Keys + def.Keys
    ensures forall k :: k in given ==> m[k] == given[k]
    ensures forall k :: k in def && k !in given ==> m[k] == def[k]
  {
    m := given;
    var rest := def.Keys;
    while |rest| > 0
      invariant rest <= def.Keys
      invariant m.Keys == given.Keys + (def.Keys - rest)
      invariant forall k :: k in given ==> m[k] == given[k]
      invariant forall k :: k in m && k !in given ==> k in def && m[k] == def[k]
      decreases rest
    {
      SomeMember(rest);
      var k :| k in rest;
      if k !in m {
        m := m[k := def[k]];
      }
      rest := rest - {k};
    }
  }

  /**
   * set_identical_blocks on a map: each entry is set in turn, erasing any
   * old value of its key; keys the entries do not name keep their values.
   */
  method OverwriteEach(m0: map<int, int>, entries: map<int, int>) returns (m: map<int, int>)
    ensures m.Keys == m0.Keys + entries.Keys
    ensures forall k :: k in entries ==> m[k] == entries[k]
    ensures forall k :: k in m0 && k !in entries ==> m[k] == m0[k]
  {
    m := m0;
    var rest := entries.Keys;
    while |rest| > 0
      invariant rest <= entries.Keys
      invariant m.Keys == m0.Keys + (entries.Keys - rest)
      invariant forall k :: k in entries && k !in rest ==> m[k] == entries[k]
      invariant forall k :: k in m0 && (k !in entries || k in rest) ==> m[k] == m0[k]
      decreases rest
    {
      SomeMember(rest);
      var k :| k in rest;
      m := m[k := entries[k]];
      rest := rest - {k};
    }
  }

  /** Both setters end with the given values on their keys; the constructor's filling keeps the given ones instead. */
  lemma FillThenOverwrite(given: map<int, int>, def: map<int, int>, m: map<int, int>, n: map<int, int>)
    requires m.Keys == given.Keys + def.Keys
    requires forall k :: k in given ==> m[k] == given[k]
    requires n.Keys == def.Keys + given.Keys
    requires forall k :: k in given ==> n[k] == given[k]
    requires forall k :: k in def && k !in given ==> m[k] == def[k] && n[k] == def[k]
    ensures m == n
  {
    assert forall k :: k in m ==> m[k] == n[k];
  }

  // ---------------------------------------------------------------------
  // The layers
  // ---------------------------------------------------------------------

  /** How often the loop `idx < identical_blocks_loc` runs, a stored 0 being read as 1. */
  function Reps(v: int): nat
  {
    if v == 0 then 1 else if v < 0 then 0 else v
  }

  /** The targets of add_default_gate_layers: every qubit below the control qubit n - 1. */
  function Targets(n: int): nat
  {
    if n - 1 > 0 then n - 1 else 0
  }

  /**
   * A default layer: a block on n qubits holding CNOT(t, c), then U3 on c,
   * then U3 on t, the U3s with theta and lambda free; add_u3 and add_cnot
   * put each gate first, so they end in the reverse of the calls' order.
   */
  function DefaultLayer(n: int, t: int, c: int): Gate
  {
    Block(n, 4, 0, [Leaf(CNOT, n, t, c), Leaf(U3(true, false, true), n, c, -1), Leaf(U3(true, false, true), n, t, -1)])
  }

  /** A default layer is a canonical block of four parameters and no nested block. */
  lemma DefaultLayerShape(n: int, t: int, c: int)
    ensures Canonical(DefaultLayer(n, t, c)) && ParamCount(DefaultLayer(n, t, c)) == 4
    ensures WithQbitNum(DefaultLayer(n, t, c), n) == DefaultLayer(n, t, c)
  {
    var a, u, v := Leaf(CNOT, n, t, c), Leaf(U3(true, false, true), n, c, -1), Leaf(U3(true, false, true), n, t, -1);
    var gs := [a, u, v];
    assert SumParams([a]) == 0 && BlockCount([a]) == 0 by {
      assert [a][..0] == [];
    }
    assert SumParams([a, u]) == 2 && BlockCount([a, u]) == 0 by {
      assert [a, u][..1] == [a];
    }
    assert SumParams(gs) == 4 && BlockCount(gs) == 0 by {
      assert gs[..2] == [a, u];
    }
    assert AllCanonical(gs) && AllOnQubits(gs, n);
    WithOwnQbitNum(DefaultLayer(n, t, c));
  }

  /** The block add_default_gate_layers builds for target t and control c. */
  method BuildDefaultLayer(n: int, t: int, c: int) returns (layer: GatesBlock)
    ensures fresh(layer) && layer.Valid() && layer.AsGate() == DefaultLayer(n, t, c)
  {
    layer := new GatesBlock(n);
    layer.AddGate(Leaf(U3(true, false, true), n, t, -1));
    layer.AddGate(Leaf(U3(true, false, true), n, c, -1));
    layer.AddGate(Leaf(CNOT, n, t, c));
  }

  /** k copies of a gate. */
  function Copies(g: Gate, k: nat): (r: seq<Gate>)
    ensures |r| == k && forall i :: 0 <= i < k ==> r[i] == g
  {
    seq(k, _ => g)
  }

  /** One more copy put first. */
  lemma CopiesCons(g: Gate, k: nat)
    ensures [g] + Copies(g, k) == Copies(g, k + 1)
  {
    assert forall i :: 0 <= i <= k ==> ([g] + Copies(g, k))[i] == g;
  }

  /**
   * The layers add_default_gate_layers adds for the targets below t, in the
   * order it adds them: target by target, k copies each.
   */
  function DefaultLayers(n: int, k: nat, t: nat): seq<Gate>
  {
    if t == 0 then [] else DefaultLayers(n, k, t - 1) + Copies(DefaultLayer(n, t - 1, n - 1), k)
  }

  lemma Distrib(k: nat, a: nat, b: nat)
    ensures k * (a + b) == k * a + k * b
  {
  }

  lemma MulSucc(t: nat, k: nat)
    ensures (t + 1) * k == t * k + k
  {
  }

  /** The default layers for the targets below t number t * k. */
  lemma {:induction false} DefaultLayersLength(n: int, k: nat, t: nat)
    ensures |DefaultLayers(n, k, t)| == t * k
  {
    if t > 0 {
      DefaultLayersLength(n, k, t - 1);
      MulSucc(t - 1, k);
    }
  }

  /** The run of target j among the default layers: k copies of the layer with target j and control n - 1. */
  lemma {:induction false} DefaultLayersRun(n: int, k: nat, t: nat, j: nat)
    requires j < t
    ensures |DefaultLayers(n, k, t)| == t * k
    ensures j * k + k <= t * k && DefaultLayers(n, k, t)[j * k..j * k + k] == Copies(DefaultLayer(n, j, n - 1), k)
  {
    var init, run := DefaultLayers(n, k, t - 1), Copies(DefaultLayer(n, t - 1, n - 1), k);
    assert DefaultLayers(n, k, t) == init + run;
    DefaultLayersLength(n, k, t - 1);
    MulSucc(t - 1, k);
    if j < t - 1 {
      DefaultLayersRun(n, k, t - 1, j);
      assert DefaultLayers(n, k, t)[j * k..j * k + k] == init[j * k..j * k + k];
    } else {
      assert DefaultLayers(n, k, t)[j * k..j * k + k] == run;
    }
  }

  /**
   * The default layers for the targets below t: t * k of them, the run of
   * target j being k copies of the layer with target j and control n - 1.
   */
  lemma DefaultLayersShape(n: int, k: nat, t: nat)
    ensures |DefaultLayers(n, k, t)| == t * k
    ensures forall j :: 0 <= j < t ==>
              (j * k + k <= t * k && DefaultLayers(n, k, t)[j * k..j * k + k] == Copies(DefaultLayer(n, j, n - 1), k))
  {
    DefaultLayersLength(n, k, t);
    forall j | 0 <= j < t
      ensures j * k + k <= t * k && DefaultLayers(n, k, t)[j * k..j * k + k] == Copies(DefaultLayer(n, j, n - 1), k)
    {
      DefaultLayersRun(n, k, t, j);
    }
  }

  /**
   * The gates add_gate_layers appends for a custom unit structure: each unit
   * gate k times in a row, gate after gate (before cloning).
   */
  function CustomLayers(us: seq<Gate>, k: nat): seq<Gate>
  {
    if us == [] then [] else CustomLayers(us[..|us| - 1], k) + Copies(us[|us| - 1], k)
  }

  /** The custom layers number |us| * k. */
  lemma {:induction false} CustomLayersLength(us: seq<Gate>, k: nat)
    ensures |CustomLayers(us, k)| == |us| * k
  {
    if us != [] {
      CustomLayersLength(us[..|us| - 1], k);
      MulSucc(|us| - 1, k);
    }
  }

  /** The run of unit gate j among the custom layers: k copies of it. */
  lemma {:induction false} CustomLayersRun(us: seq<Gate>, k: nat, j: nat)
    requires j < |us|
    ensures |CustomLayers(us, k)| == |us| * k
    ensures j * k + k <= |us| * k && CustomLayers(us, k)[j * k..j * k + k] == Copies(us[j], k)
  {
    var m := |us|;
    var init, run := us[..m - 1], Copies(us[m - 1], k);
    assert CustomLayers(us, k) == CustomLayers(init, k) + run;
    CustomLayersLength(init, k);
    MulSucc(m - 1, k);
    if j < m - 1 {
      CustomLayersRun(init, k, j);
      assert CustomLayers(us, k)[j * k..j * k + k] == CustomLayers(init, k)[j * k..j * k + k];
      assert us[j] == init[j];
    } else {
      assert CustomLayers(us, k)[j * k..j * k + k] == run;
    }
  }

  /** Every custom layer is one of the unit gates. */
  lemma {:induction false} CustomLayersMembers(us: seq<Gate>, k: nat)
    ensures forall i :: 0 <= i < |CustomLayers(us, k)| ==> CustomLayers(us, k)[i] in us
  {
    if us != [] {
      var init, g := us[..|us| - 1], us[|us| - 1];
      CustomLayersMembers(init, k);
      var head, all := CustomLayers(init, k), CustomLayers(us, k);
      assert all == head + Copies(g, k);
      forall i | 0 <= i < |all| ensures all[i] in us {
        if i < |head| {
          assert all[i] == head[i] && head[i] in init;
        } else {
          assert all[i] == g;
        }
      }
    }
  }

  /** The custom layers carry k times the unit's parameters. */
  lemma {:induction false} CustomLayersParams(us: seq<Gate>, k: nat)
    ensures SumParams(CustomLayers(us, k)) == k * SumParams(us)
  {
    if us != [] {
      var init, g := us[..|us| - 1], us[|us| - 1];
      CustomLayersParams(init, k);
      CopiesParams(g, k);
      SumParamsAppend(CustomLayers(init, k), Copies(g, k));
      assert SumParams(us) == SumParams(init) + ParamCount(g);
      Distrib(k, SumParams(init), ParamCount(g));
    }
  }

  lemma {:induction false} CopiesParams(g: Gate, k: nat)
    ensures SumParams(Copies(g, k)) == k * ParamCount(g)
  {
    if k > 0 {
      CopiesParams(g, k - 1);
      assert Copies(g, k)[..k - 1] == Copies(g, k - 1);
    }
  }

  /** The gate list after one call of add_gate_layers with k repetitions. */
  function Grown(gs: seq<Gate>, unit: Option<seq<Gate>>, q: int, k: nat): seq<Gate>
  {
    if unit.None? then Reverse(DefaultLayers(q, k, Targets(q))) + gs
    else gs + CloneInto(CustomLayers(unit.value, k), q)
  }

  /** How many gates one call of add_gate_layers adds. */
  function Added(unit: Option<seq<Gate>>, q: int, k: nat): nat
  {
    if unit.None? then Targets(q) * k else |unit.value| * k
  }

  /** The gate list after r calls of add_gate_layers. */
  function GrowN(gs: seq<Gate>, unit: Option<seq<Gate>>, q: int, k: nat, r: nat): seq<Gate>
  {
    if r == 0 then gs else Grown(GrowN(gs, unit, q, k, r - 1), unit, q, k)
  }

  /** Every call adds the same number of gates, so r calls add r times as many. */
  lemma {:induction false} GrowNLength(gs: seq<Gate>, unit: Option<seq<Gate>>, q: int, k: nat, r: nat)
    ensures |GrowN(gs, unit, q, k, r)| == |gs| + r * Added(unit, q, k)
  {
    if r > 0 {
      GrowNLength(gs, unit, q, k, r - 1);
      GrownLength(GrowN(gs, unit, q, k, r - 1), unit, q, k);
      MulSucc(r - 1, Added(unit, q, k));
    }
  }

  /**
   * With a negative identical_blocks entry (no repetitions) or an empty
   * custom unit a round adds no gate, so after any number of rounds the gate
   * count, which the loop guard compares with the maximum, is what it was.
   */
  lemma {:induction false} RoundsAddNothing(gs: seq<Gate>, unit: Option<seq<Gate>>, q: int, v: int, r: nat)
    requires v < 0 || (unit.Some? && unit.value == [])
    ensures Added(unit, q, Reps(v)) == 0
    ensures |GrowN(gs, unit, q, Reps(v), r)| == |gs|
  {
    GrowNLength(gs, unit, q, Reps(v), r);
  }

  lemma GrownLength(gs: seq<Gate>, unit: Option<seq<Gate>>, q: int, k: nat)
    ensures |Grown(gs, unit, q, k)| == |gs| + Added(unit, q, k)
  {
    if unit.None? {
      DefaultLayersLength(q, k, Targets(q));
    } else {
      CustomLayersLength(unit.value, k);
    }
  }

  /**
   * The inner loop of add_default_gate_layers: loc default layers for
   * target t and control c put first, one at a time.
   */
  method PrependDefaultLayers(b: GatesBlock, t: int, c: int, loc: int)
    requires b.Valid()
    modifies b
    ensures b.Valid() && b.qbitNum == old(b.qbitNum)
    ensures b.gates == Copies(DefaultLayer(b.qbitNum, t, c), if loc > 0 then loc else 0) + old(b.gates)
    ensures b.parameterNum == old(b.parameterNum) + 4 * (if loc > 0 then loc else 0)
    ensures b.layerNum == old(b.layerNum) + (if loc > 0 then loc else 0)
  {
    var n: nat := if loc > 0 then loc else 0;
    ghost var layer := DefaultLayer(b.qbitNum, t, c);
    ghost var q, g0, p0, l0 := b.qbitNum, b.gates, b.parameterNum, b.layerNum;
    var idx: nat := 0;
    while idx < n
      invariant idx <= n
      invariant b.Valid() && b.qbitNum == q
      invariant b.gates == Copies(layer, idx) + g0
      invariant b.parameterNum == p0 + 4 * idx && b.layerNum == l0 + idx
    {
      PrependDefaultLayer(b, t, c);
      CopiesCons(layer, idx);
      idx := idx + 1;
    }
  }

  /** One step of the inner loop of add_default_gate_layers: a default layer put first. */
  method PrependDefaultLayer(b: GatesBlock, t: int, c: int)
    requires b.Valid()
    modifies b
    ensures b.Valid() && b.qbitNum == old(b.qbitNum)
    ensures b.gates == [DefaultLayer(b.qbitNum, t, c)] + old(b.gates)
    ensures b.parameterNum == old(b.parameterNum) + 4 && b.layerNum == old(b.layerNum) + 1
  {
    DefaultLayerShape(b.qbitNum, t, c);
    var built := BuildDefaultLayer(b.qbitNum, t, c);
    b.AddGate(built.AsGate());
  }

  /** One more clone at the end. */
  lemma UnitCloneStep(head: seq<Gate>, g: Gate, idx: nat, q: int)
    ensures head + CloneInto(Copies(g, idx + 1), q) == (head + CloneInto(Copies(g, idx), q)) + [WithQbitNum(CloneGate(g), q)]
  {
    CloneIntoAppend(Copies(g, idx), [g], q);
    assert Copies(g, idx) + [g] == Copies(g, idx + 1);
  }

  /** The inner loop of add_gate_layers: loc clones of g added to the end. */
  method AppendClones(b: GatesBlock, g: Gate, loc: int)
    requires b.Valid()
    modifies b
    ensures b.Valid() && b.qbitNum == old(b.qbitNum)
    ensures b.gates == old(b.gates) + CloneInto(Copies(g, if loc > 0 then loc else 0), b.qbitNum)
  {
    var q := b.qbitNum;
    ghost var g0 := b.gates;
    var idx := 0;
    while idx < loc
      invariant 0 <= idx && (idx <= loc || idx == 0)
      invariant b.Valid() && b.qbitNum == q
      invariant b.gates == g0 + CloneInto(Copies(g, idx), q)
    {
      b.AddGateToEnd(CloneGate(g));
      UnitCloneStep(g0, g, idx, q);
      idx := idx + 1;
    }
  }

  /**
   * The loops of add_default_gate_layers on block b: for each target below
   * the control qubit qbit_num - 1, loc default layers put first.
   */
  method PrependAllDefaultLayers(b: GatesBlock, loc: int)
    requires b.Valid()
    modifies b
    ensures b.Valid() && b.qbitNum == old(b.qbitNum)
    ensures b.gates == Reverse(DefaultLayers(b.qbitNum, if loc > 0 then loc else 0, Targets(b.qbitNum))) + old(b.gates)
    ensures b.parameterNum == old(b.parameterNum) + 4 * |DefaultLayers(b.qbitNum, if loc > 0 then loc else 0, Targets(b.qbitNum))|
    ensures b.layerNum == old(b.layerNum) + |DefaultLayers(b.qbitNum, if loc > 0 then loc else 0, Targets(b.qbitNum))|
  {
    var q := b.qbitNum;
    var control := q - 1;
    ghost var k := if loc > 0 then loc else 0;
    ghost var g0, p0, l0 := b.gates, b.parameterNum, b.layerNum;
    var t := 0;
    while t < control
      invariant 0 <= t <= Targets(q) && (t < control || t == Targets(q))
      invariant b.Valid() && b.qbitNum == q
      invariant b.gates == Reverse(DefaultLayers(q, k, t)) + g0
      invariant b.parameterNum == p0 + 4 * |DefaultLayers(q, k, t)| && b.layerNum == l0 + |DefaultLayers(q, k, t)|
    {
      PrependDefaultLayers(b, t, control, loc);
      DefaultStep(q, k, t, g0, b.gates);
      t := t + 1;
    }
  }

  /**
   * The loops of add_gate_layers with a unit structure us: each unit gate
   * in turn cloned and added to the end of b, loc times.
   */
  method AppendUnitLayers(b: GatesBlock, us: seq<Gate>, loc: int)
    requires b.Valid() && AllCanonical(us)
    modifies b
    ensures b.Valid() && b.qbitNum == old(b.qbitNum)
    ensures b.gates == old(b.gates) + CloneInto(CustomLayers(us, if loc > 0 then loc else 0), b.qbitNum)
    ensures b.parameterNum == old(b.parameterNum) + SumParams(CustomLayers(us, if loc > 0 then loc else 0))
  {
    var q := b.qbitNum;
    ghost var k := if loc > 0 then loc else 0;
    ghost var g0 := b.gates;
    var i := 0;
    while i < |us|
      invariant 0 <= i <= |us| && b.Valid() && b.qbitNum == q
      invariant b.gates == g0 + CloneInto(CustomLayers(us[..i], k), q)
    {
      AppendClones(b, us[i], loc);
      CustomStep(g0, us, i, k, q);
      i := i + 1;
    }
    assert us[..i] == us;
    CustomCounts(us, k, q);
    SumParamsAppend(g0, CloneInto(CustomLayers(us, k), q));
  }

  /** Copies read the same backwards. */
  lemma ReverseCopies(g: Gate, k: nat)
    ensures Reverse(Copies(g, k)) == Copies(g, k)
  {
    forall i | 0 <= i < k ensures Reverse(Copies(g, k))[i] == g {
      ReverseAt(Copies(g, k), i);
    }
  }

  /** One more target: its run goes in front of the reversed earlier runs. */
  lemma DefaultStep(n: int, k: nat, t: nat, tail: seq<Gate>, gs: seq<Gate>)
    requires gs == Copies(DefaultLayer(n, t, n - 1), k) + (Reverse(DefaultLayers(n, k, t)) + tail)
    ensures gs == Reverse(DefaultLayers(n, k, t + 1)) + tail
  {
    ReverseAppend(DefaultLayers(n, k, t), Copies(DefaultLayer(n, t, n - 1), k));
    ReverseCopies(DefaultLayer(n, t, n - 1), k);
  }

  /** One more unit gate: its clones follow the earlier ones. */
  lemma CustomStep(head: seq<Gate>, us: seq<Gate>, i: nat, k: nat, q: int)
    requires i < |us|
    ensures head + CloneInto(CustomLayers(us[..i + 1], k), q) == (head + CloneInto(CustomLayers(us[..i], k), q)) + CloneInto(Copies(us[i], k), q)
  {
    assert us[..i + 1][..i] == us[..i];
    CloneIntoAppend(CustomLayers(us[..i], k), Copies(us[i], k), q);
  }

  // ---------------------------------------------------------------------
  // Search helpers
  // ---------------------------------------------------------------------

  /**
   * The routines the decomposer calls but that are not part of this model:
   * get_transformed_matrix, get_submatrix_cost_function, the tolerance test
   * check_optimization_solution applies to a minimum, and
   * solve_optimization_problem, which returns the new minimum and parameters.
   */
  datatype Oracles = Oracles(
    transform: (seq<real>, seq<Gate>, Matrix) -> Matrix,
    submatrixCost: Matrix -> real,
    solved: real -> bool,
    solve: (seq<Gate>, seq<real>, real) -> (real, seq<real>))

  /** What disentangle_submatrices did. */
  datatype Outcome = AlreadyDone | NotNeeded | Solved | Reached | Stalled

  /** The settings the base decomposer's constructor leaves for this one to adjust. */
  datatype BaseSettings = BaseSettings(maxLayerNum: map<int, int>, iterationLoops: map<int, int>, currentMinimum: real)

  /** The state of the rounds of solve_layer_optimization_problem. */
  datatype Search = Search(minimum: real, params: seq<real>, guess: seq<real>)

  /** The guess moved by the draws of one round, scaled down a hundredfold after an improvement. */
  function Shift(g: seq<real>, noise: (nat, nat) -> real, round: nat, improved: bool): (r: seq<real>)
    ensures |r| == |g|
  {
    seq(|g|, j requires 0 <= j < |g| => g[j] + (if improved then noise(round, j) / 100.0 else noise(round, j)))
  }

  /** The rounds from `from` up to n: a minimiser run from the guess, kept only when strictly better. */
  function Rounds(minimize: seq<real> -> (real, seq<real>), noise: (nat, nat) -> real, s: Search, from: nat, n: nat): Search
    decreases n - from
  {
    if from >= n then s
    else
      var run := minimize(s.guess);
      var next :=
        if s.minimum > run.0 then Search(run.0, run.1, Shift(s.guess, noise, from, true))
        else Search(s.minimum, s.params, Shift(s.guess, noise, from, false));
      Rounds(minimize, noise, next, from + 1, n)
  }

  /**
   * The best cost never increases over the rounds; it stays put only if the
   * parameters do, and a lower one is the result of a minimiser run.
   */
  lemma {:induction false} RoundsNeverWorse(minimize: seq<real> -> (real, seq<real>), noise: (nat, nat) -> real, s: Search, from: nat, n: nat)
    ensures Rounds(minimize, noise, s, from, n).minimum <= s.minimum
    ensures Rounds(minimize, noise, s, from, n).minimum == s.minimum ==> Rounds(minimize, noise, s, from, n).params == s.params
    ensures Rounds(minimize, noise, s, from, n).minimum < s.minimum ==>
              exists g :: minimize(g) == (Rounds(minimize, noise, s, from, n).minimum, Rounds(minimize, noise, s, from, n).params)
    ensures |Rounds(minimize, noise, s, from, n).guess| == |s.guess|
    decreases n - from
  {
    if from < n {
      var run := minimize(s.guess);
      var next :=
        if s.minimum > run.0 then Search(run.0, run.1, Shift(s.guess, noise, from, true))
        else Search(s.minimum, s.params, Shift(s.guess, noise, from, false));
      RoundsNeverWorse(minimize, noise, next, from + 1, n);
      var r := Rounds(minimize, noise, next, from + 1, n);
      if r.minimum < s.minimum && r.minimum == next.minimum {
        assert minimize(s.guess) == (r.minimum, r.params);
      }
    }
  }

  /** The forward-difference step of optimization_problem_combined. */
  const Dparam: real := 0.00000001

  /**
   * optimization_problem_combined: the cost at x and, for each parameter,
   * the forward difference of the cost with step Dparam.
   */
  method CombinedGradient(cost: seq<real> -> real, x: seq<real>) returns (f0: real, grad: seq<real>)
    ensures f0 == cost(x) && |grad| == |x|
    ensures forall i :: 0 <= i < |x| ==> grad[i] == (cost(x[i := x[i] + Dparam]) - cost(x)) / Dparam
  {
    var f: seq<real> := [];
    var i := 0;
    while i < |x|
      invariant 0 <= i <= |x| && |f| == i
      invariant forall j :: 0 <= j < i ==> f[j] == cost(x[j := x[j] + Dparam])
    {
      f := f + [cost(x[i := x[i] + Dparam])];
      i := i + 1;
    }
    f0 := cost(x);
    grad := [];
    var idx := 0;
    while idx < |x|
      invariant 0 <= idx <= |x| && |grad| == idx
      invariant forall j :: 0 <= j < idx ==> grad[j] == (f[j] - f0) / Dparam
    {
      grad := grad + [(f[idx] - f0) / Dparam];
      idx := idx + 1;
    }
  }

  /** The forward difference is exact for a cost linear in that parameter, and 0 for one it ignores. */
  lemma ForwardDifferenceExact(cost: seq<real> -> real, x: seq<real>, i: nat, slope: real, d: real)
    requires i < |x|
    requires cost(x[i := x[i] + Dparam]) == cost(x) + slope * Dparam
    requires d == (cost(x[i := x[i] + Dparam]) - cost(x)) / Dparam
    ensures d == slope
    ensures slope == 0.0 ==> d == 0.0
  {
  }

  // ---------------------------------------------------------------------
  // The decomposer
  // ---------------------------------------------------------------------

  class SubMatrixDecomposition {
    /** The gate block the decomposer is; its qubit count is qbit_num. */
    const structure: GatesBlock
    var umtx: Matrix
    var optimizeLayerNum: bool
    var globalTargetMinimum: real
    var currentMinimum: real
    /** optimized_parameters_mtx; empty until the first optimisation. */
    var params: seq<real>
    var maxLayerNum: map<int, int>
    var iterationLoops: map<int, int>
    var identicalBlocks: map<int, int>
    /** subdisentaglement_done. */
    var done: bool
    var subdecomposed: Matrix
    /** The gates of unit_gate_structure, None while it is NULL. */
    var unit: Option<seq<Gate>>

    /** The block's counter invariant, and a unit structure made by clone. */
    predicate Valid()
      reads this, structure
    {
      structure.Valid() && (unit.Some? ==> AllCanonical(unit.value))
    }

    /**
     * The constructor: no gates, no custom structure, target minimum 0,
     * three iteration loops for two qubits, and the default maximal layer
     * numbers filled in for the qubit counts the base settings lack.
     */
    constructor(umtx: Matrix, qbitNum: int, optimizeLayerNum: bool, base: BaseSettings, maxLayerNumDef: map<int, int>)
      ensures Valid() && fresh(structure)
      ensures structure.qbitNum == qbitNum && structure.gates == [] && structure.layerNum == 0
      ensures this.umtx == umtx && this.optimizeLayerNum == optimizeLayerNum
      ensures globalTargetMinimum == 0.0 && currentMinimum == base.currentMinimum && params == []
      ensures iterationLoops == base.iterationLoops[2 := 3]
      ensures maxLayerNum.Keys == base.maxLayerNum.Keys + maxLayerNumDef.Keys
      ensures forall k :: k in base.maxLayerNum ==> maxLayerNum[k] == base.maxLayerNum[k]
      ensures forall k :: k in maxLayerNumDef && k !in base.maxLayerNum ==> maxLayerNum[k] == maxLayerNumDef[k]
      ensures identicalBlocks == map[] && !done && unit.None?
    {
      var m := FillDefaults(base.maxLayerNum, maxLayerNumDef);
      structure := new GatesBlock(qbitNum);
      this.umtx := umtx;
      this.optimizeLayerNum := optimizeLayerNum;
      globalTargetMinimum := 0.0;
      currentMinimum := base.currentMinimum;
      params := [];
      iterationLoops := base.iterationLoops[2 := 3];
      maxLayerNum := m;
      identicalBlocks := map[];
      done := false;
      subdecomposed := umtx;
      unit := None;
    }

    /** set_identical_blocks(qbit, n): the entry for qbit becomes n. Returns 0. */
    method SetIdenticalBlocks(qbit: int, n: int) returns (status: int)
      modifies this`identicalBlocks
      ensures status == 0 && identicalBlocks == old(identicalBlocks)[qbit := n]
    {
      identicalBlocks := identicalBlocks[qbit := n];
      status := 0;
    }

    /** set_identical_blocks(map): every entry is set; other keys keep their values. Returns 0. */
    method SetIdenticalBlocksAll(entries: map<int, int>) returns (status: int)
      modifies this`identicalBlocks
      ensures status == 0 && identicalBlocks.Keys == old(identicalBlocks).Keys + entries.Keys
      ensures forall k :: k in entries ==> identicalBlocks[k] == entries[k]
      ensures forall k :: k in old(identicalBlocks) && k !in entries ==> identicalBlocks[k] == old(identicalBlocks)[k]
    {
      identicalBlocks := OverwriteEach(identicalBlocks, entries);
      status := 0;
    }

    /** set_custom_gate_layers: the unit structure becomes a clone of the block. */
    method SetCustomGateLayers(block: GatesBlock)
      requires Valid()
      modifies this`unit
      ensures Valid() && unit == Some(CloneInto(block.gates, block.qbitNum))
    {
      CloneIntoCanonical(block.gates, block.qbitNum);
      unit := Some(CloneInto(block.gates, block.qbitNum));
    }

    /**
     * add_default_gate_layers: for every target below the control qubit
     * qbit_num - 1, the repetition count of default layers is put first,
     * one at a time. Reading identical_blocks inserts a missing entry.
     */
    method AddDefaultGateLayers()
      requires Valid()
      modifies this`identicalBlocks, structure
      ensures Valid() && structure.qbitNum == old(structure.qbitNum)
      ensures identicalBlocks == Touch(old(identicalBlocks), structure.qbitNum)
      ensures structure.gates ==
                Reverse(DefaultLayers(structure.qbitNum, Reps(At(old(identicalBlocks), structure.qbitNum)), Targets(structure.qbitNum))) +
                old(structure.gates)
      ensures structure.parameterNum ==
                old(structure.parameterNum) + 4 * |DefaultLayers(structure.qbitNum, Reps(At(old(identicalBlocks), structure.qbitNum)), Targets(structure.qbitNum))|
      ensures structure.layerNum ==
                old(structure.layerNum) + |DefaultLayers(structure.qbitNum, Reps(At(old(identicalBlocks), structure.qbitNum)), Targets(structure.qbitNum))|
    {
      var loc := IdenticalBlocksLoc();
      PrependAllDefaultLayers(structure, loc);
    }

    /**
     * The repetition count both layer builders read: identical_blocks at
     * qbit_num through operator[], which inserts a missing entry, with 0
     * read as 1.
     */
    method IdenticalBlocksLoc() returns (loc: int)
      modifies this`identicalBlocks
      ensures identicalBlocks == Touch(old(identicalBlocks), structure.qbitNum)
      ensures Reps(At(old(identicalBlocks), structure.qbitNum)) == if loc > 0 then loc else 0
      ensures loc != 0
    {
      var v := At(identicalBlocks, structure.qbitNum);
      identicalBlocks := Touch(identicalBlocks, structure.qbitNum);
      loc := if v == 0 then 1 else v;
    }

    /**
     * add_gate_layers with a unit structure: each unit gate in turn is
     * cloned and added to the end the repetition count of times.
     */
    method AddCustomGateLayers()
      requires Valid() && unit.Some?
      modifies this`identicalBlocks, structure
      ensures Valid() && structure.qbitNum == old(structure.qbitNum)
      ensures identicalBlocks == Touch(old(identicalBlocks), structure.qbitNum)
      ensures structure.gates ==
                old(structure.gates) + CloneInto(CustomLayers(unit.value, Reps(At(old(identicalBlocks), structure.qbitNum))), structure.qbitNum)
      ensures structure.parameterNum ==
                old(structure.parameterNum) + SumParams(CustomLayers(unit.value, Reps(At(old(identicalBlocks), structure.qbitNum))))
    {
      var loc := IdenticalBlocksLoc();
      AppendUnitLayers(structure, unit.value, loc);
    }

    /**
     * add_gate_layers: the default layers while there is no unit structure,
     * the repeated unit gates otherwise.
     */
    method AddGateLayers()
      requires Valid()
      modifies this`identicalBlocks, structure
      ensures Valid() && structure.qbitNum == old(structure.qbitNum)
      ensures identicalBlocks == Touch(old(identicalBlocks), structure.qbitNum)
      ensures structure.gates == Grown(old(structure.gates), unit, structure.qbitNum, Reps(At(old(identicalBlocks), structure.qbitNum)))
    {
      if unit.None? {
        AddDefaultGateLayers();
      } else {
        AddCustomGateLayers();
      }
    }

    /**
     * disentangle_submatrices. Once done it does nothing. Otherwise the cost
     * of the present gates is taken as the minimum; within tolerance, the
     * matrix counts as disentangled as it is. Otherwise layers are added
     * until the maximal layer number for qbit_num is reached or an
     * optimisation reaches the tolerance; then the decomposer is done and
     * the sub-decomposed matrix is the transformed one.
     */
    method DisentangleSubmatrices(o: Oracles) returns (outcome: Outcome, rounds: nat)
      requires Valid()
      modifies this`identicalBlocks, this`maxLayerNum, this`globalTargetMinimum, this`currentMinimum, this`params,
               this`done, this`subdecomposed, structure
      ensures Valid() && done && structure.qbitNum == old(structure.qbitNum)
      ensures old(done) ==> outcome == AlreadyDone && unchanged(this) && unchanged(structure)
      ensures !old(done) ==> globalTargetMinimum == 0.0
      ensures outcome == NotNeeded <==>
                !old(done) && o.solved(o.submatrixCost(o.transform([], old(structure.gates), umtx)))
      ensures outcome == NotNeeded ==> subdecomposed == umtx && unchanged(structure) && maxLayerNum == old(maxLayerNum)
      ensures outcome in {Solved, Reached, Stalled} ==>
                maxLayerNum == Touch(old(maxLayerNum), structure.qbitNum) &&
                subdecomposed == o.transform(params, structure.gates, umtx) &&
                structure.gates == GrowN(old(structure.gates), unit, structure.qbitNum, Reps(At(old(identicalBlocks), structure.qbitNum)), rounds)
      ensures outcome == Solved ==> o.solved(currentMinimum)
      ensures outcome == Reached ==> structure.layerNum >= At(old(maxLayerNum), structure.qbitNum)
      ensures outcome == Stalled ==>
                Added(unit, structure.qbitNum, Reps(At(old(identicalBlocks), structure.qbitNum))) == 0 &&
                structure.layerNum < At(old(maxLayerNum), structure.qbitNum)
    {
      if done {
        return AlreadyDone, 0;
      }
      globalTargetMinimum := 0.0;
      currentMinimum := o.submatrixCost(o.transform([], structure.gates, umtx));
      if o.solved(currentMinimum) {
        subdecomposed := umtx;
        done := true;
        return NotNeeded, 0;
      }
      outcome, rounds := Disentangle(o);
    }

    /**
     * The search of disentangle_submatrices once the present gates are not
     * within tolerance: layers are added until the maximal layer number is
     * reached (reading it inserts a missing entry) or an optimisation
     * reaches the tolerance.
     */
    method Disentangle(o: Oracles) returns (outcome: Outcome, rounds: nat)
      requires Valid()
      modifies this`identicalBlocks, this`maxLayerNum, this`currentMinimum, this`params, this`done, this`subdecomposed, structure
      ensures Valid() && done && structure.qbitNum == old(structure.qbitNum)
      ensures outcome in {Solved, Reached, Stalled}
      ensures maxLayerNum == Touch(old(maxLayerNum), structure.qbitNum)
      ensures subdecomposed == o.transform(params, structure.gates, umtx)
      ensures structure.gates == GrowN(old(structure.gates), unit, structure.qbitNum, Reps(At(old(identicalBlocks), structure.qbitNum)), rounds)
      ensures outcome == Solved ==> o.solved(currentMinimum)
      ensures outcome == Reached ==> structure.layerNum >= At(old(maxLayerNum), structure.qbitNum)
      ensures outcome == Stalled ==>
                Added(unit, structure.qbitNum, Reps(At(old(identicalBlocks), structure.qbitNum))) == 0 &&
                structure.layerNum < At(old(maxLayerNum), structure.qbitNum)
    {
      var q := structure.qbitNum;
      var maxLoc := At(maxLayerNum, q);
      maxLayerNum := Touch(maxLayerNum, q);
      ghost var g0, k := structure.gates, Reps(At(identicalBlocks, q));
      outcome, rounds := AddLayersUntil(o, maxLoc);
      done := true;
      subdecomposed := o.transform(params, structure.gates, umtx);
      if outcome == Stalled {
        GrownLength(GrowN(g0, unit, q, k, rounds - 1), unit, q, k);
      }
    }

    /**
     * The loop of disentangle_submatrices: a round adds layers, sets the
     * layer counter to the gate count and, when layers are being minimised
     * or the maximum is reached, optimises and stops within tolerance. A
     * round that adds no gate leaves the loop condition as it was, so the
     * source repeats that round for ever (see RoundsAddNothing); the model
     * stops there with Stalled.
     */
    method AddLayersUntil(o: Oracles, maxLoc: int) returns (outcome: Outcome, rounds: nat)
      requires Valid()
      modifies this`identicalBlocks, this`currentMinimum, this`params, structure
      ensures Valid() && structure.qbitNum == old(structure.qbitNum)
      ensures At(identicalBlocks, structure.qbitNum) == At(old(identicalBlocks), structure.qbitNum)
      ensures outcome in {Solved, Reached, Stalled}
      ensures structure.gates == GrowN(old(structure.gates), unit, structure.qbitNum, Reps(At(old(identicalBlocks), structure.qbitNum)), rounds)
      ensures outcome == Solved ==> o.solved(currentMinimum)
      ensures outcome == Reached ==> structure.layerNum >= maxLoc
      ensures outcome == Stalled ==>
                rounds > 0 && structure.layerNum < maxLoc &&
                |structure.gates| == |GrowN(old(structure.gates), unit, structure.qbitNum, Reps(At(old(identicalBlocks), structure.qbitNum)), rounds - 1)|
    {
      var q := structure.qbitNum;
      ghost var k := Reps(At(identicalBlocks, q));
      ghost var g0 := structure.gates;
      outcome, rounds := Reached, 0;
      while structure.layerNum < maxLoc
        invariant Valid() && structure.qbitNum == q && unit == old(unit)
        invariant At(identicalBlocks, q) == At(old(identicalBlocks), q)
        invariant structure.gates == GrowN(g0, unit, q, k, rounds)
        decreases (if |structure.gates| < maxLoc then maxLoc - |structure.gates| else 0),
                  (if structure.layerNum == |structure.gates| then 0 else 1)
      {
        var before := |structure.gates|;
        var solved := LayerRound(o, maxLoc);
        rounds := rounds + 1;
        if solved {
          outcome := Solved;
          break;
        }
        if |structure.gates| == before && structure.layerNum < maxLoc {
          outcome := Stalled;
          break;
        }
      }
    }

    /**
     * One round of the loop of disentangle_submatrices: layers are added,
     * the layer counter becomes the gate count, and when layers are being
     * minimised or the maximum is reached the problem is solved again.
     * Reports whether that optimisation reached the tolerance.
     */
    method LayerRound(o: Oracles, maxLoc: int) returns (solved: bool)
      requires Valid()
      modifies this`identicalBlocks, this`currentMinimum, this`params, structure
      ensures Valid() && structure.qbitNum == old(structure.qbitNum)
      ensures At(identicalBlocks, structure.qbitNum) == At(old(identicalBlocks), structure.qbitNum)
      ensures structure.gates == Grown(old(structure.gates), unit, structure.qbitNum, Reps(At(old(identicalBlocks), structure.qbitNum)))
      ensures structure.layerNum == |structure.gates|
      ensures optimizeLayerNum || structure.layerNum >= maxLoc ==>
                (currentMinimum, params) == o.solve(structure.gates, old(params), old(currentMinimum))
      ensures !(optimizeLayerNum || structure.layerNum >= maxLoc) ==> currentMinimum == old(currentMinimum) && params == old(params)
      ensures solved <==> (optimizeLayerNum || structure.layerNum >= maxLoc) && o.solved(currentMinimum)
    {
      AddGateLayers();
      structure.layerNum := |structure.gates|;
      solved := false;
      if optimizeLayerNum || structure.layerNum >= maxLoc {
        var (m, p) := o.solve(structure.gates, params, currentMinimum);
        currentMinimum, params := m, p;
        solved := o.solved(currentMinimum);
      }
    }

    /**
     * solve_layer_optimization_problem: nothing without gates. Otherwise the
     * guess fills empty parameters, and max(iteration_loops[qbit_num], 1)
     * rounds run the minimiser from the guess, keep a strictly better
     * result, and move the guess by the round's draws.
     */
    method SolveLayerOptimizationProblem(numOfParameters: nat, guess: seq<real>,
                                         minimize: seq<real> -> (real, seq<real>), noise: (nat, nat) -> real)
      requires |guess| == numOfParameters
      modifies this`params, this`currentMinimum, this`iterationLoops
      ensures structure.gates == [] ==> unchanged(this)
      ensures structure.gates != [] ==>
                iterationLoops == Touch(old(iterationLoops), structure.qbitNum) &&
                var s := Rounds(minimize, noise, Search(old(currentMinimum), if old(params) == [] then guess else old(params), guess),
                                0, if At(old(iterationLoops), structure.qbitNum) > 1 then At(old(iterationLoops), structure.qbitNum) else 1);
                currentMinimum == s.minimum && params == s.params
    {
      if |structure.gates| == 0 {
        return;
      }
      if |params| == 0 {
        params := guess;
      }
      var v := At(iterationLoops, structure.qbitNum);
      var loopsMax := if v > 1 then v else 1;
      iterationLoops := Touch(iterationLoops, structure.qbitNum);
      ghost var start := Search(currentMinimum, params, guess);
      var g := guess;
      var idx := 0;
      while idx < loopsMax
        invariant 0 <= idx <= loopsMax && iterationLoops == Touch(old(iterationLoops), structure.qbitNum)
        invariant Rounds(minimize, noise, Search(currentMinimum, params, g), idx, loopsMax) == Rounds(minimize, noise, start, 0, loopsMax)
      {
        var (f, x) := minimize(g);
        if currentMinimum > f {
          currentMinimum, params := f, x;
          g := Shift(g, noise, idx, true);
        } else {
          g := Shift(g, noise, idx, false);
        }
        idx := idx + 1;
      }
    }

    /**
     * clone: a new decomposer on the same matrix, qubit count and layer
     * setting, given the identical blocks, maximal layer numbers and
     * iteration loops, and clones of the gates.
     */
    method Clone(base: BaseSettings, maxLayerNumDef: map<int, int>) returns (c: SubMatrixDecomposition)
      requires Valid()
      ensures fresh(c) && fresh(c.structure) && c.Valid()
      ensures c.umtx == umtx && c.optimizeLayerNum == optimizeLayerNum && c.structure.qbitNum == structure.qbitNum
      ensures c.structure.gates == CloneInto(structure.gates, structure.qbitNum)
      ensures forall k :: k in identicalBlocks ==> k in c.identicalBlocks && c.identicalBlocks[k] == identicalBlocks[k]
      ensures forall k :: k in maxLayerNum ==> k in c.maxLayerNum && c.maxLayerNum[k] == maxLayerNum[k]
      ensures forall k :: k in iterationLoops ==> k in c.iterationLoops && c.iterationLoops[k] == iterationLoops[k]
      ensures c.unit.None? && !c.done
    {
      c := new SubMatrixDecomposition(umtx, structure.qbitNum, optimizeLayerNum, base, maxLayerNumDef);
      var s := c.SetIdenticalBlocksAll(identicalBlocks);
      c.maxLayerNum := OverwriteEach(c.maxLayerNum, maxLayerNum);
      c.iterationLoops := OverwriteEach(c.iterationLoops, iterationLoops);
      var r := structure.ExtractGates(c.structure);
    }
  }

  /** Cloning the custom layers of a canonical unit keeps their parameter count. */
  lemma CustomCounts(us: seq<Gate>, k: nat, q: int)
    requires AllCanonical(us)
    ensures SumParams(CloneInto(CustomLayers(us, k), q)) == SumParams(CustomLayers(us, k))
  {
    CustomLayersMembers(us, k);
    var all := CustomLayers(us, k);
    forall i | 0 <= i < |all| ensures Canonical(all[i]) {
      assert all[i] in us;
    }
    CloneIntoCounts(all, q);
  }
}
