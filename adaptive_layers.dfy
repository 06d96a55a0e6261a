/**
 * The layers of the adaptive decomposition: one sub-block per qubit pair
 * (every pair t < c, or every edge of a given topology), gathered into one
 * block by add_gate in deterministic or randomized order, the finalising
 * layer of U3 gates put in front of the structure, and the structure the
 * level search builds from `level` rounds of pair layers.
 */
module AdaptiveLayers {
  import opened Common
  import opened GateTree
  import opened GatesBlocks

  const NotTwoQubits: string := "The connectivity data should contains two qubits"
  const LabelTooLarge: string := "Label of control/target qubit should be less than the number of qubits in the register."
  const NullStructure: string := "N_Qubit_Decomposition_adaptive::add_finalyzing_layer: gate_structure is null pointer"

  /** A U3 gate with all three angles free, as add_u3(q, true, true, true) creates it. */
  function U3On(n: int, q: int): Gate
  {
    Leaf(U3(true, true, true), n, q, -1)
  }

  /**
   * The sub-block of one qubit pair: add_u3(target), add_u3(control) and
   * add_adaptive(target, control), each of which puts its gate first.
   */
  function PairLayer(n: int, t: int, c: int): Gate
  {
    Block(n, 7, 0, [Leaf(Adaptive, n, t, c), U3On(n, c), U3On(n, t)])
  }

  /** A nested block on n qubits with exact counters and 7 parameters. */
  predicate LayerShape(g: Gate, n: int)
  {
    g.Block? && g.qbitNum == n && g.parameterNum == 7 && Canonical(g)
  }

  /** A pair layer is a canonical block of two 3-parameter U3 gates and one adaptive gate. */
  lemma PairLayerShape(n: int, t: int, c: int)
    ensures LayerShape(PairLayer(n, t, c), n)
    ensures BlockCount(PairLayer(n, t, c).gates) == 0
  {
    var a, u, v := Leaf(Adaptive, n, t, c), U3On(n, c), U3On(n, t);
    var gs := [a, u, v];
    assert SumParams([a]) == 1 && BlockCount([a]) == 0 by {
      assert [a][..0] == [];
    }
    assert SumParams([a, u]) == 4 && BlockCount([a, u]) == 0 by {
      assert [a, u][..1] == [a];
    }
    assert SumParams(gs) == 7 && BlockCount(gs) == 0 by {
      assert gs[..2] == [a, u];
    }
    assert AllCanonical(gs) && AllOnQubits(gs, n);
  }

  /** The pair layer built through a block, gate by gate, as the source builds it. */
  method BuildPairLayer(n: int, t: int, c: int) returns (layer: GatesBlock)
    ensures fresh(layer) && layer.Valid() && layer.AsGate() == PairLayer(n, t, c)
  {
    layer := new GatesBlock(n);
    layer.AddGate(U3On(n, t));
    layer.AddGate(U3On(n, c));
    layer.AddGate(Leaf(Adaptive, n, t, c));
    PairLayerShape(n, t, c);
  }

  // ---------------------------------------------------------------------
  // The qubit pairs
  // ---------------------------------------------------------------------

  /** The pairs (t, c) of the inner loop for target t: c from t + 1 up to n - 1. */
  function Row(t: int, n: int): (r: seq<(int, int)>)
    ensures |r| == if t + 1 < n then n - t - 1 else 0
  {
    seq(if t + 1 < n then n - t - 1 else 0, k requires 0 <= k => (t, t + 1 + k))
  }

  /** The pairs (target, control) of the nested loops, from target t on, in loop order. */
  function PairsFrom(t: nat, n: int): seq<(int, int)>
    decreases n - t
  {
    if t >= n then [] else Row(t, n) + PairsFrom(t + 1, n)
  }

  /** Every pair t < c of n qubits, target-major. */
  function AllPairs(n: int): seq<(int, int)>
  {
    PairsFrom(0, n)
  }

  /** The pairs from target t on are exactly the t <= target < control < n. */
  lemma {:induction false} PairsFromMembers(t: nat, n: int)
    ensures forall p :: p in PairsFrom(t, n) <==> t <= p.0 < p.1 < n
    decreases n - t
  {
    if t < n {
      PairsFromMembers(t + 1, n);
      var row := Row(t, n);
      forall p: (int, int)
        ensures p in row <==> p.0 == t && t < p.1 < n
      {
        if p.0 == t && t < p.1 < n {
          assert row[p.1 - t - 1] == p;
        }
      }
    }
  }

  /** No pair is enumerated twice. */
  lemma {:induction false} PairsFromDistinct(t: nat, n: int)
    ensures forall i, j :: 0 <= i < j < |PairsFrom(t, n)| ==> PairsFrom(t, n)[i] != PairsFrom(t, n)[j]
    decreases n - t
  {
    if t < n {
      PairsFromDistinct(t + 1, n);
      PairsFromMembers(t + 1, n);
      var row, rest := Row(t, n), PairsFrom(t + 1, n);
      var all := row + rest;
      assert all == PairsFrom(t, n);
      forall i, j | 0 <= i < j < |all|
        ensures all[i] != all[j]
      {
        if j < |row| {
          assert all[i] == row[i] && all[j] == row[j];
        } else if i < |row| {
          assert all[j] == rest[j - |row|] && all[j] in rest;
        } else {
          assert all[i] == rest[i - |row|] && all[j] == rest[j - |row|];
        }
      }
    }
  }

  /** Twice the number of pairs from target t on is (n - t)(n - t - 1). */
  lemma {:induction false} PairsFromCount(t: nat, n: int)
    requires t <= n
    ensures 2 * |PairsFrom(t, n)| == (n - t) * (n - t - 1)
    decreases n - t
  {
    if t < n {
      PairsFromCount(t + 1, n);
      var d := n - t;
      assert (d - 1) * (d - 2) + 2 * (d - 1) == (d - 1) * d;
    }
  }

  /** Without a topology there are n(n - 1)/2 layers: every pair t < c once. */
  lemma AllPairsMeaning(n: nat)
    ensures 2 * |AllPairs(n)| == n * (n - 1)
    ensures forall p :: p in AllPairs(n) <==> 0 <= p.0 < p.1 < n
    ensures forall i, j :: 0 <= i < j < |AllPairs(n)| ==> AllPairs(n)[i] != AllPairs(n)[j]
  {
    PairsFromCount(0, n);
    PairsFromMembers(0, n);
    PairsFromDistinct(0, n);
  }

  /** A topology edge is usable when it names two qubits, both below n. */
  predicate GoodEdge(e: seq<int>, n: int)
  {
    |e| == 2 && e[0] < n && e[1] < n
  }

  /** The message the source prints before exiting on a bad edge. */
  function EdgeError(e: seq<int>): string
  {
    if |e| != 2 then NotTwoQubits else LabelTooLarge
  }

  /**
   * The topology loop: each edge [control, target] gives the pair
   * (target, control); the first bad edge stops the construction.
   */
  function CheckTopology(topo: seq<seq<int>>, n: int): Result<seq<(int, int)>>
  {
    if topo == [] then Ok([])
    else
      match CheckTopology(topo[..|topo| - 1], n)
      case Err(m) => Err(m)
      case Ok(ps) =>
        var e := topo[|topo| - 1];
        if !GoodEdge(e, n) then Err(EdgeError(e)) else Ok(ps + [(e[1], e[0])])
  }

  /** The topology check accepts exactly the lists of good edges, keeping one reversed pair per edge in order. */
  lemma {:induction false} CheckTopologyOk(topo: seq<seq<int>>, n: int)
    ensures CheckTopology(topo, n).Ok? <==> forall i :: 0 <= i < |topo| ==> GoodEdge(topo[i], n)
    ensures CheckTopology(topo, n).Ok? ==>
              |CheckTopology(topo, n).value| == |topo| &&
              forall i :: 0 <= i < |topo| ==> CheckTopology(topo, n).value[i] == (topo[i][1], topo[i][0])
  {
    if topo != [] {
      var init := topo[..|topo| - 1];
      CheckTopologyOk(init, n);
      assert forall j :: 0 <= j < |init| ==> topo[j] == init[j];
    }
  }

  /** A topology whose first bad edge is at i is rejected with that edge's message. */
  lemma CheckTopologyFirstBad(topo: seq<seq<int>>, n: int, i: nat)
    requires i < |topo| && !GoodEdge(topo[i], n)
    requires forall j :: 0 <= j < i ==> GoodEdge(topo[j], n)
    ensures CheckTopology(topo, n) == Err(EdgeError(topo[i]))
  {
    CheckTopologyOk(topo[..i], n);
    assert topo[..i + 1][..i] == topo[..i];
    assert topo[..i + 1][i] == topo[i];
    CheckTopologyErrorSticks(topo, i + 1, n);
  }

  /** An error on a prefix of the topology is the error of the whole topology. */
  lemma {:induction false} CheckTopologyErrorSticks(topo: seq<seq<int>>, i: nat, n: int)
    requires i <= |topo| && CheckTopology(topo[..i], n).Err?
    ensures CheckTopology(topo, n) == CheckTopology(topo[..i], n)
    decreases |topo| - i
  {
    if i < |topo| {
      assert topo[..i + 1][..i] == topo[..i];
      CheckTopologyErrorSticks(topo, i + 1, n);
    } else {
      assert topo[..i] == topo;
    }
  }

  /** The pairs construct_adaptive_gate_layers uses: the topology's edges when it has any, otherwise every pair. */
  function LayerPairs(topo: seq<seq<int>>, n: int): Result<seq<(int, int)>>
  {
    if |topo| > 0 then CheckTopology(topo, n) else Ok(AllPairs(n))
  }

  // ---------------------------------------------------------------------
  // Collecting and ordering the layers
  // ---------------------------------------------------------------------

  /** One pair layer per pair, in the order of the pairs. */
  function LayersOf(n: int, ps: seq<(int, int)>): (ls: seq<Gate>)
    ensures |ls| == |ps|
  {
    seq(|ps|, i requires 0 <= i < |ps| => PairLayer(n, ps[i].0, ps[i].1))
  }

  lemma LayersOfAppend(n: int, a: seq<(int, int)>, b: seq<(int, int)>)
    ensures LayersOf(n, a + b) == LayersOf(n, a) + LayersOf(n, b)
  {
    assert forall i :: 0 <= i < |a| ==> (a + b)[i] == a[i];
    assert forall i :: |a| <= i < |a + b| ==> (a + b)[i] == b[i - |a|];
  }

  lemma LayersOfShape(n: int, ps: seq<(int, int)>)
    ensures forall i :: 0 <= i < |ps| ==> LayerShape(LayersOf(n, ps)[i], n)
  {
    forall i | 0 <= i < |ps| ensures LayerShape(LayersOf(n, ps)[i], n) {
      PairLayerShape(n, ps[i].0, ps[i].1);
    }
  }

  /** A list of 7-parameter layers has 7 parameters per layer and one nested block per layer. */
  lemma {:induction false} ShapedCounts(gs: seq<Gate>, n: int)
    requires forall i :: 0 <= i < |gs| ==> LayerShape(gs[i], n)
    ensures SumParams(gs) == 7 * |gs| && BlockCount(gs) == |gs|
    ensures AllCanonical(gs) && AllOnQubits(gs, n)
  {
    if gs != [] {
      ShapedCounts(gs[..|gs| - 1], n);
    }
  }

  /** The layers of the topology loop, one per edge; the first bad edge ends it with the source's message. */
  method TopologyLayers(n: int, topo: seq<seq<int>>) returns (r: Result<seq<Gate>>)
    ensures r.Err? == CheckTopology(topo, n).Err?
    ensures r.Err? ==> r.msg == CheckTopology(topo, n).msg
    ensures r.Ok? ==> r.value == LayersOf(n, CheckTopology(topo, n).value)
  {
    var layers: seq<Gate> := [];
    var i := 0;
    while i < |topo|
      invariant 0 <= i <= |topo|
      invariant CheckTopology(topo[..i], n).Ok?
      invariant layers == LayersOf(n, CheckTopology(topo[..i], n).value)
    {
      var e := topo[i];
      assert topo[..i + 1][..i] == topo[..i];
      assert topo[..i + 1][i] == e;
      if |e| != 2 {
        CheckTopologyErrorSticks(topo, i + 1, n);
        return Err(NotTwoQubits);
      }
      var control, target := e[0], e[1];
      if control >= n || target >= n {
        CheckTopologyErrorSticks(topo, i + 1, n);
        return Err(LabelTooLarge);
      }
      var layer := BuildPairLayer(n, target, control);
      LayersOfAppend(n, CheckTopology(topo[..i], n).value, [(target, control)]);
      layers := layers + [layer.AsGate()];
      i := i + 1;
    }
    assert topo[..i] == topo;
    return Ok(layers);
  }

  /** The layers of the inner loop for target t: control from t + 1 up. */
  method RowLayers(n: int, t: int) returns (layers: seq<Gate>)
    ensures layers == LayersOf(n, Row(t, n))
  {
    var row := Row(t, n);
    layers := [];
    var c := t + 1;
    while c < n
      invariant t + 1 <= c && (c <= n || c == t + 1)
      invariant c - t - 1 <= |row|
      invariant layers == LayersOf(n, row[..c - t - 1])
    {
      var k := c - t - 1;
      assert row[..k + 1] == row[..k] + [(t, c)];
      LayersOfAppend(n, row[..k], [(t, c)]);
      var layer := BuildPairLayer(n, t, c);
      layers := layers + [layer.AsGate()];
      c := c + 1;
    }
    assert row[..c - t - 1] == row;
  }

  /** The layers of the nested loops without topology: one per pair t < c, target-major. */
  method AllPairLayers(n: int) returns (layers: seq<Gate>)
    ensures layers == LayersOf(n, AllPairs(n))
  {
    layers := [];
    var t := 0;
    while t < n
      invariant 0 <= t && (t <= n || t == 0)
      invariant LayersOf(n, AllPairs(n)) == layers + LayersOf(n, PairsFrom(t, n))
    {
      PairsFromStep(n, t, layers);
      var row := RowLayers(n, t);
      layers := layers + row;
      t := t + 1;
    }
  }

  lemma PairsFromStep(n: int, t: nat, head: seq<Gate>)
    requires t < n
    ensures head + LayersOf(n, PairsFrom(t, n)) == (head + LayersOf(n, Row(t, n))) + LayersOf(n, PairsFrom(t + 1, n))
  {
    LayersOfAppend(n, Row(t, n), PairsFrom(t + 1, n));
  }

  /** The first half of construct_adaptive_gate_layers: the pair layers, from the topology when it has edges. */
  method CollectLayers(n: int, topo: seq<seq<int>>) returns (r: Result<seq<Gate>>)
    ensures r.Err? == LayerPairs(topo, n).Err?
    ensures r.Err? ==> r.msg == LayerPairs(topo, n).msg
    ensures r.Ok? ==> r.value == LayersOf(n, LayerPairs(topo, n).value)
  {
    if |topo| > 0 {
      r := TopologyLayers(n, topo);
    } else {
      var layers := AllPairLayers(n);
      r := Ok(layers);
    }
  }

  /** The deterministic order: the first remaining layer goes to the front each time, so the block holds them reversed. */
  method FrontInOrder(n: int, layers: seq<Gate>) returns (block: GatesBlock)
    requires forall i :: 0 <= i < |layers| ==> LayerShape(layers[i], n)
    ensures fresh(block) && block.Valid() && block.qbitNum == n
    ensures block.gates == Reverse(layers)
    ensures block.parameterNum == 7 * |layers|
  {
    block := new GatesBlock(n);
    var i := 0;
    while i < |layers|
      invariant 0 <= i <= |layers|
      invariant fresh(block) && block.Valid() && block.qbitNum == n
      invariant block.gates == Reverse(layers[..i])
      invariant block.parameterNum == 7 * i
    {
      var g := layers[i];
      WithOwnQbitNum(g);
      assert layers[..i + 1] == layers[..i] + [g];
      block.AddGate(g);
      i := i + 1;
    }
    assert layers[..i] == layers;
  }

  /** The randomized order: the layer picked by draw % (layers left) goes to the front each time. */
  method FrontRandomized(n: int, layers: seq<Gate>, draw: nat -> nat) returns (block: GatesBlock)
    requires forall i :: 0 <= i < |layers| ==> LayerShape(layers[i], n)
    ensures fresh(block) && block.Valid() && block.qbitNum == n
    ensures multiset(block.gates) == multiset(layers)
    ensures block.parameterNum == 7 * |layers|
    ensures forall i :: 0 <= i < |block.gates| ==> LayerShape(block.gates[i], n)
  {
    block := new GatesBlock(n);
    var rest := layers;
    var k := 0;
    while |rest| > 0
      invariant fresh(block) && block.Valid() && block.qbitNum == n
      invariant multiset(block.gates) + multiset(rest) == multiset(layers)
      invariant |block.gates| + |rest| == |layers|
      invariant forall i :: 0 <= i < |rest| ==> LayerShape(rest[i], n)
      invariant forall i :: 0 <= i < |block.gates| ==> LayerShape(block.gates[i], n)
      invariant block.parameterNum == 7 * |block.gates|
      decreases |rest|
    {
      var idx := draw(k) % |rest|;
      var g := rest[idx];
      WithOwnQbitNum(g);
      var done := block.gates;
      block.AddGate(g);
      rest := RemoveStep(n, rest, idx, done);
      k := k + 1;
    }
  }

  /** Taking layer idx out of the remaining ones and putting it in front of done. */
  function RemoveStep(n: int, rest: seq<Gate>, idx: nat, done: seq<Gate>): (r: seq<Gate>)
    requires idx < |rest|
    requires forall i :: 0 <= i < |rest| ==> LayerShape(rest[i], n)
    requires forall i :: 0 <= i < |done| ==> LayerShape(done[i], n)
    ensures r == rest[..idx] + rest[idx + 1..]
    ensures multiset([rest[idx]] + done) + multiset(r) == multiset(done) + multiset(rest)
    ensures |r| == |rest| - 1
    ensures forall i :: 0 <= i < |r| ==> LayerShape(r[i], n)
    ensures forall i :: 0 <= i < |done| + 1 ==> LayerShape(([rest[idx]] + done)[i], n)
  {
    assert rest == rest[..idx] + [rest[idx]] + rest[idx + 1..];
    rest[..idx] + rest[idx + 1..]
  }

  /** The reversed layers are the same layers. */
  lemma {:induction false} ReverseShape(n: int, layers: seq<Gate>)
    requires forall i :: 0 <= i < |layers| ==> LayerShape(layers[i], n)
    ensures forall i :: 0 <= i < |layers| ==> LayerShape(Reverse(layers)[i], n)
    ensures multiset(Reverse(layers)) == multiset(layers)
  {
    forall i | 0 <= i < |layers| ensures LayerShape(Reverse(layers)[i], n) {
      ReverseAt(layers, i);
    }
    if layers != [] {
      var init := layers[..|layers| - 1];
      ReverseShape(n, init);
      assert layers == init + [layers[|layers| - 1]];
    }
  }

  /**
   * construct_adaptive_gate_layers: a new block holding one 7-parameter
   * sub-block per pair, in reverse pair order when not randomized and in an
   * order chosen by draw otherwise; a bad topology edge ends it with the
   * source's message.
   */
  method ConstructAdaptiveGateLayers(n: int, topo: seq<seq<int>>, randomized: bool, draw: nat -> nat)
    returns (r: Result<GatesBlock>)
    ensures r.Err? == LayerPairs(topo, n).Err?
    ensures r.Err? ==> r.msg == LayerPairs(topo, n).msg
    ensures r.Ok? ==> fresh(r.value) && r.value.Valid() && r.value.qbitNum == n
    ensures r.Ok? ==> multiset(r.value.gates) == multiset(LayersOf(n, LayerPairs(topo, n).value))
    ensures r.Ok? && !randomized ==> r.value.gates == Reverse(LayersOf(n, LayerPairs(topo, n).value))
    ensures r.Ok? ==> r.value.parameterNum == 7 * |LayerPairs(topo, n).value|
    ensures r.Ok? ==> |r.value.gates| == |LayerPairs(topo, n).value|
    ensures r.Ok? ==> forall i :: 0 <= i < |r.value.gates| ==> LayerShape(r.value.gates[i], n)
  {
    var collected := CollectLayers(n, topo);
    if collected.Err? {
      return Err(collected.msg);
    }
    LayersOfShape(n, LayerPairs(topo, n).value);
    var block;
    if randomized {
      block := FrontRandomized(n, collected.value, draw);
    } else {
      block := FrontInOrder(n, collected.value);
      ReverseShape(n, collected.value);
    }
    return Ok(block);
  }

  /**
   * add_adaptive_layers: the constructed block's sub-blocks appended to the
   * structure by combine. The structure is unchanged when construction exits.
   */
  method AddAdaptiveLayers(structure: GatesBlock, topo: seq<seq<int>>, randomized: bool, draw: nat -> nat)
    returns (exited: Option<string>)
    requires structure.Valid()
    modifies structure
    ensures structure.Valid() && structure.qbitNum == old(structure.qbitNum)
    ensures exited.Some? == LayerPairs(topo, structure.qbitNum).Err?
    ensures exited.Some? ==> exited.value == LayerPairs(topo, structure.qbitNum).msg &&
                             structure.gates == old(structure.gates) && structure.parameterNum == old(structure.parameterNum)
    ensures exited.None? ==>
              var ps := LayerPairs(topo, structure.qbitNum).value;
              structure.parameterNum == old(structure.parameterNum) + 7 * |ps| &&
              |structure.gates| == |old(structure.gates)| + |ps| &&
              structure.gates[..|old(structure.gates)|] == old(structure.gates) &&
              (forall i :: |old(structure.gates)| <= i < |structure.gates| ==> LayerShape(structure.gates[i], structure.qbitNum)) &&
              (!randomized ==> structure.gates == old(structure.gates) + Reverse(LayersOf(structure.qbitNum, ps)))
  {
    var n := structure.qbitNum;
    var r := ConstructAdaptiveGateLayers(n, topo, randomized, draw);
    if r.Err? {
      return Some(r.msg);
    }
    var layer := r.value;
    ShapedCounts(layer.gates, n);
    CloneIntoOwn(layer.gates, n);
    ghost var before := structure.gates;
    structure.Combine(layer);
    assert structure.gates == before + layer.gates;
    return None;
  }

  // ---------------------------------------------------------------------
  // The finalising layer
  // ---------------------------------------------------------------------

  /** The number of qubits the loops of the source run over. */
  function Width(n: int): nat
  {
    if n > 0 then n else 0
  }

  /** U3 gates on qubits k - 1 down to 0: each add_u3(idx) of the loop goes first. */
  function FinalGates(n: int, k: nat): (gs: seq<Gate>)
    ensures |gs| == k
  {
    seq(k, i requires 0 <= i < k => U3On(n, k - 1 - i))
  }

  /** The finalising layer: one U3 per qubit, qubit n - 1 first. */
  function FinalLayer(n: int): Gate
  {
    Block(n, 3 * Width(n), 0, FinalGates(n, Width(n)))
  }

  lemma {:induction false} FinalGatesCounts(n: int, k: nat)
    ensures SumParams(FinalGates(n, k)) == 3 * k && BlockCount(FinalGates(n, k)) == 0
  {
    var gs := FinalGates(n, k);
    assert forall i :: 0 <= i < k ==> gs[i] == U3On(n, k - 1 - i);
    FinalGatesShifted(n, k, gs);
  }

  /** Any list of k all-angle U3 leaves on n qubits, counted. */
  lemma {:induction false} FinalGatesShifted(n: int, k: nat, gs: seq<Gate>)
    requires |gs| == k && forall i :: 0 <= i < k ==> gs[i].Leaf? && gs[i].kind == U3(true, true, true)
    ensures SumParams(gs) == 3 * k && BlockCount(gs) == 0
  {
    if k > 0 {
      FinalGatesShifted(n, k - 1, gs[..k - 1]);
    }
  }

  /** The finalising layer is canonical and owns three parameters per qubit. */
  lemma FinalLayerOwn(n: int)
    ensures WithQbitNum(FinalLayer(n), n) == FinalLayer(n)
  {
    FinalLayerShape(n);
    WithOwnQbitNum(FinalLayer(n));
  }

  lemma FinalLayerShape(n: int)
    ensures Canonical(FinalLayer(n)) && ParamCount(FinalLayer(n)) == 3 * Width(n)
    ensures forall i :: 0 <= i < Width(n) ==> FinalLayer(n).gates[i] == U3On(n, n - 1 - i)
  {
    var gs := FinalGates(n, Width(n));
    FinalGatesCounts(n, Width(n));
    forall i | 0 <= i < |gs| ensures gs[i] == U3On(n, n - 1 - i) && Canonical(gs[i]) && gs[i].qbitNum == n {
      assert gs[i] == U3On(n, Width(n) - 1 - i);
    }
  }

  /** The finalising layer built through a block, one add_u3 per qubit from 0 up. */
  method BuildFinalizingLayer(n: int) returns (block: GatesBlock)
    ensures fresh(block) && block.Valid() && block.AsGate() == FinalLayer(n)
  {
    block := new GatesBlock(n);
    var idx := 0;
    while idx < n
      invariant 0 <= idx && (idx <= n || idx == 0)
      invariant fresh(block) && block.Valid() && block.qbitNum == n && block.layerNum == 0
      invariant block.gates == FinalGates(n, idx)
    {
      assert FinalGates(n, idx + 1) == [U3On(n, idx)] + FinalGates(n, idx);
      block.AddGate(U3On(n, idx));
      idx := idx + 1;
    }
    FinalGatesCounts(n, idx);
  }

  /**
   * add_finalyzing_layer: the finalising block of n qubits put in front of
   * the structure; a null structure throws.
   */
  method AddFinalyzingLayer(structure: GatesBlock?, n: int) returns (thrown: Option<string>)
    requires structure != null ==> structure.Valid()
    modifies structure
    ensures thrown.Some? <==> structure == null
    ensures thrown.Some? ==> thrown.value == NullStructure
    ensures structure != null ==>
              structure.Valid() && structure.qbitNum == old(structure.qbitNum) &&
              structure.gates == [WithQbitNum(FinalLayer(n), structure.qbitNum)] + old(structure.gates) &&
              structure.parameterNum == old(structure.parameterNum) + 3 * Width(n)
  {
    var block := BuildFinalizingLayer(n);
    FinalLayerShape(n);
    if structure == null {
      return Some(NullStructure);
    }
    structure.AddGate(block.AsGate());
    return None;
  }

  // ---------------------------------------------------------------------
  // The structure of one level
  // ---------------------------------------------------------------------

  lemma MulSucc(a: nat, b: nat)
    ensures (a + 1) * b == a * b + b
  {
  }

  /** k copies of gs, one after the other. */
  function Repeat(gs: seq<Gate>, k: nat): (r: seq<Gate>)
    ensures |r| == k * |gs|
  {
    if k == 0 then [] else Repeat(gs, k - 1) + gs
  }

  /**
   * The structure determine_initial_gate_structure builds for one level:
   * `level` rounds of add_adaptive_layers on a new block, then the
   * finalising layer in front. The layer draws of round idx are draw(idx).
   */
  method BuildLevelStructure(n: int, level: nat, topo: seq<seq<int>>, randomized: bool, draw: nat -> (nat -> nat))
    returns (r: Result<GatesBlock>)
    ensures r.Err? <==> level > 0 && LayerPairs(topo, n).Err?
    ensures r.Err? ==> r.msg == LayerPairs(topo, n).msg
    ensures r.Ok? ==> fresh(r.value) && r.value.Valid() && r.value.qbitNum == n
    ensures r.Ok? ==> |r.value.gates| > 0 && r.value.gates[0] == FinalLayer(n)
    ensures r.Ok? && level == 0 ==> r.value.gates == [FinalLayer(n)]
    ensures r.Ok? && LayerPairs(topo, n).Ok? ==>
              r.value.parameterNum == 3 * Width(n) + level * (7 * |LayerPairs(topo, n).value|) &&
              |r.value.gates| == 1 + level * |LayerPairs(topo, n).value|
    ensures r.Ok? && LayerPairs(topo, n).Ok? && !randomized ==>
              r.value.gates == [FinalLayer(n)] + Repeat(Reverse(LayersOf(n, LayerPairs(topo, n).value)), level)
  {
    ghost var ok := LayerPairs(topo, n).Ok?;
    ghost var p := if ok then |LayerPairs(topo, n).value| else 0;
    ghost var round := if ok then Reverse(LayersOf(n, LayerPairs(topo, n).value)) else [];
    var rounds := BuildRounds(n, level, topo, randomized, draw, p, round);
    if rounds.Err? {
      return rounds;
    }
    var structure := rounds.value;
    FinalLayerOwn(n);
    var thrown := AddFinalyzingLayer(structure, n);
    return Ok(structure);
  }

  /** The rounds of add_adaptive_layers on a new block, before the finalising layer. */
  method BuildRounds(n: int, level: nat, topo: seq<seq<int>>, randomized: bool, draw: nat -> (nat -> nat),
                     ghost p: nat, ghost round: seq<Gate>)
    returns (r: Result<GatesBlock>)
    requires LayerPairs(topo, n).Ok? ==>
               p == |LayerPairs(topo, n).value| && round == Reverse(LayersOf(n, LayerPairs(topo, n).value))
    ensures r.Err? <==> level > 0 && LayerPairs(topo, n).Err?
    ensures r.Err? ==> r.msg == LayerPairs(topo, n).msg
    ensures r.Ok? ==> fresh(r.value) && r.value.Valid() && r.value.qbitNum == n
    ensures r.Ok? ==> r.value.parameterNum == level * (7 * p) && |r.value.gates| == level * p
    ensures r.Ok? && !randomized ==> r.value.gates == Repeat(round, level)
  {
    var structure := new GatesBlock(n);
    var idx := 0;
    while idx < level
      invariant 0 <= idx <= level
      invariant fresh(structure) && structure.Valid() && structure.qbitNum == n
      invariant idx > 0 ==> LayerPairs(topo, n).Ok?
      invariant structure.parameterNum == idx * (7 * p) && |structure.gates| == idx * p
      invariant !randomized ==> structure.gates == Repeat(round, idx)
    {
      var exited := LevelRound(structure, topo, randomized, draw(idx), idx, p, round);
      if exited.Some? {
        return Err(exited.value);
      }
      idx := idx + 1;
    }
    return Ok(structure);
  }

  /** One round of the level loop, stated on the round's counts. */
  method LevelRound(structure: GatesBlock, topo: seq<seq<int>>, randomized: bool, draw: nat -> nat,
                    ghost idx: nat, ghost p: nat, ghost round: seq<Gate>)
    returns (exited: Option<string>)
    requires structure.Valid()
    requires LayerPairs(topo, structure.qbitNum).Ok? ==>
               p == |LayerPairs(topo, structure.qbitNum).value| &&
               round == Reverse(LayersOf(structure.qbitNum, LayerPairs(topo, structure.qbitNum).value))
    requires structure.parameterNum == idx * (7 * p) && |structure.gates| == idx * p
    requires !randomized ==> structure.gates == Repeat(round, idx)
    modifies structure
    ensures structure.Valid() && structure.qbitNum == old(structure.qbitNum)
    ensures exited.Some? == LayerPairs(topo, structure.qbitNum).Err?
    ensures exited.Some? ==> exited.value == LayerPairs(topo, structure.qbitNum).msg
    ensures exited.None? ==>
              structure.parameterNum == (idx + 1) * (7 * p) && |structure.gates| == (idx + 1) * p &&
              (!randomized ==> structure.gates == Repeat(round, idx + 1))
  {
    exited := AddAdaptiveLayers(structure, topo, randomized, draw);
    MulSucc(idx, 7 * p);
    MulSucc(idx, p);
  }

  /**
   * The parameter count of a level without topology: three per qubit for the
   * finalising layer and 7 n(n - 1)/2 per round, written without division.
   */
  lemma AdaptiveParameterCount(n: nat, level: nat)
    ensures 2 * (3 * Width(n) + level * (7 * |AllPairs(n)|)) == 6 * n + 7 * level * (n * (n - 1))
  {
    AllPairsMeaning(n);
    var p := |AllPairs(n)|;
    assert 2 * (level * (7 * p)) == 7 * level * (2 * p);
  }
}
