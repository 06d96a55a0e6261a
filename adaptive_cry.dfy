/**
 * replace_trivial_CRY_gates of the adaptive decomposition: every adaptive
 * (controlled-RY) gate inside the layers is, according to its activated
 * parameter, turned into a CZ sub-block, dropped, or turned into a
 * CNOT/RY sub-block, and the parameter vector is spliced to match. The
 * sin/cos threshold tests, the activation function and the value of pi are
 * the numeric side of the operation and are parameters here.
 */
module CryReplacement {
  import opened Common
  import opened GateTree
  import opened GatesBlocks

  /** The three outcomes of the sin/cos tests on an activated parameter. */
  datatype CryCase =
    | NearCz(sinNegative: bool)   // |sin| > 0.999 and |cos| < 1e-3; the sign of sin picks the RZ angle
    | NearIdentity                // |sin| < 1e-3 and |1 - cos| < 1e-3
    | Rotation                    // anything else

  /** activation_function(., 1), the threshold tests and pi. */
  datatype Numerics = Numerics(act: real -> real, classify: real -> CryCase, pi: real)

  /** A gate list with the parameters that belong to it. */
  datatype Replaced = Replaced(gates: seq<Gate>, params: seq<real>)

  const NotBlock: string := "N_Qubit_Decomposition_adaptive::replace_trivial_adaptive_gates: Only block gates are accepted in this conversion."

  predicate IsAdaptive(g: Gate)
  {
    g.Leaf? && g.kind == Adaptive
  }

  // ---------------------------------------------------------------------
  // The two sub-blocks
  // ---------------------------------------------------------------------

  /** The CZ sub-block as built by four add_gate calls (each prepends): RZ on the control first. */
  function CzBlock(n: int, t: int, c: int): Gate
  {
    Block(n, 3, 0, [Leaf(RZ, n, c, -1), Leaf(RX, n, t, -1), Leaf(CZ, n, t, c), Leaf(RX, n, t, -1)])
  }

  /** The CNOT sub-block as built by four add_gate calls: CNOT, RY, CNOT, RY. */
  function CnotBlock(n: int, t: int, c: int): Gate
  {
    Block(n, 2, 0, [Leaf(CNOT, n, t, c), Leaf(RY, n, t, -1), Leaf(CNOT, n, t, c), Leaf(RY, n, t, -1)])
  }

  /** Giving a sub-block another qubit count is building it on that count. */
  lemma SubBlocksMoved(n: int, t: int, c: int, q: int)
    ensures WithQbitNum(CzBlock(n, t, c), q) == CzBlock(q, t, c)
    ensures WithQbitNum(CnotBlock(n, t, c), q) == CnotBlock(q, t, c)
  {
    var cz := CzBlock(n, t, c).gates;
    var cn := CnotBlock(n, t, c).gates;
    assert AllWithQbitNum(cz, q) == CzBlock(q, t, c).gates;
    assert AllWithQbitNum(cn, q) == CnotBlock(q, t, c).gates;
  }

  method BuildCzBlock(n: int, t: int, c: int) returns (b: GatesBlock)
    ensures fresh(b) && b.Valid() && b.AsGate() == CzBlock(n, t, c)
  {
    b := new GatesBlock(n);
    b.AddGate(Leaf(RX, n, t, -1));
    b.AddGate(Leaf(CZ, n, t, c));
    b.AddGate(Leaf(RX, n, t, -1));
    b.AddGate(Leaf(RZ, n, c, -1));
  }

  method BuildCnotBlock(n: int, t: int, c: int) returns (b: GatesBlock)
    ensures fresh(b) && b.Valid() && b.AsGate() == CnotBlock(n, t, c)
  {
    b := new GatesBlock(n);
    b.AddGate(Leaf(RY, n, t, -1));
    b.AddGate(Leaf(CNOT, n, t, c));
    b.AddGate(Leaf(RY, n, t, -1));
    b.AddGate(Leaf(CNOT, n, t, c));
  }

  // ---------------------------------------------------------------------
  // The specification: one gate, one layer, the whole structure
  // ---------------------------------------------------------------------

  /**
   * What one gate of a layer (on q qubits) becomes, given its own parameter
   * slice. An adaptive gate becomes the CZ sub-block with the angles
   * [+-pi/2, pi/4, -pi/4], nothing, or the CNOT sub-block with [-p/2, p/2];
   * any other gate stays with its parameters.
   */
  function Replacement(g: Gate, own: seq<real>, n: int, q: int, num: Numerics): (r: Replaced)
    requires |own| == ParamCount(g)
    ensures |r.params| == SumParams(r.gates) && |r.gates| <= 1
  {
    assert [g][..0] == [];
    if IsAdaptive(g) then
      var p := num.act(own[0]);
      match num.classify(p)
      case NearCz(neg) =>
        var h := CzBlock(q, g.target, g.control);
        assert [h][..0] == [];
        Replaced([h], [if neg then -num.pi / 2.0 else num.pi / 2.0, num.pi / 4.0, -num.pi / 4.0])
      case NearIdentity =>
        Replaced([], [])
      case Rotation =>
        var h := CnotBlock(q, g.target, g.control);
        assert [h][..0] == [];
        Replaced([h], [-p / 2.0, p / 2.0])
    else
      Replaced([g], own)
  }

  /**
   * The three outcomes for an adaptive gate, and that every other gate is
   * kept: the CZ sub-block takes two parameters more than the gate had, the
   * CNOT sub-block one more, and a near-identity gate leaves nothing.
   */
  lemma ReplacementCases(g: Gate, own: seq<real>, n: int, q: int, num: Numerics)
    requires |own| == ParamCount(g)
    ensures var r := Replacement(g, own, n, q, num);
            (!IsAdaptive(g) ==> r == Replaced([g], own)) &&
            (IsAdaptive(g) && num.classify(num.act(own[0])).NearCz? ==>
              |r.params| == |own| + 2 && r.gates == [CzBlock(q, g.target, g.control)]) &&
            (IsAdaptive(g) && num.classify(num.act(own[0])).NearIdentity? ==> r == Replaced([], [])) &&
            (IsAdaptive(g) && num.classify(num.act(own[0])).Rotation? ==>
              |r.params| == |own| + 1 && r.gates == [CnotBlock(q, g.target, g.control)])
  {
  }

  /** The parameter count of a list is its first gate's count plus the rest's. */
  lemma SumParamsFront(gs: seq<Gate>)
    requires |gs| > 0
    ensures SumParams(gs) == ParamCount(gs[0]) + SumParams(gs[1..])
  {
    assert gs == [gs[0]] + gs[1..];
    SumParamsAppend([gs[0]], gs[1..]);
    assert [gs[0]][..0] == [];
  }

  /** What the walk over one layer produces: the new gates, their parameters, and the parameters after the layer's. */
  datatype Run = Run(gates: seq<Gate>, params: seq<real>, left: seq<real>)

  /**
   * The gates of one layer after the replacement, front to back, with the
   * parameters they own; ps starts at the layer's first parameter.
   */
  function ReplaceGates(gs: seq<Gate>, ps: seq<real>, n: int, q: int, num: Numerics): (r: Run)
    requires SumParams(gs) <= |ps|
    ensures |r.params| == SumParams(r.gates) && |r.left| == |ps| - SumParams(gs)
    decreases |gs|
  {
    if gs == [] then Run([], [], ps)
    else
      SumParamsFront(gs);
      var k := ParamCount(gs[0]);
      var head := Replacement(gs[0], ps[..k], n, q, num);
      var rest := ReplaceGates(gs[1..], ps[k..], n, q, num);
      SumParamsAppend(head.gates, rest.gates);
      Run(head.gates + rest.gates, head.params + rest.params, rest.left)
  }

  /** The walk over a layer reads exactly the layer's parameter count. */
  lemma {:induction false} ReplaceGatesLeft(gs: seq<Gate>, ps: seq<real>, n: int, q: int, num: Numerics)
    requires SumParams(gs) <= |ps|
    ensures ReplaceGates(gs, ps, n, q, num).left == ps[SumParams(gs)..]
    decreases |gs|
  {
    if gs != [] {
      SumParamsFront(gs);
      var k := ParamCount(gs[0]);
      ReplaceGatesLeft(gs[1..], ps[k..], n, q, num);
      DropDrop(ps, k, SumParams(gs[1..]));
    }
  }

  lemma NoAdaptiveTail(gs: seq<Gate>)
    requires |gs| > 0 && forall i :: 0 <= i < |gs| ==> !IsAdaptive(gs[i])
    ensures forall i :: 0 <= i < |gs[1..]| ==> !IsAdaptive(gs[1..][i])
  {
    forall i | 0 <= i < |gs[1..]|
      ensures !IsAdaptive(gs[1..][i])
    {
      assert gs[1..][i] == gs[i + 1];
    }
  }

  /** A layer without adaptive gates keeps its gates and its parameters. */
  lemma {:induction false} ReplaceGatesWithoutAdaptive(gs: seq<Gate>, ps: seq<real>, n: int, q: int, num: Numerics)
    requires SumParams(gs) <= |ps|
    requires forall i :: 0 <= i < |gs| ==> !IsAdaptive(gs[i])
    ensures ReplaceGates(gs, ps, n, q, num).gates == gs
    ensures ReplaceGates(gs, ps, n, q, num).params == ps[..SumParams(gs)]
    decreases |gs|
  {
    if gs != [] {
      SumParamsFront(gs);
      var k := ParamCount(gs[0]);
      var tail := gs[1..];
      NoAdaptiveTail(gs);
      ReplaceGatesWithoutAdaptive(tail, ps[k..], n, q, num);
      ConsSplit(gs);
      DropDrop(ps, 0, k);
      TakeOfDrop(ps, k, SumParams(tail));
    }
  }

  /** The gates a layer's loop walks over: the clone of the block's children. */
  function LayerInput(b: Gate): seq<Gate>
    requires b.Block?
  {
    CloneInto(b.gates, b.qbitNum)
  }

  /** A processed layer: its counters are recomputed by release_gate/insert_gate. */
  function LayerBlock(q: int, gs: seq<Gate>): Gate
  {
    Block(q, SumParams(gs), BlockCount(gs), gs)
  }

  /** How many parameters the loop reads over a list of layers (a stray leaf reads none). */
  function Consumed(layers: seq<Gate>): nat
  {
    if layers == [] then 0
    else (if layers[0].Block? then SumParams(LayerInput(layers[0])) else 0) + Consumed(layers[1..])
  }

  /**
   * The whole replacement: the first non-block top-level gate makes it fail;
   * otherwise every layer is processed on the parameters after the earlier
   * layers', given the structure's qubit count n, and the parameters after
   * the last layer are kept.
   */
  function ReplaceCry(layers: seq<Gate>, ps: seq<real>, n: int, num: Numerics): (r: Result<Replaced>)
    requires Consumed(layers) <= |ps|
    ensures r.Err? ==> r.msg == NotBlock
    ensures r.Ok? ==> |r.value.gates| == |layers|
    ensures r.Ok? ==> |r.value.params| == SumParams(r.value.gates) + (|ps| - Consumed(layers))
    decreases |layers|
  {
    if layers == [] then Ok(Replaced([], ps))
    else if !layers[0].Block? then Err(NotBlock)
    else
      var b := layers[0];
      var head := ReplaceGates(LayerInput(b), ps, n, b.qbitNum, num);
      match ReplaceCry(layers[1..], head.left, n, num)
      case Err(m) => Err(m)
      case Ok(rest) =>
        var layer := WithQbitNum(LayerBlock(b.qbitNum, head.gates), n);
        SumParamsFront([layer] + rest.gates);
        assert ([layer] + rest.gates)[1..] == rest.gates;
        Ok(Replaced([layer] + rest.gates, head.params + rest.params))
  }

  /** A result with gates and parameters put in front of its own, when it is not an error. */
  function Prefixed(gs: seq<Gate>, ps: seq<real>, r: Result<Replaced>): Result<Replaced>
  {
    match r
    case Err(m) => Err(m)
    case Ok(x) => Ok(Replaced(gs + x.gates, ps + x.params))
  }

  lemma PrefixedNothing(r: Result<Replaced>)
    ensures Prefixed([], [], r) == r
  {
    if r.Ok? {
      AppendNil(r.value.gates);
      AppendNil(r.value.params);
    }
  }

  /** The replacement fails exactly when some top-level gate is not a block. */
  lemma {:induction false} ReplaceCryFails(layers: seq<Gate>, ps: seq<real>, n: int, num: Numerics)
    requires Consumed(layers) <= |ps|
    ensures ReplaceCry(layers, ps, n, num).Err? <==> exists i :: 0 <= i < |layers| && !layers[i].Block?
    decreases |layers|
  {
    if layers != [] && layers[0].Block? {
      var b := layers[0];
      ReplaceCryFails(layers[1..], ReplaceGates(LayerInput(b), ps, n, b.qbitNum, num).left, n, num);
      if exists i :: 0 <= i < |layers| && !layers[i].Block? {
        var i :| 0 <= i < |layers| && !layers[i].Block?;
        assert layers[1..][i - 1] == layers[i];
      }
      if exists i :: 0 <= i < |layers| - 1 && !layers[1..][i].Block? {
        var i :| 0 <= i < |layers| - 1 && !layers[1..][i].Block?;
        assert layers[i + 1] == layers[1..][i];
      }
    } else if layers != [] {
      assert !layers[0].Block?;
    }
  }

  /** For a canonical block the loop reads exactly the block's own parameter count. */
  lemma LayerInputCanonical(b: Gate)
    requires b.Block? && Canonical(b)
    ensures SumParams(LayerInput(b)) == ParamCount(b)
  {
    CloneOfCanonicalBlock(b.qbitNum, b.parameterNum, b.layerNum, b.gates);
  }

  /** Over canonical layers the loop reads exactly the structure's parameter count. */
  lemma {:induction false} ConsumedCanonical(layers: seq<Gate>)
    requires AllCanonical(layers)
    ensures Consumed(layers) <= SumParams(layers)
    ensures (forall i :: 0 <= i < |layers| ==> layers[i].Block?) ==> Consumed(layers) == SumParams(layers)
    decreases |layers|
  {
    if layers != [] {
      SumParamsFront(layers);
      assert AllCanonical(layers[1..]) by {
        forall i | 0 <= i < |layers| - 1
          ensures Canonical(layers[1..][i])
        {
          assert layers[1..][i] == layers[i + 1];
        }
      }
      ConsumedCanonical(layers[1..]);
      if layers[0].Block? {
        LayerInputCanonical(layers[0]);
      }
      if forall i :: 0 <= i < |layers| ==> layers[i].Block? {
        LayerInputCanonical(layers[0]);
        assert forall i :: 0 <= i < |layers| - 1 ==> layers[1..][i] == layers[i + 1];
      }
    }
  }

  /**
   * With the canonical layout (parameters exactly as many as the structure
   * needs), the new vector is exactly as long as the new structure needs.
   */
  lemma ReplaceCryExact(layers: seq<Gate>, ps: seq<real>, n: int, num: Numerics)
    requires AllCanonical(layers) && |ps| == SumParams(layers)
    requires forall i :: 0 <= i < |layers| ==> layers[i].Block?
    ensures Consumed(layers) <= |ps|
    ensures ReplaceCry(layers, ps, n, num).Ok?
    ensures |ReplaceCry(layers, ps, n, num).value.params| == SumParams(ReplaceCry(layers, ps, n, num).value.gates)
  {
    ConsumedCanonical(layers);
    ReplaceCryFails(layers, ps, n, num);
  }

  // ---------------------------------------------------------------------
  // The imperative walk
  // ---------------------------------------------------------------------

  /** Gates_block::clone of a nested block: the children cloned, counters recomputed. */
  method CloneLayer(b: Gate) returns (layer: GatesBlock)
    requires b.Block?
    ensures fresh(layer) && layer.Valid() && layer.qbitNum == b.qbitNum
    ensures layer.gates == LayerInput(b) && layer.layerNum == BlockCount(layer.gates)
  {
    var cs := CloneInto(b.gates, b.qbitNum);
    layer := new GatesBlock(b.qbitNum);
    layer.gates := cs;
    layer.parameterNum := SumParams(cs);
    layer.layerNum := BlockCount(cs);
  }

  /** Replacing entry i of a list changes its block count by the two entries' difference. */
  lemma BlockCountSwap(front: seq<Gate>, x: Gate, mid: seq<Gate>, back: seq<Gate>)
    requires |mid| <= 1
    ensures BlockCount(front + mid + back) + Ind(x.Block?) == BlockCount(front + [x] + back) + BlockCount(mid)
  {
    BlockCountAppend(front + mid, back);
    BlockCountAppend(front, mid);
    BlockCountAppend(front + [x], back);
    BlockCountAppend(front, [x]);
    assert [x][..0] == [];
  }

  /** release_gate(jdx) then insert_gate(sub, jdx) on a leaf: the sub-block takes the leaf's place. */
  method SpliceIn(layer: GatesBlock, jdx: nat, sub: Gate)
    requires layer.Valid() && layer.layerNum == BlockCount(layer.gates)
    requires jdx < |layer.gates| && layer.gates[jdx].Leaf? && sub.Block?
    modifies layer
    ensures layer.Valid() && layer.qbitNum == old(layer.qbitNum) && layer.layerNum == BlockCount(layer.gates)
    ensures layer.gates == old(layer.gates)[..jdx] + [WithQbitNum(sub, layer.qbitNum)] + old(layer.gates)[jdx + 1..]
  {
    ghost var front, g, back := layer.gates[..jdx], layer.gates[jdx], layer.gates[jdx + 1..];
    assert layer.gates == front + [g] + back;
    layer.ReleaseGate(jdx);
    layer.InsertGate(sub, jdx);
    assert layer.gates == front + [WithQbitNum(sub, layer.qbitNum)] + back;
    BlockCountSwap(front, g, [WithQbitNum(sub, layer.qbitNum)], back);
    assert [WithQbitNum(sub, layer.qbitNum)][..0] == [];
  }

  /** release_gate(jdx) on a leaf. */
  method Drop(layer: GatesBlock, jdx: nat)
    requires layer.Valid() && layer.layerNum == BlockCount(layer.gates)
    requires jdx < |layer.gates| && layer.gates[jdx].Leaf?
    modifies layer
    ensures layer.Valid() && layer.qbitNum == old(layer.qbitNum) && layer.layerNum == BlockCount(layer.gates)
    ensures layer.gates == old(layer.gates)[..jdx] + old(layer.gates)[jdx + 1..]
  {
    ghost var front, g, back := layer.gates[..jdx], layer.gates[jdx], layer.gates[jdx + 1..];
    assert layer.gates == front + [g] + back;
    layer.ReleaseGate(jdx);
    assert layer.gates == front + [] + back;
    BlockCountSwap(front, g, [], back);
  }

  /**
   * One turn of the inner loop on the gate at jdx, whose parameters start at
   * next (the vector is front, then the unread rest): the gate is replaced in
   * the layer by Replacement's gates and its parameter slice in the vector by
   * Replacement's parameters; jdx moves past what was inserted.
   */
  method ReplaceStep(layer: GatesBlock, out: seq<real>, next: nat, jdx: nat, n: int, num: Numerics,
                     ghost front: seq<real>, ghost rest: seq<real>, ghost head: Replaced)
    returns (out': seq<real>, next': nat, jdx': nat)
    requires layer.Valid() && layer.layerNum == BlockCount(layer.gates) && jdx < |layer.gates|
    requires out == front + rest && next == |front| && ParamCount(layer.gates[jdx]) <= |rest|
    requires head == Replacement(layer.gates[jdx], rest[..ParamCount(layer.gates[jdx])], n, layer.qbitNum, num)
    modifies layer
    ensures layer.Valid() && layer.qbitNum == old(layer.qbitNum) && layer.layerNum == BlockCount(layer.gates)
    ensures layer.gates == old(layer.gates)[..jdx] + head.gates + old(layer.gates)[jdx + 1..]
    ensures out' == front + head.params + rest[ParamCount(old(layer.gates)[jdx])..]
    ensures next' == next + |head.params| && jdx' == jdx + |head.gates|
  {
    if IsAdaptive(layer.gates[jdx]) {
      out', next', jdx' := AdaptiveStep(layer, out, next, jdx, n, num, front, rest, head);
    } else {
      out', next', jdx' := KeepStep(layer, out, next, jdx, n, num, front, rest, head);
    }
  }

  /** An adaptive gate: the activated parameter picks the CZ sub-block, nothing, or the CNOT sub-block. */
  method AdaptiveStep(layer: GatesBlock, out: seq<real>, next: nat, jdx: nat, n: int, num: Numerics,
                     ghost front: seq<real>, ghost rest: seq<real>, ghost head: Replaced)
    returns (out': seq<real>, next': nat, jdx': nat)
    requires layer.Valid() && layer.layerNum == BlockCount(layer.gates) && jdx < |layer.gates|
    requires out == front + rest && next == |front| && ParamCount(layer.gates[jdx]) <= |rest|
    requires head == Replacement(layer.gates[jdx], rest[..ParamCount(layer.gates[jdx])], n, layer.qbitNum, num)
    requires IsAdaptive(layer.gates[jdx])
    modifies layer
    ensures layer.Valid() && layer.qbitNum == old(layer.qbitNum) && layer.layerNum == BlockCount(layer.gates)
    ensures layer.gates == old(layer.gates)[..jdx] + head.gates + old(layer.gates)[jdx + 1..]
    ensures out' == front + head.params + rest[ParamCount(old(layer.gates)[jdx])..]
    ensures next' == next + |head.params| && jdx' == jdx + |head.gates|
  {
    var g := layer.gates[jdx];
    AtSeam(front, rest);
    var parameter := num.act(out[next]);
    match num.classify(parameter)
    case NearCz(neg) =>
      var czr := BuildCzBlock(n, g.target, g.control);
      SpliceIn(layer, jdx, czr.AsGate());
      SubBlocksMoved(n, g.target, g.control, layer.qbitNum);
      var rz := if neg then -num.pi / 2.0 else num.pi / 2.0;
      out' := out[..next] + [rz, num.pi / 4.0, -num.pi / 4.0] + out[next + 1..];
      next', jdx' := next + 3, jdx + 1;
    case NearIdentity =>
      Drop(layer, jdx);
      out' := out[..next] + out[next + 1..];
      AppendNil(front);
      AppendNil(old(layer.gates)[..jdx]);
      next', jdx' := next, jdx;
    case Rotation =>
      var cnr := BuildCnotBlock(n, g.target, g.control);
      SpliceIn(layer, jdx, cnr.AsGate());
      SubBlocksMoved(n, g.target, g.control, layer.qbitNum);
      out' := out[..next] + [-parameter / 2.0, parameter / 2.0] + out[next + 1..];
      next', jdx' := next + 2, jdx + 1;
  }

  /** Any other gate stays, and the walk moves past its parameters. */
  method KeepStep(layer: GatesBlock, out: seq<real>, next: nat, jdx: nat, n: int, num: Numerics,
                     ghost front: seq<real>, ghost rest: seq<real>, ghost head: Replaced)
    returns (out': seq<real>, next': nat, jdx': nat)
    requires layer.Valid() && layer.layerNum == BlockCount(layer.gates) && jdx < |layer.gates|
    requires out == front + rest && next == |front| && ParamCount(layer.gates[jdx]) <= |rest|
    requires head == Replacement(layer.gates[jdx], rest[..ParamCount(layer.gates[jdx])], n, layer.qbitNum, num)
    requires !IsAdaptive(layer.gates[jdx])
    modifies layer
    ensures layer.Valid() && layer.qbitNum == old(layer.qbitNum) && layer.layerNum == BlockCount(layer.gates)
    ensures layer.gates == old(layer.gates)[..jdx] + head.gates + old(layer.gates)[jdx + 1..]
    ensures out' == front + head.params + rest[ParamCount(old(layer.gates)[jdx])..]
    ensures next' == next + |head.params| && jdx' == jdx + |head.gates|
  {
    var g := layer.gates[jdx];
    out' := out;
    TakeDrop(rest, ParamCount(g));
    AppendAssoc(front, rest[..ParamCount(g)], rest[ParamCount(g)..]);
    SplitAround(layer.gates, jdx, jdx + 1);
    next', jdx' := next + ParamCount(g), jdx + 1;
  }

  /** Gates and parameters put in front of a walk's own. */
  function Join(gs: seq<Gate>, ps: seq<real>, r: Run): Run
  {
    Run(gs + r.gates, ps + r.params, r.left)
  }

  lemma JoinTwice(a: seq<Gate>, b: seq<real>, c: seq<Gate>, d: seq<real>, r: Run)
    ensures Join(a, b, Join(c, d, r)) == Join(a + c, b + d, r)
  {
    AppendAssoc(a, c, r.gates);
    AppendAssoc(b, d, r.params);
  }

  lemma JoinNothing(r: Run)
    ensures Join([], [], r) == r
  {
    AppendNil(r.gates);
    AppendNil(r.params);
  }

  /** ReplaceGates behind a non-recursive name, so that the loop's invariant does not unfold it. */
  function Outcome(gs: seq<Gate>, ps: seq<real>, n: int, q: int, num: Numerics): Run
    requires SumParams(gs) <= |ps|
  {
    ReplaceGates(gs, ps, n, q, num)
  }

  /** The specification's side of one turn of the layer loop: the first unwalked gate is replaced. */
  lemma OutcomeTurn(todo: seq<Gate>, rest: seq<real>, n: int, q: int, num: Numerics,
                    gs: seq<Gate>, ps: seq<real>, done: seq<Gate>, doneParams: seq<real>)
    requires todo != [] && SumParams(todo) <= |rest| && SumParams(gs) <= |ps|
    requires Outcome(gs, ps, n, q, num) == Join(done, doneParams, Outcome(todo, rest, n, q, num))
    ensures ParamCount(todo[0]) + SumParams(todo[1..]) == SumParams(todo)
    ensures var k := ParamCount(todo[0]);
            var head := Replacement(todo[0], rest[..k], n, q, num);
            Outcome(gs, ps, n, q, num) ==
              Join(done + head.gates, doneParams + head.params, Outcome(todo[1..], rest[k..], n, q, num))
  {
    SumParamsFront(todo);
    var k := ParamCount(todo[0]);
    var head := Replacement(todo[0], rest[..k], n, q, num);
    JoinTwice(done, doneParams, head.gates, head.params, ReplaceGates(todo[1..], rest[k..], n, q, num));
  }

  /**
   * One turn of the layer loop: the gate at jdx, the first of todo, is
   * replaced; done and doneParams grow by what Replacement gives for it.
   */
  method InLayerTurn(layer: GatesBlock, out: seq<real>, next: nat, jdx: nat, n: int, num: Numerics,
                     ghost gs: seq<Gate>, ghost ps: seq<real>, ghost front: seq<real>,
                     ghost done: seq<Gate>, ghost doneParams: seq<real>, ghost todo: seq<Gate>, ghost rest: seq<real>)
    returns (out': seq<real>, next': nat, jdx': nat,
             ghost done': seq<Gate>, ghost doneParams': seq<real>, ghost todo': seq<Gate>, ghost rest': seq<real>)
    requires SumParams(gs) <= |ps| && SumParams(todo) <= |rest| && todo != []
    requires Outcome(gs, ps, n, layer.qbitNum, num) == Join(done, doneParams, Outcome(todo, rest, n, layer.qbitNum, num))
    requires layer.Valid() && layer.layerNum == BlockCount(layer.gates)
    requires layer.gates == done + todo && jdx == |done|
    requires out == front + doneParams + rest && next == |front| + |doneParams|
    modifies layer
    ensures layer.qbitNum == old(layer.qbitNum) && |todo'| < |todo| && SumParams(todo') <= |rest'|
    ensures Outcome(gs, ps, n, layer.qbitNum, num) == Join(done', doneParams', Outcome(todo', rest', n, layer.qbitNum, num))
    ensures layer.Valid() && layer.layerNum == BlockCount(layer.gates)
    ensures layer.gates == done' + todo' && jdx' == |done'|
    ensures out' == front + doneParams' + rest' && next' == |front| + |doneParams'|
  {
    ghost var q := layer.qbitNum;
    AtSeam(done, todo);
    OutcomeTurn(todo, rest, n, q, num, gs, ps, done, doneParams);
    ghost var k := ParamCount(todo[0]);
    ghost var head := Replacement(todo[0], rest[..k], n, q, num);
    out', next', jdx' := ReplaceStep(layer, out, next, jdx, n, num, front + doneParams, rest, head);
    AppendAssoc(front, doneParams, head.params);
    done', doneParams', todo', rest' := done + head.gates, doneParams + head.params, todo[1..], rest[k..];
  }

  /** When the layer loop has walked all gates, the accumulated part is the whole outcome. */
  lemma InLayerDone(gs: seq<Gate>, ps: seq<real>, n: int, q: int, num: Numerics,
                    done: seq<Gate>, doneParams: seq<real>, todo: seq<Gate>, rest: seq<real>)
    requires |todo| == 0 && SumParams(gs) <= |ps| && SumParams(todo) <= |rest|
    requires Outcome(gs, ps, n, q, num) == Join(done, doneParams, Outcome(todo, rest, n, q, num))
    ensures Outcome(gs, ps, n, q, num) == Run(done, doneParams, rest)
  {
    assert todo == [];
    AppendNil(done);
    AppendNil(doneParams);
  }

  /**
   * The inner loop of replace_trivial_CRY_gates on one cloned layer, whose
   * parameters are ps, following front in the vector: the layer ends up
   * holding ReplaceGates of its gates, and the vector has that layer's part
   * replaced.
   */
  method ReplaceInLayer(layer: GatesBlock, out: seq<real>, next: nat, n: int, num: Numerics,
                        ghost front: seq<real>, ghost ps: seq<real>)
    returns (out': seq<real>, next': nat)
    requires layer.Valid() && layer.layerNum == BlockCount(layer.gates)
    requires out == front + ps && next == |front| && SumParams(layer.gates) <= |ps|
    modifies layer
    ensures layer.Valid() && layer.qbitNum == old(layer.qbitNum) && layer.layerNum == BlockCount(layer.gates)
    ensures var r := ReplaceGates(old(layer.gates), ps, n, layer.qbitNum, num);
            layer.gates == r.gates && out' == front + r.params + r.left && next' == |front| + |r.params|
  {
    ghost var gs, q := layer.gates, layer.qbitNum;
    ghost var done: seq<Gate>, doneParams: seq<real>, todo, rest := [], [], gs, ps;
    AppendNil(gs);
    AppendNil(front);
    JoinNothing(Outcome(gs, ps, n, q, num));
    out', next' := out, next;
    var jdx := 0;
    while jdx < |layer.gates|
      invariant SumParams(gs) <= |ps| && SumParams(todo) <= |rest|
      invariant Outcome(gs, ps, n, q, num) == Join(done, doneParams, Outcome(todo, rest, n, q, num))
      invariant layer.Valid() && layer.qbitNum == q && layer.layerNum == BlockCount(layer.gates)
      invariant layer.gates == done + todo && jdx == |done|
      invariant out' == front + doneParams + rest && next' == |front| + |doneParams|
      decreases |todo|
    {
      out', next', jdx, done, doneParams, todo, rest :=
        InLayerTurn(layer, out', next', jdx, n, num, gs, ps, front, done, doneParams, todo, rest);
    }
    InLayerDone(gs, ps, n, q, num, done, doneParams, todo, rest);
  }

  /**
   * One turn of the outer loop on a top-level block g, whose parameters are
   * ps, following front in the vector: its clone is processed and appended
   * to ret.
   */
  method LayerTurn(ret: GatesBlock, g: Gate, out: seq<real>, next: nat, n: int, num: Numerics,
                   ghost front: seq<real>, ghost ps: seq<real>)
    returns (out': seq<real>, next': nat)
    requires ret.Valid() && g.Block? && out == front + ps && next == |front| && SumParams(LayerInput(g)) <= |ps|
    modifies ret
    ensures ret.Valid() && ret.qbitNum == old(ret.qbitNum)
    ensures var head := ReplaceGates(LayerInput(g), ps, n, g.qbitNum, num);
            ret.gates == old(ret.gates) + [WithQbitNum(LayerBlock(g.qbitNum, head.gates), ret.qbitNum)] &&
            out' == front + head.params + head.left && next' == |front| + |head.params|
  {
    var layer := CloneLayer(g);
    out', next' := ReplaceInLayer(layer, out, next, n, num, front, ps);
    ret.AddGateToEnd(layer.AsGate());
  }

  /** Unfolding ReplaceCry at its first layer, a block, in the shape the outer loop keeps. */
  lemma ReplaceCryFront(todo: seq<Gate>, ps: seq<real>, n: int, num: Numerics)
    requires todo != [] && todo[0].Block? && Consumed(todo) <= |ps|
    ensures Consumed(todo) == SumParams(LayerInput(todo[0])) + Consumed(todo[1..])
    ensures var b := todo[0];
            var head := ReplaceGates(LayerInput(b), ps, n, b.qbitNum, num);
            ReplaceCry(todo, ps, n, num) ==
              Prefixed([WithQbitNum(LayerBlock(b.qbitNum, head.gates), n)], head.params,
                       ReplaceCry(todo[1..], head.left, n, num))
  {
  }

  lemma PrefixedTwice(a: seq<Gate>, b: seq<real>, c: seq<Gate>, d: seq<real>, r: Result<Replaced>)
    ensures Prefixed(a, b, Prefixed(c, d, r)) == Prefixed(a + c, b + d, r)
  {
    if r.Ok? {
      AppendAssoc(a, c, r.value.gates);
      AppendAssoc(b, d, r.value.params);
    }
  }

  /** The layer list with its next entry moved from the unwalked part to the walked part. */
  lemma MoveOne(layers: seq<Gate>, done: seq<Gate>, todo: seq<Gate>)
    requires layers == done + todo && todo != []
    ensures layers[|done|] == todo[0] && layers == done + [todo[0]] + todo[1..]
  {
    AtSeam(done, todo);
    ConsSplit(todo);
    AppendAssoc(done, [todo[0]], todo[1..]);
  }

  /**
   * replace_trivial_CRY_gates: a new structure on n qubits receives, for
   * every top-level block in order, its clone with the adaptive gates
   * replaced; the parameter vector is rewritten along the way. A top-level
   * gate that is not a block ends the run with an error.
   */
  method ReplaceTrivialCryGates(structure: GatesBlock, params: seq<real>, n: int, num: Numerics)
    returns (r: Result<GatesBlock>, out: seq<real>)
    requires Consumed(structure.gates) <= |params|
    ensures ReplaceCry(structure.gates, params, n, num).Err? ==> r == Err(NotBlock)
    ensures ReplaceCry(structure.gates, params, n, num).Ok? ==>
              r.Ok? && fresh(r.value) && r.value.Valid() && r.value.qbitNum == n &&
              r.value.gates == ReplaceCry(structure.gates, params, n, num).value.gates &&
              out == ReplaceCry(structure.gates, params, n, num).value.params
  {
    var ret := new GatesBlock(n);
    ghost var layers := structure.gates;
    ghost var done: seq<Gate>, todo, front: seq<real>, rest := [], layers, [], params;
    out := params;
    var next := 0;
    var idx := 0;
    AppendNil(layers);
    AppendNil(params);
    PrefixedNothing(ReplaceCry(layers, params, n, num));
    while idx < |structure.gates|
      invariant structure.gates == layers && layers == done + todo && idx == |done|
      invariant fresh(ret) && ret.Valid() && ret.qbitNum == n
      invariant out == front + rest && next == |front| && Consumed(todo) <= |rest|
      invariant ReplaceCry(layers, params, n, num) == Prefixed(ret.gates, front, ReplaceCry(todo, rest, n, num))
      decreases |todo|
    {
      MoveOne(layers, done, todo);
      var g := structure.gates[idx];
      if !g.Block? {
        return Err(NotBlock), out;
      }
      ReplaceCryFront(todo, rest, n, num);
      ghost var head := ReplaceGates(LayerInput(g), rest, n, g.qbitNum, num);
      PrefixedTwice(ret.gates, front, [WithQbitNum(LayerBlock(g.qbitNum, head.gates), n)], head.params,
                    ReplaceCry(todo[1..], head.left, n, num));
      out, next := LayerTurn(ret, g, out, next, n, num, front, rest);
      idx := idx + 1;
      done, todo, front, rest := done + [g], todo[1..], front + head.params, head.left;
    }
    AppendNil(ret.gates);
    return Ok(ret), out;
  }
}
