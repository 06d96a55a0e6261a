/**
 * The gate tree held by a gate block: leaf gates and nested blocks. A nested
 * block is stored with its own parameter and layer counters, because the
 * source reads those counters (get_parameter_num) rather than recomputing
 * them. Parameter counts, flattening, clone, qubit-count propagation and
 * relabelling are defined here; the mutable block itself is GatesBlocks.
 */
module GateTree {
  import opened Qubits

  /** The leaf gate kinds a block can hold and serialise; U3 carries its three angle flags. */
  datatype GateKind =
    | CNOT | CZ | CH | SYC
    | U3(theta: bool, phi: bool, lambda: bool)
    | RX | RY | RZ | CRY
    | X | Y | Z | SX
    | Adaptive

  /** control is -1 for gates without a control qubit. */
  datatype Gate =
    | Leaf(kind: GateKind, qbitNum: int, target: int, control: int)
    | Block(qbitNum: int, parameterNum: nat, layerNum: nat, gates: seq<Gate>)

  function Ind(b: bool): nat
  {
    if b then 1 else 0
  }

  /** The free parameters of a leaf: one per U3 flag that is set, one for each rotation and adaptive gate. */
  function LeafParams(kind: GateKind): (n: nat)
    ensures n <= 3
    ensures kind.U3? ==> n == Ind(kind.theta) + Ind(kind.phi) + Ind(kind.lambda)
    ensures kind in {RX, RY, RZ, CRY, Adaptive} ==> n == 1
    ensures kind in {CNOT, CZ, CH, SYC, X, Y, Z, SX} ==> n == 0
  {
    match kind
    case U3(t, p, l) => Ind(t) + Ind(p) + Ind(l)
    case RX => 1
    case RY => 1
    case RZ => 1
    case CRY => 1
    case Adaptive => 1
    case _ => 0
  }

  /** get_parameter_num of a gate: for a block, its stored counter. */
  function ParamCount(g: Gate): nat
  {
    if g.Leaf? then LeafParams(g.kind) else g.parameterNum
  }

  /** The sum of the parameter counts of a gate list. */
  function SumParams(gs: seq<Gate>): nat
  {
    if gs == [] then 0 else SumParams(gs[..|gs| - 1]) + ParamCount(gs[|gs| - 1])
  }

  /** How many entries of a gate list are blocks. */
  function BlockCount(gs: seq<Gate>): (n: nat)
    ensures n <= |gs|
  {
    if gs == [] then 0 else BlockCount(gs[..|gs| - 1]) + (if gs[|gs| - 1].Block? then 1 else 0)
  }

  lemma {:induction false} SumParamsAppend(a: seq<Gate>, b: seq<Gate>)
    ensures SumParams(a + b) == SumParams(a) + SumParams(b)
  {
    if b != [] {
      assert (a + b)[..|a + b| - 1] == a + b[..|b| - 1];
      SumParamsAppend(a, b[..|b| - 1]);
    } else {
      assert a + b == a;
    }
  }

  lemma {:induction false} BlockCountAppend(a: seq<Gate>, b: seq<Gate>)
    ensures BlockCount(a + b) == BlockCount(a) + BlockCount(b)
  {
    if b != [] {
      assert (a + b)[..|a + b| - 1] == a + b[..|b| - 1];
      BlockCountAppend(a, b[..|b| - 1]);
    } else {
      assert a + b == a;
    }
  }

  /** The leaves of a gate list at every depth, in forward (depth-first) order. */
  function Flatten(gs: seq<Gate>): (r: seq<Gate>)
    ensures forall i :: 0 <= i < |r| ==> r[i].Leaf?
    decreases gs, 1
  {
    if gs == [] then [] else Flatten(gs[..|gs| - 1]) + FlattenOne(gs[|gs| - 1])
  }

  function FlattenOne(g: Gate): (r: seq<Gate>)
    ensures forall i :: 0 <= i < |r| ==> r[i].Leaf?
    decreases g, 0
  {
    if g.Leaf? then [g] else Flatten(g.gates)
  }

  lemma {:induction false} FlattenAppend(a: seq<Gate>, b: seq<Gate>)
    ensures Flatten(a + b) == Flatten(a) + Flatten(b)
  {
    if b != [] {
      assert (a + b)[..|a + b| - 1] == a + b[..|b| - 1];
      FlattenAppend(a, b[..|b| - 1]);
    } else {
      assert a + b == a;
    }
  }

  /** The parameters the leaves really own, summed over every depth. */
  function LeafParamSum(leaves: seq<Gate>): nat
  {
    if leaves == [] then 0 else LeafParamSum(leaves[..|leaves| - 1]) + ParamCount(leaves[|leaves| - 1])
  }

  lemma {:induction false} LeafParamSumAppend(a: seq<Gate>, b: seq<Gate>)
    ensures LeafParamSum(a + b) == LeafParamSum(a) + LeafParamSum(b)
  {
    if b != [] {
      assert (a + b)[..|a + b| - 1] == a + b[..|b| - 1];
      LeafParamSumAppend(a, b[..|b| - 1]);
    } else {
      assert a + b == a;
    }
  }

  /**
   * A tree whose stored counters are exact: every block's parameter counter
   * is the sum over its children, its layer counter the number of block
   * children, and every child carries the block's qubit count.
   */
  predicate Canonical(g: Gate)
    decreases g, 0
  {
    g.Block? ==> CanonicalBlock(g.qbitNum, g.parameterNum, g.layerNum, g.gates)
  }

  predicate CanonicalBlock(q: int, p: nat, l: nat, gs: seq<Gate>)
    decreases gs, 2
  {
    p == SumParams(gs) && l == BlockCount(gs) && AllCanonical(gs) && AllOnQubits(gs, q)
  }

  predicate AllCanonical(gs: seq<Gate>)
    decreases gs, 1
  {
    forall i :: 0 <= i < |gs| ==> Canonical(gs[i])
  }

  predicate AllOnQubits(gs: seq<Gate>, q: int)
  {
    forall i :: 0 <= i < |gs| ==> gs[i].qbitNum == q
  }

  /** In a canonical list the stored counters add up to what the leaves own. */
  lemma {:induction false} CanonicalCountsLeaves(gs: seq<Gate>)
    requires AllCanonical(gs)
    ensures SumParams(gs) == LeafParamSum(Flatten(gs))
    decreases gs, 1
  {
    if gs != [] {
      var init, last := gs[..|gs| - 1], gs[|gs| - 1];
      assert AllCanonical(init);
      CanonicalCountsLeaves(init);
      CanonicalCountsLeavesOne(last);
      LeafParamSumAppend(Flatten(init), FlattenOne(last));
    }
  }

  lemma {:induction false} CanonicalCountsLeavesOne(g: Gate)
    requires Canonical(g)
    ensures ParamCount(g) == LeafParamSum(FlattenOne(g))
    decreases g, 0
  {
    if g.Block? {
      CanonicalCountsLeaves(g.gates);
    } else {
      assert FlattenOne(g) == [g];
      assert [g][..0] == [];
    }
  }

  /**
   * set_qbit_num: a leaf takes the new qubit count; a block takes it and
   * passes it to every child. Counters are untouched.
   */
  function WithQbitNum(g: Gate, q: int): (r: Gate)
    ensures r.Leaf? == g.Leaf? && r.qbitNum == q && ParamCount(r) == ParamCount(g)
    ensures r.Leaf? ==> r.kind == g.kind && r.target == g.target && r.control == g.control
    ensures r.Block? ==> r.layerNum == g.layerNum && |r.gates| == |g.gates|
    decreases g, 0
  {
    if g.Leaf? then Leaf(g.kind, q, g.target, g.control) else Block(q, g.parameterNum, g.layerNum, AllWithQbitNum(g.gates, q))
  }

  function AllWithQbitNum(gs: seq<Gate>, q: int): (r: seq<Gate>)
    ensures |r| == |gs| && AllOnQubits(r, q)
    ensures forall i :: 0 <= i < |gs| ==> r[i] == WithQbitNum(gs[i], q)
    decreases gs, 1
  {
    seq(|gs|, i requires 0 <= i < |gs| => WithQbitNum(gs[i], q))
  }

  lemma {:induction false} AllWithQbitNumCounts(gs: seq<Gate>, q: int)
    ensures SumParams(AllWithQbitNum(gs, q)) == SumParams(gs)
    ensures BlockCount(AllWithQbitNum(gs, q)) == BlockCount(gs)
  {
    if gs != [] {
      var r := AllWithQbitNum(gs, q);
      assert r[..|r| - 1] == AllWithQbitNum(gs[..|gs| - 1], q);
      AllWithQbitNumCounts(gs[..|gs| - 1], q);
    }
  }

  /** Passing a qubit count down keeps a tree canonical. */
  lemma {:induction false} WithQbitNumCanonical(g: Gate, q: int)
    requires Canonical(g)
    ensures Canonical(WithQbitNum(g, q))
    decreases g, 0
  {
    if g.Block? {
      AllWithQbitNumCanonical(g.gates, q);
    }
  }

  lemma {:induction false} AllWithQbitNumCanonical(gs: seq<Gate>, q: int)
    requires AllCanonical(gs)
    ensures AllCanonical(AllWithQbitNum(gs, q))
    ensures CanonicalBlock(q, SumParams(gs), BlockCount(gs), AllWithQbitNum(gs, q))
    decreases gs, 1
  {
    forall i | 0 <= i < |gs| ensures Canonical(AllWithQbitNum(gs, q)[i]) {
      WithQbitNumCanonical(gs[i], q);
    }
    AllWithQbitNumCounts(gs, q);
  }

  /** In a canonical tree a gate already carrying q is unchanged by set_qbit_num(q). */
  lemma {:induction false} WithOwnQbitNum(g: Gate)
    requires Canonical(g)
    ensures WithQbitNum(g, g.qbitNum) == g
    decreases g, 0
  {
    if g.Block? {
      var cs := g.gates;
      assert AllCanonical(cs);
      forall i | 0 <= i < |cs| ensures WithQbitNum(cs[i], g.qbitNum) == cs[i] {
        WithOwnQbitNum(cs[i]);
      }
      assert AllWithQbitNum(cs, g.qbitNum) == cs;
    }
  }

  /**
   * clone: a leaf is copied; a block is rebuilt on its qubit count by adding
   * a clone of every child to the end, so its counters are recomputed.
   */
  function CloneGate(g: Gate): (r: Gate)
    ensures r.Leaf? == g.Leaf? && r.qbitNum == g.qbitNum
    decreases g, 0
  {
    if g.Leaf? then g
    else
      var cs := CloneInto(g.gates, g.qbitNum);
      Block(g.qbitNum, SumParams(cs), BlockCount(cs), cs)
  }

  /** The children of a cloned block: each child cloned, then given the block's qubit count. */
  function CloneInto(gs: seq<Gate>, q: int): (r: seq<Gate>)
    ensures |r| == |gs|
    decreases gs, 1
  {
    seq(|gs|, i requires 0 <= i < |gs| => WithQbitNum(CloneGate(gs[i]), q))
  }

  /** A clone is always canonical. */
  lemma {:induction false} CloneIsCanonical(g: Gate)
    ensures Canonical(CloneGate(g))
    decreases g, 0
  {
    if g.Block? {
      var cs := CloneInto(g.gates, g.qbitNum);
      forall i | 0 <= i < |cs| ensures Canonical(cs[i]) && cs[i].qbitNum == g.qbitNum {
        CloneIsCanonical(g.gates[i]);
        WithQbitNumCanonical(CloneGate(g.gates[i]), g.qbitNum);
      }
    }
  }

  /** Cloning a canonical tree gives back the same tree. */
  lemma {:induction false} CloneOfCanonical(g: Gate)
    requires Canonical(g)
    ensures CloneGate(g) == g
    decreases g, 0
  {
    if g.Block? {
      var cs := g.gates;
      assert AllCanonical(cs) && AllOnQubits(cs, g.qbitNum);
      forall i | 0 <= i < |cs| ensures WithQbitNum(CloneGate(cs[i]), g.qbitNum) == cs[i] {
        CloneOfCanonical(cs[i]);
        WithOwnQbitNum(cs[i]);
      }
      assert CloneInto(cs, g.qbitNum) == cs;
    }
  }

  /** Cloning canonical gates into the qubit count they already carry gives them back. */
  lemma CloneIntoOwn(gs: seq<Gate>, q: int)
    requires AllCanonical(gs) && AllOnQubits(gs, q)
    ensures CloneInto(gs, q) == gs
  {
    forall i | 0 <= i < |gs| ensures CloneInto(gs, q)[i] == gs[i] {
      CloneOfCanonical(gs[i]);
      WithOwnQbitNum(gs[i]);
    }
  }

  /** Cloned children are canonical and carry the qubit count they were cloned into. */
  lemma CloneIntoCanonical(gs: seq<Gate>, q: int)
    ensures AllCanonical(CloneInto(gs, q)) && AllOnQubits(CloneInto(gs, q), q)
  {
    forall i | 0 <= i < |gs| ensures Canonical(CloneInto(gs, q)[i]) {
      CloneIsCanonical(gs[i]);
      WithQbitNumCanonical(CloneGate(gs[i]), q);
    }
  }

  /** Cloning canonical gates keeps their parameter and block counts, whatever the qubit count. */
  lemma CloneIntoCounts(gs: seq<Gate>, q: int)
    requires AllCanonical(gs)
    ensures SumParams(CloneInto(gs, q)) == SumParams(gs) && BlockCount(CloneInto(gs, q)) == BlockCount(gs)
  {
    forall i | 0 <= i < |gs| ensures CloneInto(gs, q)[i] == AllWithQbitNum(gs, q)[i] {
      CloneOfCanonical(gs[i]);
    }
    assert CloneInto(gs, q) == AllWithQbitNum(gs, q);
    AllWithQbitNumCounts(gs, q);
  }

  /** Cloning distributes over concatenation. */
  lemma CloneIntoAppend(a: seq<Gate>, b: seq<Gate>, q: int)
    ensures CloneInto(a + b, q) == CloneInto(a, q) + CloneInto(b, q)
  {
    assert forall i :: 0 <= i < |a| ==> (a + b)[i] == a[i];
    assert forall i :: |a| <= i < |a + b| ==> (a + b)[i] == b[i - |a|];
  }

  /** Canonical gates on q appended to a canonical list on q give a canonical list on q. */
  lemma CanonicalAppend(q: int, a: seq<Gate>, b: seq<Gate>)
    requires CanonicalBlock(q, SumParams(a), BlockCount(a), a)
    requires AllCanonical(b) && AllOnQubits(b, q)
    ensures CanonicalBlock(q, SumParams(a + b), BlockCount(a + b), a + b)
  {
    SumParamsAppend(a, b);
    BlockCountAppend(a, b);
    assert forall i :: 0 <= i < |a| ==> (a + b)[i] == a[i];
    assert forall i :: |a| <= i < |a + b| ==> (a + b)[i] == b[i - |a|];
  }

  /** Relabelling a leaf with the Composite rule; a block relabels every child. */
  function RelabelGate(g: Gate, list: seq<int>): (r: Gate)
    ensures r.Leaf? == g.Leaf? && r.qbitNum == g.qbitNum && ParamCount(r) == ParamCount(g)
    ensures r.Leaf? ==> r.kind == g.kind && r.target == Relabel(list, g.qbitNum, g.target) &&
                        r.control == Relabel(list, g.qbitNum, g.control)
    ensures r.Block? ==> r.layerNum == g.layerNum
    decreases g, 0
  {
    if g.Leaf? then
      Leaf(g.kind, g.qbitNum, Relabel(list, g.qbitNum, g.target), Relabel(list, g.qbitNum, g.control))
    else
      Block(g.qbitNum, g.parameterNum, g.layerNum, RelabelAll(g.gates, list))
  }

  function RelabelAll(gs: seq<Gate>, list: seq<int>): (r: seq<Gate>)
    ensures |r| == |gs|
    ensures forall i :: 0 <= i < |gs| ==> r[i] == RelabelGate(gs[i], list)
    decreases gs, 1
  {
    seq(|gs|, i requires 0 <= i < |gs| => RelabelGate(gs[i], list))
  }

  /** Relabelling keeps the list's counters. */
  lemma {:induction false} RelabelKeepsCounts(gs: seq<Gate>, list: seq<int>)
    ensures SumParams(RelabelAll(gs, list)) == SumParams(gs)
    ensures BlockCount(RelabelAll(gs, list)) == BlockCount(gs)
  {
    if gs != [] {
      assert RelabelAll(gs, list)[..|gs| - 1] == RelabelAll(gs[..|gs| - 1], list);
      RelabelKeepsCounts(gs[..|gs| - 1], list);
    }
  }

  /** Relabelling a tree relabels exactly its leaves, in the same order. */
  lemma {:induction false} RelabelFlattens(gs: seq<Gate>, list: seq<int>)
    ensures Flatten(RelabelAll(gs, list)) == RelabelAll(Flatten(gs), list)
    decreases gs, 1
  {
    if gs != [] {
      var init, last := gs[..|gs| - 1], gs[|gs| - 1];
      assert RelabelAll(gs, list)[..|gs| - 1] == RelabelAll(init, list);
      RelabelFlattens(init, list);
      RelabelFlattensOne(last, list);
      RelabelAllAppend(Flatten(init), FlattenOne(last), list);
    }
  }

  lemma {:induction false} RelabelFlattensOne(g: Gate, list: seq<int>)
    ensures FlattenOne(RelabelGate(g, list)) == RelabelAll(FlattenOne(g), list)
    decreases g, 0
  {
    if g.Block? {
      RelabelFlattens(g.gates, list);
    }
  }

  lemma RelabelAllAppend(a: seq<Gate>, b: seq<Gate>, list: seq<int>)
    ensures RelabelAll(a + b, list) == RelabelAll(a, list) + RelabelAll(b, list)
  {
  }

  /** get_gate_nums: per-kind counts and a total. Y and Z raise only the total (see README). */
  datatype GateNums = GateNums(u3: nat, rx: nat, ry: nat, cry: nat, rz: nat, cnot: nat, cz: nat,
                               ch: nat, x: nat, sx: nat, syc: nat, adap: nat, total: nat)

  const NoGates: GateNums := GateNums(0, 0, 0, 0, 0, 0, 0, 0, 0, 0, 0, 0, 0)

  function Plus(a: GateNums, b: GateNums): GateNums
  {
    GateNums(a.u3 + b.u3, a.rx + b.rx, a.ry + b.ry, a.cry + b.cry, a.rz + b.rz, a.cnot + b.cnot,
             a.cz + b.cz, a.ch + b.ch, a.x + b.x, a.sx + b.sx, a.syc + b.syc, a.adap + b.adap,
             a.total + b.total)
  }

  /** The tally of one leaf: one in its own counter (if it has one) and one in the total. */
  function LeafNums(kind: GateKind): GateNums
  {
    match kind
    case U3(_, _, _) => NoGates.(u3 := 1, total := 1)
    case RX => NoGates.(rx := 1, total := 1)
    case RY => NoGates.(ry := 1, total := 1)
    case CRY => NoGates.(cry := 1, total := 1)
    case RZ => NoGates.(rz := 1, total := 1)
    case CNOT => NoGates.(cnot := 1, total := 1)
    case CZ => NoGates.(cz := 1, total := 1)
    case CH => NoGates.(ch := 1, total := 1)
    case X => NoGates.(x := 1, total := 1)
    case SX => NoGates.(sx := 1, total := 1)
    case SYC => NoGates.(syc := 1, total := 1)
    case Adaptive => NoGates.(adap := 1, total := 1)
    case Y => NoGates.(total := 1)
    case Z => NoGates.(total := 1)
  }

  /** get_gate_nums: a leaf adds its own tally, a nested block adds its whole tally. */
  function GetGateNums(gs: seq<Gate>): GateNums
    decreases gs, 1
  {
    if gs == [] then NoGates else Plus(GetGateNums(gs[..|gs| - 1]), GateNumsOne(gs[|gs| - 1]))
  }

  function GateNumsOne(g: Gate): GateNums
    decreases g, 0
  {
    if g.Leaf? then LeafNums(g.kind) else GetGateNums(g.gates)
  }

  /** The tally of a flat list of leaves, one leaf at a time. */
  function TallyLeaves(leaves: seq<Gate>): (n: GateNums)
    requires forall i :: 0 <= i < |leaves| ==> leaves[i].Leaf?
  {
    if leaves == [] then NoGates else Plus(TallyLeaves(leaves[..|leaves| - 1]), LeafNums(leaves[|leaves| - 1].kind))
  }

  lemma {:induction false} TallyAppend(a: seq<Gate>, b: seq<Gate>)
    requires forall i :: 0 <= i < |a| ==> a[i].Leaf?
    requires forall i :: 0 <= i < |b| ==> b[i].Leaf?
    ensures TallyLeaves(a + b) == Plus(TallyLeaves(a), TallyLeaves(b))
  {
    if b != [] {
      var init, last := b[..|b| - 1], b[|b| - 1];
      assert (a + b)[..|a + b| - 1] == a + init;
      assert (a + b)[|a + b| - 1] == last;
      var ta, ti, tl := TallyLeaves(a), TallyLeaves(init), LeafNums(last.kind);
      assert TallyLeaves(b) == Plus(ti, tl);
      assert TallyLeaves(a + b) == Plus(TallyLeaves(a + init), tl);
      TallyAppend(a, init);
      PlusAssociates(ta, ti, tl);
    } else {
      assert a + b == a;
      PlusNone(TallyLeaves(a));
    }
  }

  lemma PlusNone(a: GateNums)
    ensures Plus(a, NoGates) == a
  {
  }

  lemma PlusAssociates(a: GateNums, b: GateNums, c: GateNums)
    ensures Plus(Plus(a, b), c) == Plus(a, Plus(b, c))
  {
  }

  /** The total of a tally of leaves is the number of leaves. */
  lemma {:induction false} TallyTotal(leaves: seq<Gate>)
    requires forall i :: 0 <= i < |leaves| ==> leaves[i].Leaf?
    ensures TallyLeaves(leaves).total == |leaves|
  {
    if leaves != [] {
      TallyTotal(leaves[..|leaves| - 1]);
    }
  }

  /** get_gate_nums counts exactly the leaves found at every depth. */
  lemma {:induction false} GateNumsCountLeaves(gs: seq<Gate>)
    ensures GetGateNums(gs) == TallyLeaves(Flatten(gs))
    ensures GetGateNums(gs).total == |Flatten(gs)|
    decreases gs, 1
  {
    if gs != [] {
      var init, last := gs[..|gs| - 1], gs[|gs| - 1];
      GateNumsCountLeaves(init);
      GateNumsCountLeavesOne(last);
      TallyAppend(Flatten(init), FlattenOne(last));
    }
    TallyTotal(Flatten(gs));
  }

  lemma {:induction false} GateNumsCountLeavesOne(g: Gate)
    ensures GateNumsOne(g) == TallyLeaves(FlattenOne(g))
    decreases g, 0
  {
    if g.Block? {
      GateNumsCountLeaves(g.gates);
    } else {
      assert [g][..0] == [];
    }
  }

  /** contains_adaptive_gate: whether an adaptive gate occurs at any depth. */
  function ContainsAdaptive(gs: seq<Gate>): bool
    decreases gs, 1
  {
    gs != [] && (ContainsAdaptive(gs[..|gs| - 1]) || ContainsAdaptiveOne(gs[|gs| - 1]))
  }

  /** contains_adaptive_gate(idx) on gate idx alone. */
  function ContainsAdaptiveOne(g: Gate): bool
    decreases g, 0
  {
    if g.Leaf? then g.kind == Adaptive else ContainsAdaptive(g.gates)
  }

  predicate HasAdaptiveLeaf(leaves: seq<Gate>)
  {
    exists i :: 0 <= i < |leaves| && leaves[i].Leaf? && leaves[i].kind == Adaptive
  }

  /** contains_adaptive_gate is true exactly when an adaptive leaf is among the flattened leaves. */
  lemma {:induction false} ContainsAdaptiveIsSearch(gs: seq<Gate>)
    ensures ContainsAdaptive(gs) <==> HasAdaptiveLeaf(Flatten(gs))
    decreases gs, 1
  {
    if gs != [] {
      var init, last := gs[..|gs| - 1], gs[|gs| - 1];
      ContainsAdaptiveIsSearch(init);
      ContainsAdaptiveIsSearchOne(last);
      HasAdaptiveAppend(Flatten(init), FlattenOne(last));
    }
  }

  lemma {:induction false} ContainsAdaptiveIsSearchOne(g: Gate)
    ensures ContainsAdaptiveOne(g) <==> HasAdaptiveLeaf(FlattenOne(g))
    decreases g, 0
  {
    if g.Block? {
      ContainsAdaptiveIsSearch(g.gates);
    } else {
      assert FlattenOne(g)[0] == g;
    }
  }

  lemma HasAdaptiveAppend(a: seq<Gate>, b: seq<Gate>)
    ensures HasAdaptiveLeaf(a + b) <==> HasAdaptiveLeaf(a) || HasAdaptiveLeaf(b)
  {
    if HasAdaptiveLeaf(a + b) {
      var i :| 0 <= i < |a + b| && (a + b)[i].Leaf? && (a + b)[i].kind == Adaptive;
      if i >= |a| {
        assert b[i - |a|] == (a + b)[i];
      }
    }
    if HasAdaptiveLeaf(a) {
      var j :| 0 <= j < |a| && a[j].Leaf? && a[j].kind == Adaptive;
      assert (a + b)[j] == a[j];
    }
    if HasAdaptiveLeaf(b) {
      var j :| 0 <= j < |b| && b[j].Leaf? && b[j].kind == Adaptive;
      assert (a + b)[|a| + j] == b[j];
    }
  }
}
