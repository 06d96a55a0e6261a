/**
 * import_Qiskit_Circuit of the adaptive and the custom decomposition
 * classes. The circuit is read in order: every u3 waits in its qubit's
 * queue; every two-qubit gate opens a layer that takes at most the oldest
 * waiting u3 of each of its two qubits and then the two-qubit part; a final
 * layer takes every u3 still waiting. Every add_* call of a gate block puts
 * its gate in FRONT, while the parameters are collected at the END of one
 * list, so the list is reversed before it is handed to the engine.
 */
module CircuitImport {
  import opened Common
  import opened GateTree
  import opened GatesBlocks

  /** One circuit instruction, its qubits already resolved to register indices. */
  datatype Instr =
    | U3Op(qubit: int, theta: real, phi: real, lambda: real)
    | CZOp(q0: int, q1: int)
    | CXOp(q0: int, q1: int)
    | OtherOp

  /** The adaptive class's import (cz only, adaptive two-qubit part) or the custom class's (cz and cx, plain CZ/CNOT). */
  datatype Variant = AdaptiveImport | CustomImport

  /** numpy's pi, as a decimal. */
  const Pi: real := 3.141592653589793

  /** Every qubit an instruction names is in the register (the circuit's own qubits always are). */
  predicate Fits(ins: Instr, n: nat)
  {
    match ins
    case U3Op(q, _, _, _) => 0 <= q < n
    case CZOp(a, b) => 0 <= a < n && 0 <= b < n
    case CXOp(a, b) => 0 <= a < n && 0 <= b < n
    case OtherOp => true
  }

  predicate WellFormed(circuit: seq<Instr>, n: nat)
  {
    forall k :: 0 <= k < |circuit| ==> Fits(circuit[k], n)
  }

  /** Whether the variant opens a layer for the instruction; every other non-u3 instruction is skipped. */
  predicate Layered(ins: Instr, v: Variant)
  {
    ins.CZOp? || (v == CustomImport && ins.CXOp?)
  }

  /** A waiting u3: its angles and its place in the circuit. */
  datatype Pending = Pending(origin: nat, theta: real, phi: real, lambda: real)

  /**
   * One add_* call on a layer: the gate it puts in front, the parameters
   * collected for it, and the circuit index of the u3 it came from (-1 for
   * the gates of the two-qubit part).
   */
  datatype Call = Call(gate: Gate, chunk: seq<real>, origin: int)

  /** add_U3(q, True, True, True) for a waiting u3: its [theta, phi, lambda] reversed, the last entry halved. */
  function Drain(p: Pending, q: int, n: int): (c: Call)
    ensures c.gate.Leaf? && c.gate.qbitNum == n && c.origin >= 0
    ensures |c.chunk| == ParamCount(c.gate) == 3
  {
    Call(Leaf(U3(true, true, true), n, q, -1), [p.lambda, p.phi, p.theta / 2.0], p.origin)
  }

  /**
   * The two-qubit part of a layer, in call order: for the adaptive class
   * RX(q0), an adaptive gate (target q0, control q1), RZ(q1), RX(q0) with
   * the parameters pi/4, pi/2, -pi/2, -pi/4; for the custom class one CZ
   * or CNOT with target q1 and control q0 and no parameter.
   */
  function TwoQubitCalls(ins: Instr, v: Variant, n: int): (cs: seq<Call>)
    requires Layered(ins, v)
  {
    if v == AdaptiveImport then
      [Call(Leaf(RX, n, ins.q0, -1), [Pi / 4.0], -1),
       Call(Leaf(Adaptive, n, ins.q0, ins.q1), [Pi / 2.0], -1),
       Call(Leaf(RZ, n, ins.q1, -1), [-Pi / 2.0], -1),
       Call(Leaf(RX, n, ins.q0, -1), [-Pi / 4.0], -1)]
    else if ins.CZOp? then
      [Call(Leaf(CZ, n, ins.q1, ins.q0), [], -1)]
    else
      [Call(Leaf(CNOT, n, ins.q1, ins.q0), [], -1)]
  }

  /** Taking the oldest waiting u3 of qubit q, if there is one: the calls made and the queues left. */
  function Take(qs: seq<seq<Pending>>, q: nat, n: int): (r: (seq<Call>, seq<seq<Pending>>))
    requires q < |qs|
    ensures |r.1| == |qs|
  {
    if qs[q] == [] then ([], qs) else ([Drain(qs[q][0], q, n)], qs[q := qs[q][1..]])
  }

  /** The layer a two-qubit instruction opens, and the queues it leaves. */
  function LayerOf(qs: seq<seq<Pending>>, ins: Instr, v: Variant, n: nat): (r: (seq<Call>, seq<seq<Pending>>))
    requires |qs| == n && Fits(ins, n) && Layered(ins, v)
    ensures |r.1| == n
  {
    var first := Take(qs, ins.q0, n);
    var second := Take(first.1, ins.q1, n);
    (first.0 + second.0 + TwoQubitCalls(ins, v, n), second.1)
  }

  /** The queues and the layers made so far. */
  datatype Scan = Scan(queues: seq<seq<Pending>>, layers: seq<seq<Call>>)

  function Step(s: Scan, circuit: seq<Instr>, k: nat, n: nat, v: Variant): (r: Scan)
    requires k < |circuit| && Fits(circuit[k], n) && |s.queues| == n
    ensures |r.queues| == n
  {
    var ins := circuit[k];
    if ins.U3Op? then
      Scan(s.queues[ins.qubit := s.queues[ins.qubit] + [Pending(k, ins.theta, ins.phi, ins.lambda)]], s.layers)
    else if Layered(ins, v) then
      var l := LayerOf(s.queues, ins, v, n);
      Scan(l.1, s.layers + [l.0])
    else
      s
  }

  function Empty(n: nat): (qs: seq<seq<Pending>>)
    ensures |qs| == n
  {
    seq(n, _ => [])
  }

  /** The state after the first i instructions. */
  function ScanTo(circuit: seq<Instr>, n: nat, v: Variant, i: nat): (s: Scan)
    requires WellFormed(circuit, n) && i <= |circuit|
    ensures |s.queues| == n
  {
    if i == 0 then Scan(Empty(n), []) else Step(ScanTo(circuit, n, v, i - 1), circuit, i - 1, n, v)
  }

  function DrainAll(ps: seq<Pending>, q: int, n: int): (cs: seq<Call>)
    ensures |cs| == |ps|
  {
    seq(|ps|, j requires 0 <= j < |ps| => Drain(ps[j], q, n))
  }

  /** The final layer: the waiting u3 gates of qubit 0, then of qubit 1, and so on, each queue in order. */
  function FinalCalls(qs: seq<seq<Pending>>, n: int): seq<Call>
  {
    if qs == [] then [] else FinalCalls(qs[..|qs| - 1], n) + DrainAll(qs[|qs| - 1], |qs| - 1, n)
  }

  /** Every layer the import makes, in the order it makes them; the final layer is always there. */
  function Layers(circuit: seq<Instr>, n: nat, v: Variant): seq<seq<Call>>
    requires WellFormed(circuit, n)
  {
    var s := ScanTo(circuit, n, v, |circuit|);
    s.layers + [FinalCalls(s.queues, n)]
  }

  // ---------------------------------------------------------------- what the engine receives

  function GatesOf(cs: seq<Call>): (gs: seq<Gate>)
    ensures |gs| == |cs|
  {
    seq(|cs|, j requires 0 <= j < |cs| => cs[j].gate)
  }

  /** The parameters collected for a list of calls, in call order. */
  function Chunks(cs: seq<Call>): seq<real>
  {
    if cs == [] then [] else Chunks(cs[..|cs| - 1]) + cs[|cs| - 1].chunk
  }

  /** All calls of all layers, in call order. */
  function AllCalls(ls: seq<seq<Call>>): seq<Call>
  {
    if ls == [] then [] else AllCalls(ls[..|ls| - 1]) + ls[|ls| - 1]
  }

  /** A layer's block as add_Gates_Block stores it: its gates, last call first, with exact counters. */
  function LayerBlock(cs: seq<Call>, n: int): Gate
  {
    var gs := Reverse(GatesOf(cs));
    Block(n, SumParams(gs), 0, gs)
  }

  /** The top-level gates of the imported structure: the last layer made comes first. */
  function Structure(ls: seq<seq<Call>>, n: int): (gs: seq<Gate>)
    ensures |gs| == |ls|
  {
    if ls == [] then [] else [LayerBlock(ls[|ls| - 1], n)] + Structure(ls[..|ls| - 1], n)
  }

  function ImportedGates(circuit: seq<Instr>, n: nat, v: Variant): seq<Gate>
    requires WellFormed(circuit, n)
  {
    Structure(Layers(circuit, n, v), n)
  }

  /** The vector handed to set_Optimized_Parameters: the collected list, flipped. */
  function ImportedParameters(circuit: seq<Instr>, n: nat, v: Variant): seq<real>
    requires WellFormed(circuit, n)
  {
    Reverse(Chunks(AllCalls(Layers(circuit, n, v))))
  }

  // ---------------------------------------------------------------- counting

  function CountU3(circuit: seq<Instr>, i: nat): nat
    requires i <= |circuit|
  {
    if i == 0 then 0 else CountU3(circuit, i - 1) + (if circuit[i - 1].U3Op? then 1 else 0)
  }

  function CountLayered(circuit: seq<Instr>, v: Variant, i: nat): nat
    requires i <= |circuit|
  {
    if i == 0 then 0 else CountLayered(circuit, v, i - 1) + (if Layered(circuit[i - 1], v) then 1 else 0)
  }

  /** The circuit indices of the u3 gates on qubit q among the first i instructions, in order. */
  function U3Origins(circuit: seq<Instr>, q: int, i: nat): seq<nat>
    requires i <= |circuit|
  {
    if i == 0 then []
    else U3Origins(circuit, q, i - 1) + (if circuit[i - 1].U3Op? && circuit[i - 1].qubit == q then [i - 1] else [])
  }

  /** The circuit indices behind the u3 calls on qubit q, in call order. */
  function Origins(cs: seq<Call>, q: int): seq<int>
  {
    if cs == [] then []
    else
      var c := cs[|cs| - 1];
      Origins(cs[..|cs| - 1], q) + (if c.origin >= 0 && c.gate.Leaf? && c.gate.target == q then [c.origin] else [])
  }

  function PendingOrigins(ps: seq<Pending>): (os: seq<int>)
    ensures |os| == |ps|
  {
    seq(|ps|, j requires 0 <= j < |ps| => ps[j].origin as int)
  }

  function Waiting(qs: seq<seq<Pending>>): nat
  {
    if qs == [] then 0 else Waiting(qs[..|qs| - 1]) + |qs[|qs| - 1]|
  }

  /** The size of the two-qubit part's parameters: four for the adaptive class, none for the custom one. */
  function PartParams(v: Variant): nat
  {
    if v == AdaptiveImport then 4 else 0
  }

  /** Three parameters per u3 of the first i instructions, and four per cz for the adaptive class. */
  function ParamsFor(circuit: seq<Instr>, v: Variant, i: nat): nat
    requires i <= |circuit|
  {
    3 * CountU3(circuit, i) + (if v == AdaptiveImport then 4 * CountLayered(circuit, v, i) else 0)
  }

  // ---------------------------------------------------------------- list lemmas

  lemma {:induction false} ChunksAppend(a: seq<Call>, b: seq<Call>)
    ensures Chunks(a + b) == Chunks(a) + Chunks(b)
  {
    if b != [] {
      assert (a + b)[..|a + b| - 1] == a + b[..|b| - 1];
      ChunksAppend(a, b[..|b| - 1]);
    } else {
      assert a + b == a;
    }
  }

  lemma {:induction false} OriginsAppend(a: seq<Call>, b: seq<Call>, q: int)
    ensures Origins(a + b, q) == Origins(a, q) + Origins(b, q)
  {
    if b != [] {
      assert (a + b)[..|a + b| - 1] == a + b[..|b| - 1];
      OriginsAppend(a, b[..|b| - 1], q);
    } else {
      assert a + b == a;
    }
  }

  lemma AllCallsSnoc(ls: seq<seq<Call>>, l: seq<Call>)
    ensures AllCalls(ls + [l]) == AllCalls(ls) + l
  {
    assert (ls + [l])[..|ls + [l]| - 1] == ls;
  }

  lemma {:induction false} WaitingUpdate(qs: seq<seq<Pending>>, q: nat, x: seq<Pending>)
    requires q < |qs|
    ensures Waiting(qs[q := x]) + |qs[q]| == Waiting(qs) + |x|
  {
    var m := |qs| - 1;
    if q < m {
      assert qs[q := x][..m] == qs[..m][q := x];
      WaitingUpdate(qs[..m], q, x);
    } else {
      assert qs[q := x][..m] == qs[..m];
    }
  }

  // ---------------------------------------------------------------- the layer count

  lemma {:induction false} LayersCounted(circuit: seq<Instr>, n: nat, v: Variant, i: nat)
    requires WellFormed(circuit, n) && i <= |circuit|
    ensures |ScanTo(circuit, n, v, i).layers| == CountLayered(circuit, v, i)
  {
    if i > 0 {
      LayersCounted(circuit, n, v, i - 1);
    }
  }

  /** One layer per cz (and, for the custom class, per cx), plus the final layer. */
  lemma ImportLayerCount(circuit: seq<Instr>, n: nat, v: Variant)
    requires WellFormed(circuit, n)
    ensures |ImportedGates(circuit, n, v)| == CountLayered(circuit, v, |circuit|) + 1
    ensures forall j :: 0 <= j < |ImportedGates(circuit, n, v)| ==> ImportedGates(circuit, n, v)[j].Block?
  {
    LayersCounted(circuit, n, v, |circuit|);
    StructureOfBlocks(Layers(circuit, n, v), n);
  }

  lemma {:induction false} StructureOfBlocks(ls: seq<seq<Call>>, n: int)
    ensures forall j :: 0 <= j < |Structure(ls, n)| ==> Structure(ls, n)[j].Block?
  {
    if ls != [] {
      StructureOfBlocks(ls[..|ls| - 1], n);
    }
  }

  // ---------------------------------------------------------------- the parameter count

  lemma {:induction false} DrainAllSize(ps: seq<Pending>, q: int, n: int)
    ensures |Chunks(DrainAll(ps, q, n))| == 3 * |ps|
  {
    if ps != [] {
      var m := |ps| - 1;
      assert DrainAll(ps, q, n)[..m] == DrainAll(ps[..m], q, n);
      DrainAllSize(ps[..m], q, n);
    }
  }

  lemma {:induction false} FinalCallsSize(qs: seq<seq<Pending>>, n: int)
    ensures |Chunks(FinalCalls(qs, n))| == 3 * Waiting(qs)
  {
    if qs != [] {
      var m := |qs| - 1;
      FinalCallsSize(qs[..m], n);
      ChunksAppend(FinalCalls(qs[..m], n), DrainAll(qs[m], m, n));
      DrainAllSize(qs[m], m, n);
    }
  }

  lemma TakeSize(qs: seq<seq<Pending>>, q: nat, n: int)
    requires q < |qs|
    ensures |Chunks(Take(qs, q, n).0)| + 3 * Waiting(Take(qs, q, n).1) == 3 * Waiting(qs)
  {
    if qs[q] != [] {
      WaitingUpdate(qs, q, qs[q][1..]);
      var c := [Drain(qs[q][0], q, n)];
      assert Chunks(c) == Chunks(c[..0]) + c[0].chunk;
    }
  }

  lemma TwoQubitSize(ins: Instr, v: Variant, n: int)
    requires Layered(ins, v)
    ensures |Chunks(TwoQubitCalls(ins, v, n))| == PartParams(v)
  {
    var cs := TwoQubitCalls(ins, v, n);
    assert Chunks(cs[..0]) == [];
    if v == AdaptiveImport {
      assert cs[..4][..3][..2][..1] == cs[..1];
      assert cs[..4][..3][..2] == cs[..2];
      assert cs[..4][..3] == cs[..3];
      assert cs[..4] == cs;
      assert |Chunks(cs[..1])| == 1;
      assert |Chunks(cs[..2])| == 2;
      assert |Chunks(cs[..3])| == 3;
    } else {
      assert |Chunks(cs[..1])| == 0;
      assert cs[..1] == cs;
    }
  }

  lemma LayerSize(qs: seq<seq<Pending>>, ins: Instr, v: Variant, n: nat)
    requires |qs| == n && Fits(ins, n) && Layered(ins, v)
    ensures |Chunks(LayerOf(qs, ins, v, n).0)| + 3 * Waiting(LayerOf(qs, ins, v, n).1) == 3 * Waiting(qs) + PartParams(v)
  {
    var first := Take(qs, ins.q0, n);
    var second := Take(first.1, ins.q1, n);
    TakeSize(qs, ins.q0, n);
    TakeSize(first.1, ins.q1, n);
    TwoQubitSize(ins, v, n);
    ChunksAppend(first.0, second.0);
    ChunksAppend(first.0 + second.0, TwoQubitCalls(ins, v, n));
  }

  /** Parameters collected so far plus three for every u3 still waiting. */
  function Size(s: Scan): nat
  {
    |Chunks(AllCalls(s.layers))| + 3 * Waiting(s.queues)
  }

  /** What one instruction adds to the parameter count. */
  function Grows(ins: Instr, v: Variant): nat
  {
    if ins.U3Op? then 3 else if Layered(ins, v) then PartParams(v) else 0
  }

  lemma ParamsForStep(circuit: seq<Instr>, v: Variant, i: nat)
    requires 0 < i <= |circuit|
    ensures ParamsFor(circuit, v, i) == ParamsFor(circuit, v, i - 1) + Grows(circuit[i - 1], v)
  {
  }

  lemma {:induction false} ScanSize(circuit: seq<Instr>, n: nat, v: Variant, i: nat)
    requires WellFormed(circuit, n) && i <= |circuit|
    ensures Size(ScanTo(circuit, n, v, i)) == ParamsFor(circuit, v, i)
  {
    if i == 0 {
      EmptyWaiting(n);
    } else {
      ScanSize(circuit, n, v, i - 1);
      StepSize(ScanTo(circuit, n, v, i - 1), circuit, i - 1, n, v);
      ParamsForStep(circuit, v, i);
    }
  }

  lemma StepSize(s: Scan, circuit: seq<Instr>, k: nat, n: nat, v: Variant)
    requires k < |circuit| && Fits(circuit[k], n) && |s.queues| == n
    ensures Size(Step(s, circuit, k, n, v)) == Size(s) + Grows(circuit[k], v)
  {
    var ins := circuit[k];
    if ins.U3Op? {
      WaitingUpdate(s.queues, ins.qubit, s.queues[ins.qubit] + [Pending(k, ins.theta, ins.phi, ins.lambda)]);
    } else if Layered(ins, v) {
      var l := LayerOf(s.queues, ins, v, n);
      LayerSize(s.queues, ins, v, n);
      AllCallsSnoc(s.layers, l.0);
      ChunksAppend(AllCalls(s.layers), l.0);
    }
  }

  lemma {:induction false} EmptyWaiting(n: nat)
    ensures Waiting(Empty(n)) == 0
  {
    if n > 0 {
      assert Empty(n)[..n - 1] == Empty(n - 1);
      EmptyWaiting(n - 1);
    }
  }

  /**
   * The imported parameter vector holds three entries per u3 of the circuit
   * and, for the adaptive class, four per cz; for the custom class none per
   * cz or cx.
   */
  lemma ImportParameterCount(circuit: seq<Instr>, n: nat, v: Variant)
    requires WellFormed(circuit, n)
    ensures |ImportedParameters(circuit, n, v)| == ParamsFor(circuit, v, |circuit|)
  {
    var s := ScanTo(circuit, n, v, |circuit|);
    ScanSize(circuit, n, v, |circuit|);
    assert Size(s) == ParamsFor(circuit, v, |circuit|);
    FinalCallsSize(s.queues, n);
    AllCallsSnoc(s.layers, FinalCalls(s.queues, n));
    ChunksAppend(AllCalls(s.layers), FinalCalls(s.queues, n));
  }

  // ---------------------------------------------------------------- first in, first out, exactly once

  lemma PendingOriginsSnoc(ps: seq<Pending>, p: Pending)
    ensures PendingOrigins(ps + [p]) == PendingOrigins(ps) + [p.origin as int]
  {
  }

  lemma PendingOriginsCons(ps: seq<Pending>)
    requires ps != []
    ensures PendingOrigins(ps) == [ps[0].origin as int] + PendingOrigins(ps[1..])
  {
  }

  lemma OriginsOne(c: Call, q: int)
    ensures Origins([c], q) == (if c.origin >= 0 && c.gate.Leaf? && c.gate.target == q then [c.origin] else [])
  {
    assert [c][..0] == [];
  }

  lemma TakeFifo(qs: seq<seq<Pending>>, q: nat, n: int, r: nat)
    requires q < |qs| && r < |qs|
    ensures Origins(Take(qs, q, n).0, r) + PendingOrigins(Take(qs, q, n).1[r]) == PendingOrigins(qs[r])
  {
    if qs[q] != [] {
      OriginsOne(Drain(qs[q][0], q, n), r);
      PendingOriginsCons(qs[q]);
    }
  }

  lemma TwoQubitFifo(ins: Instr, v: Variant, n: int, r: int)
    requires Layered(ins, v)
    ensures Origins(TwoQubitCalls(ins, v, n), r) == []
  {
    var cs := TwoQubitCalls(ins, v, n);
    assert cs[..0] == [];
    if v == AdaptiveImport {
      assert cs[..4][..3][..2][..1] == cs[..1];
      assert cs[..4][..3][..2] == cs[..2];
      assert cs[..4][..3] == cs[..3];
      assert cs[..4] == cs;
      assert Origins(cs[..1], r) == [];
      assert Origins(cs[..2], r) == [];
      assert Origins(cs[..3], r) == [];
    } else {
      assert cs[..1] == cs;
      assert Origins(cs[..1], r) == [];
    }
  }

  lemma LayerFifo(qs: seq<seq<Pending>>, ins: Instr, v: Variant, n: nat, r: nat)
    requires |qs| == n && Fits(ins, n) && Layered(ins, v) && r < n
    ensures Origins(LayerOf(qs, ins, v, n).0, r) + PendingOrigins(LayerOf(qs, ins, v, n).1[r]) == PendingOrigins(qs[r])
  {
    var first := Take(qs, ins.q0, n);
    var second := Take(first.1, ins.q1, n);
    var part := TwoQubitCalls(ins, v, n);
    TakeFifo(qs, ins.q0, n, r);
    TakeFifo(first.1, ins.q1, n, r);
    TwoQubitFifo(ins, v, n, r);
    Threefold(first.0, second.0, part, r, PendingOrigins(qs[r]), PendingOrigins(first.1[r]), PendingOrigins(second.1[r]));
  }

  /** Origins over three call lists, the last without u3 calls, that drain a queue twice. */
  lemma Threefold(a: seq<Call>, b: seq<Call>, c: seq<Call>, r: int, p0: seq<int>, p1: seq<int>, p2: seq<int>)
    requires Origins(a, r) + p1 == p0 && Origins(b, r) + p2 == p1 && Origins(c, r) == []
    ensures Origins(a + b + c, r) + p2 == p0
  {
    OriginsAppend(a, b, r);
    OriginsAppend(a + b, c, r);
    assert Origins(a + b + c, r) == Origins(a, r) + Origins(b, r) + [];
  }

  /** The u3 origins of qubit r the scan has seen: those already called, then those waiting. */
  function Seen(s: Scan, r: nat): seq<int>
    requires r < |s.queues|
  {
    Origins(AllCalls(s.layers), r) + PendingOrigins(s.queues[r])
  }

  /** The u3 origin instruction k brings to qubit r. */
  function Arrives(ins: Instr, k: nat, r: nat): seq<int>
  {
    if ins.U3Op? && ins.qubit == r then [k] else []
  }

  lemma LayerStepFifo(ls: seq<seq<Call>>, l: seq<Call>, p: seq<int>, p': seq<int>, r: nat)
    requires Origins(l, r) + p' == p
    ensures Origins(AllCalls(ls + [l]), r) + p' == Origins(AllCalls(ls), r) + p
  {
    AllCallsSnoc(ls, l);
    OriginsAppend(AllCalls(ls), l, r);
  }

  lemma StepFifo(s: Scan, t: Scan, circuit: seq<Instr>, k: nat, n: nat, v: Variant, r: nat)
    requires k < |circuit| && Fits(circuit[k], n) && |s.queues| == n && r < n
    requires t == Step(s, circuit, k, n, v)
    ensures |t.queues| == n && Seen(t, r) == Seen(s, r) + Arrives(circuit[k], k, r)
  {
    var ins := circuit[k];
    if ins.U3Op? {
      if ins.qubit == r {
        PendingOriginsSnoc(s.queues[r], Pending(k, ins.theta, ins.phi, ins.lambda));
      }
    } else if Layered(ins, v) {
      var l := LayerOf(s.queues, ins, v, n);
      LayerFifo(s.queues, ins, v, n, r);
      LayerStepFifo(s.layers, l.0, PendingOrigins(s.queues[r]), PendingOrigins(l.1[r]), r);
    }
  }

  lemma FifoStepAt(circuit: seq<Instr>, n: nat, v: Variant, i: nat, r: nat)
    requires WellFormed(circuit, n) && 0 < i <= |circuit| && r < n
    ensures Seen(ScanTo(circuit, n, v, i), r) == Seen(ScanTo(circuit, n, v, i - 1), r) + Arrives(circuit[i - 1], i - 1, r)
  {
    ScanToStep(circuit, n, v, i);
    StepFifo(ScanTo(circuit, n, v, i - 1), ScanTo(circuit, n, v, i), circuit, i - 1, n, v, r);
  }

  lemma ScanToStep(circuit: seq<Instr>, n: nat, v: Variant, i: nat)
    requires WellFormed(circuit, n) && 0 < i <= |circuit|
    ensures ScanTo(circuit, n, v, i) == Step(ScanTo(circuit, n, v, i - 1), circuit, i - 1, n, v)
  {
  }

  lemma {:induction false} ScanFifo(circuit: seq<Instr>, n: nat, v: Variant, i: nat, r: nat)
    requires WellFormed(circuit, n) && i <= |circuit| && r < n
    ensures Seen(ScanTo(circuit, n, v, i), r) == U3Origins(circuit, r, i)
  {
    if i > 0 {
      ScanFifo(circuit, n, v, i - 1, r);
      FifoStepAt(circuit, n, v, i, r);
      U3OriginsStep(circuit, r, i);
    }
  }

  lemma U3OriginsStep(circuit: seq<Instr>, r: nat, i: nat)
    requires 0 < i <= |circuit|
    ensures U3Origins(circuit, r, i) == U3Origins(circuit, r, i - 1) + Arrives(circuit[i - 1], i - 1, r)
  {
  }

  lemma {:induction false} DrainAllFifo(ps: seq<Pending>, q: int, n: int, r: int)
    ensures Origins(DrainAll(ps, q, n), r) == (if q == r then PendingOrigins(ps) else [])
  {
    if ps != [] {
      var m := |ps| - 1;
      assert DrainAll(ps, q, n)[..m] == DrainAll(ps[..m], q, n);
      DrainAllFifo(ps[..m], q, n, r);
      assert PendingOrigins(ps) == PendingOrigins(ps[..m]) + [ps[m].origin as int];
    }
  }

  lemma {:induction false} FinalFifo(qs: seq<seq<Pending>>, n: int, r: int)
    ensures Origins(FinalCalls(qs, n), r) == (if 0 <= r < |qs| then PendingOrigins(qs[r]) else [])
  {
    if qs != [] {
      var m := |qs| - 1;
      FinalFifo(qs[..m], n, r);
      DrainAllFifo(qs[m], m, n, r);
      OriginsAppend(FinalCalls(qs[..m], n), DrainAll(qs[m], m, n), r);
    }
  }

  /**
   * Per qubit, the u3 gates reach the layers in circuit order and each one
   * exactly once: the circuit indices behind the U3 calls on qubit r, in
   * call order, are the indices of the circuit's u3 gates on r.
   */
  lemma ImportFifo(circuit: seq<Instr>, n: nat, v: Variant, r: nat)
    requires WellFormed(circuit, n) && r < n
    ensures Origins(AllCalls(Layers(circuit, n, v)), r) == U3Origins(circuit, r, |circuit|)
  {
    var s := ScanTo(circuit, n, v, |circuit|);
    ScanFifo(circuit, n, v, |circuit|, r);
    assert Seen(s, r) == Origins(AllCalls(s.layers), r) + PendingOrigins(s.queues[r]);
    FinalFifo(s.queues, n, r);
    AllCallsSnoc(s.layers, FinalCalls(s.queues, n));
    OriginsAppend(AllCalls(s.layers), FinalCalls(s.queues, n), r);
  }

  /** The u3 indices on q: exactly the u3 gates on q before i, increasing. */
  lemma {:induction false} U3OriginsMeaning(circuit: seq<Instr>, q: int, i: nat)
    requires i <= |circuit|
    ensures forall k: int :: k in U3Origins(circuit, q, i) <==> 0 <= k < i && circuit[k].U3Op? && circuit[k].qubit == q
    ensures forall a, b :: 0 <= a < b < |U3Origins(circuit, q, i)| ==> U3Origins(circuit, q, i)[a] < U3Origins(circuit, q, i)[b]
  {
    if i > 0 {
      U3OriginsMeaning(circuit, q, i - 1);
      var before := U3Origins(circuit, q, i - 1);
      assert forall a :: 0 <= a < |before| ==> before[a] in before;
    }
  }

  // ---------------------------------------------------------------- every U3 call carries its own u3's angles

  /** A call made for a u3: a U3 gate on the u3's qubit, with the u3's angles as [lambda, phi, theta/2]. */
  predicate FromCircuit(circuit: seq<Instr>, c: Call, n: int)
  {
    c.origin >= 0 ==>
      c.origin < |circuit| && circuit[c.origin].U3Op? &&
      var ins := circuit[c.origin];
      c == Call(Leaf(U3(true, true, true), n, ins.qubit, -1), [ins.lambda, ins.phi, ins.theta / 2.0], c.origin)
  }

  predicate CallsFrom(circuit: seq<Instr>, cs: seq<Call>, n: int)
  {
    forall j :: 0 <= j < |cs| ==> FromCircuit(circuit, cs[j], n)
  }

  predicate QueueFrom(circuit: seq<Instr>, ps: seq<Pending>, q: int)
  {
    forall j :: 0 <= j < |ps| ==> ps[j].origin < |circuit| && circuit[ps[j].origin] == U3Op(q, ps[j].theta, ps[j].phi, ps[j].lambda)
  }

  predicate QueuesFrom(circuit: seq<Instr>, qs: seq<seq<Pending>>)
  {
    forall q :: 0 <= q < |qs| ==> QueueFrom(circuit, qs[q], q)
  }

  lemma {:induction false} AllCallsFrom(circuit: seq<Instr>, ls: seq<seq<Call>>, n: int)
    requires forall j :: 0 <= j < |ls| ==> CallsFrom(circuit, ls[j], n)
    ensures CallsFrom(circuit, AllCalls(ls), n)
  {
    if ls != [] {
      AllCallsFrom(circuit, ls[..|ls| - 1], n);
    }
  }

  lemma TakeFrom(circuit: seq<Instr>, qs: seq<seq<Pending>>, q: nat, n: int)
    requires q < |qs| && QueuesFrom(circuit, qs)
    ensures CallsFrom(circuit, Take(qs, q, n).0, n) && QueuesFrom(circuit, Take(qs, q, n).1)
  {
    if qs[q] != [] {
      assert QueueFrom(circuit, qs[q], q);
      var t := Take(qs, q, n).1;
      forall r | 0 <= r < |t| ensures QueueFrom(circuit, t[r], r) {
        assert QueueFrom(circuit, qs[r], r);
      }
    }
  }

  lemma StepFrom(s: Scan, circuit: seq<Instr>, k: nat, n: nat, v: Variant)
    requires k < |circuit| && Fits(circuit[k], n) && |s.queues| == n
    requires QueuesFrom(circuit, s.queues) && forall j :: 0 <= j < |s.layers| ==> CallsFrom(circuit, s.layers[j], n)
    ensures var t := Step(s, circuit, k, n, v);
            QueuesFrom(circuit, t.queues) && forall j :: 0 <= j < |t.layers| ==> CallsFrom(circuit, t.layers[j], n)
  {
    var ins := circuit[k];
    if ins.U3Op? {
      var t := Step(s, circuit, k, n, v).queues;
      forall r | 0 <= r < |t| ensures QueueFrom(circuit, t[r], r) {
        assert QueueFrom(circuit, s.queues[r], r);
      }
    } else if Layered(ins, v) {
      var first := Take(s.queues, ins.q0, n);
      TakeFrom(circuit, s.queues, ins.q0, n);
      TakeFrom(circuit, first.1, ins.q1, n);
      var l := LayerOf(s.queues, ins, v, n);
      assert CallsFrom(circuit, l.0, n);
    }
  }

  lemma {:induction false} ScanFrom(circuit: seq<Instr>, n: nat, v: Variant, i: nat)
    requires WellFormed(circuit, n) && i <= |circuit|
    ensures var s := ScanTo(circuit, n, v, i);
            QueuesFrom(circuit, s.queues) && forall j :: 0 <= j < |s.layers| ==> CallsFrom(circuit, s.layers[j], n)
  {
    if i > 0 {
      ScanFrom(circuit, n, v, i - 1);
      StepFrom(ScanTo(circuit, n, v, i - 1), circuit, i - 1, n, v);
    }
  }

  lemma FinalFrom(circuit: seq<Instr>, qs: seq<seq<Pending>>, n: int)
    requires QueuesFrom(circuit, qs)
    ensures CallsFrom(circuit, FinalCalls(qs, n), n)
    decreases |qs|
  {
    if qs != [] {
      var m := |qs| - 1;
      assert QueuesFrom(circuit, qs[..m]) by {
        forall r | 0 <= r < m ensures QueueFrom(circuit, qs[..m][r], r) {
          assert QueueFrom(circuit, qs[r], r);
        }
      }
      FinalFrom(circuit, qs[..m], n);
      assert QueueFrom(circuit, qs[m], m);
    }
  }

  /**
   * Every U3 call of the import is made for one u3 of the circuit: a U3 with
   * all three angles free on that u3's qubit, collecting [lambda, phi,
   * theta/2]; the other calls belong to the two-qubit parts.
   */
  lemma ImportCallsFromCircuit(circuit: seq<Instr>, n: nat, v: Variant)
    requires WellFormed(circuit, n)
    ensures CallsFrom(circuit, AllCalls(Layers(circuit, n, v)), n)
  {
    var s := ScanTo(circuit, n, v, |circuit|);
    ScanFrom(circuit, n, v, |circuit|);
    FinalFrom(circuit, s.queues, n);
    AllCallsFrom(circuit, Layers(circuit, n, v), n);
  }

  // ---------------------------------------------------------------- the parameter layout

  /** Every call puts a leaf on n qubits and collects exactly that leaf's parameter count. */
  predicate Proper(cs: seq<Call>, n: int)
  {
    forall j :: 0 <= j < |cs| ==> cs[j].gate.Leaf? && cs[j].gate.qbitNum == n && |cs[j].chunk| == ParamCount(cs[j].gate)
  }

  lemma ProperAppend(a: seq<Call>, b: seq<Call>, n: int)
    requires Proper(a, n) && Proper(b, n)
    ensures Proper(a + b, n)
  {
  }

  lemma LayerProper(qs: seq<seq<Pending>>, ins: Instr, v: Variant, n: nat)
    requires |qs| == n && Fits(ins, n) && Layered(ins, v)
    ensures Proper(LayerOf(qs, ins, v, n).0, n)
  {
    var first := Take(qs, ins.q0, n);
    var second := Take(first.1, ins.q1, n);
    var part := TwoQubitCalls(ins, v, n);
    assert Proper(part, n);
    ProperAppend(first.0, second.0, n);
    ProperAppend(first.0 + second.0, part, n);
  }

  lemma {:induction false} ScanProper(circuit: seq<Instr>, n: nat, v: Variant, i: nat)
    requires WellFormed(circuit, n) && i <= |circuit|
    ensures forall j :: 0 <= j < |ScanTo(circuit, n, v, i).layers| ==> Proper(ScanTo(circuit, n, v, i).layers[j], n)
  {
    if i > 0 {
      ScanProper(circuit, n, v, i - 1);
      var s := ScanTo(circuit, n, v, i - 1);
      var ins := circuit[i - 1];
      if !ins.U3Op? && Layered(ins, v) {
        var l := LayerOf(s.queues, ins, v, n);
        LayerProper(s.queues, ins, v, n);
        assert ScanTo(circuit, n, v, i).layers == s.layers + [l.0];
      } else {
        var t := ScanTo(circuit, n, v, i);
        assert t.layers == s.layers;
        forall j | 0 <= j < |t.layers| ensures Proper(t.layers[j], n) {
          assert Proper(s.layers[j], n);
          assert t.layers[j] == s.layers[j];
        }
      }
    }
  }

  lemma {:induction false} FinalProper(qs: seq<seq<Pending>>, n: int)
    ensures Proper(FinalCalls(qs, n), n)
  {
    if qs != [] {
      FinalProper(qs[..|qs| - 1], n);
      ProperAppend(FinalCalls(qs[..|qs| - 1], n), DrainAll(qs[|qs| - 1], |qs| - 1, n), n);
    }
  }

  lemma LayersProper(circuit: seq<Instr>, n: nat, v: Variant)
    requires WellFormed(circuit, n)
    ensures forall j :: 0 <= j < |Layers(circuit, n, v)| ==> Proper(Layers(circuit, n, v)[j], n)
  {
    var s := ScanTo(circuit, n, v, |circuit|);
    ScanProper(circuit, n, v, |circuit|);
    FinalProper(s.queues, n);
    var ls := Layers(circuit, n, v);
    assert ls == s.layers + [FinalCalls(s.queues, n)];
    forall j | 0 <= j < |ls| ensures Proper(ls[j], n) {
      if j < |s.layers| {
        assert ls[j] == s.layers[j];
      } else {
        assert ls[j] == FinalCalls(s.queues, n);
      }
    }
  }

  lemma {:induction false} AllCallsProper(ls: seq<seq<Call>>, n: int)
    requires forall j :: 0 <= j < |ls| ==> Proper(ls[j], n)
    ensures Proper(AllCalls(ls), n)
  {
    if ls != [] {
      AllCallsProper(ls[..|ls| - 1], n);
      ProperAppend(AllCalls(ls[..|ls| - 1]), ls[|ls| - 1], n);
    }
  }

  /** The calls in reverse order, each with its parameters reversed. */
  function Flip(cs: seq<Call>): (r: seq<Call>)
    ensures |r| == |cs|
  {
    seq(|cs|, j requires 0 <= j < |cs| => FlipCall(cs[|cs| - 1 - j]))
  }

  function FlipCall(c: Call): Call
  {
    Call(c.gate, Reverse(c.chunk), c.origin)
  }

  lemma GatesOfAppend(a: seq<Call>, b: seq<Call>)
    ensures GatesOf(a + b) == GatesOf(a) + GatesOf(b)
  {
  }

  lemma GatesOfFlip(cs: seq<Call>)
    ensures GatesOf(Flip(cs)) == Reverse(GatesOf(cs))
  {
    forall j | 0 <= j < |cs| ensures GatesOf(Flip(cs))[j] == Reverse(GatesOf(cs))[j] {
      ReverseAt(GatesOf(cs), j);
    }
  }

  lemma FlipProper(cs: seq<Call>, n: int)
    requires Proper(cs, n)
    ensures Proper(Flip(cs), n)
  {
    forall j | 0 <= j < |cs|
      ensures Flip(cs)[j].gate.Leaf? && Flip(cs)[j].gate.qbitNum == n && |Flip(cs)[j].chunk| == ParamCount(Flip(cs)[j].gate)
    {
      var c := cs[|cs| - 1 - j];
      assert Flip(cs)[j] == FlipCall(c);
      assert |Reverse(c.chunk)| == |c.chunk|;
    }
  }

  /** Flipping the collected list is collecting the flipped calls. */
  lemma {:induction false} ChunksFlip(cs: seq<Call>)
    ensures Reverse(Chunks(cs)) == Chunks(Flip(cs))
  {
    if cs != [] {
      var m := |cs| - 1;
      ChunksFlip(cs[..m]);
      ReverseAppend(Chunks(cs[..m]), cs[m].chunk);
      assert Flip(cs) == [FlipCall(cs[m])] + Flip(cs[..m]);
      ChunksAppend([FlipCall(cs[m])], Flip(cs[..m]));
      assert Chunks([FlipCall(cs[m])]) == Chunks([FlipCall(cs[m])][..0]) + Reverse(cs[m].chunk);
    }
  }

  lemma {:induction false} OffsetIsCollected(cs: seq<Call>, n: int, i: nat)
    requires Proper(cs, n) && i <= |cs|
    ensures Offset(GatesOf(cs), i) == |Chunks(cs[..i])|
  {
    if i > 0 {
      OffsetIsCollected(cs, n, i - 1);
      OffsetStep(GatesOf(cs), i - 1);
      assert cs[..i][..i - 1] == cs[..i - 1];
      assert |cs[i - 1].chunk| == ParamCount(cs[i - 1].gate);
    }
  }

  lemma SliceIsChunk(cs: seq<Call>, n: int, i: nat)
    requires Proper(cs, n) && i < |cs|
    ensures SumParams(GatesOf(cs)) == |Chunks(cs)|
    ensures Slice(Chunks(cs), GatesOf(cs), i) == cs[i].chunk
  {
    var pre, mid, post := Chunks(cs[..i]), cs[i].chunk, Chunks(cs[i + 1..]);
    assert cs == cs[..i] + [cs[i]] + cs[i + 1..];
    ChunksAppend(cs[..i] + [cs[i]], cs[i + 1..]);
    ChunksAppend(cs[..i], [cs[i]]);
    assert Chunks([cs[i]]) == Chunks([]) + mid;
    assert Chunks(cs) == pre + mid + post;
    OffsetIsCollected(cs, n, i);
    OffsetIsCollected(cs, n, |cs|);
    assert cs[..|cs|] == cs && GatesOf(cs)[..|cs|] == GatesOf(cs);
    OffsetStep(GatesOf(cs), i);
    assert (pre + mid + post)[|pre|..|pre| + |mid|] == mid;
  }

  lemma CollectedSlices(cs: seq<Call>, n: int)
    requires Proper(cs, n)
    ensures SumParams(GatesOf(cs)) == |Chunks(cs)|
    ensures forall i :: 0 <= i < |cs| ==> Slice(Chunks(cs), GatesOf(cs), i) == cs[i].chunk
  {
    OffsetIsCollected(cs, n, |cs|);
    assert cs[..|cs|] == cs && GatesOf(cs)[..|cs|] == GatesOf(cs);
    forall i | 0 <= i < |cs| ensures Slice(Chunks(cs), GatesOf(cs), i) == cs[i].chunk {
      SliceIsChunk(cs, n, i);
    }
  }


  lemma {:induction false} FlattenLeaves(gs: seq<Gate>)
    requires forall j :: 0 <= j < |gs| ==> gs[j].Leaf?
    ensures Flatten(gs) == gs
  {
    if gs != [] {
      FlattenLeaves(gs[..|gs| - 1]);
    }
  }

  /**
   * The imported structure is canonical on n qubits, and its leaves, in
   * flattened order, are the gates of all calls in reverse call order.
   */
  lemma {:induction false} StructureFlat(ls: seq<seq<Call>>, n: int)
    requires forall j :: 0 <= j < |ls| ==> Proper(ls[j], n)
    ensures AllCanonical(Structure(ls, n)) && AllOnQubits(Structure(ls, n), n)
    ensures Flatten(Structure(ls, n)) == Reverse(GatesOf(AllCalls(ls)))
    ensures SumParams(Structure(ls, n)) == SumParams(Reverse(GatesOf(AllCalls(ls))))
  {
    if ls != [] {
      var front, last := ls[..|ls| - 1], ls[|ls| - 1];
      StructureFlat(front, n);
      var b, rest := LayerBlock(last, n), Structure(front, n);
      LayerBlockFacts(last, n);
      StructureStep(b, rest, n);
      var leaves, earlier := Reverse(GatesOf(last)), Reverse(GatesOf(AllCalls(front)));
      FlattenAppend([b], rest);
      SumParamsAppend([b], rest);
      CallsStep(front, last);
      SumParamsAppend(leaves, earlier);
    }
  }

  lemma StructureStep(b: Gate, rest: seq<Gate>, n: int)
    requires Canonical(b) && b.qbitNum == n && AllCanonical(rest) && AllOnQubits(rest, n)
    ensures AllCanonical([b] + rest) && AllOnQubits([b] + rest, n)
  {
    forall j | 0 <= j < |[b] + rest| ensures Canonical(([b] + rest)[j]) && ([b] + rest)[j].qbitNum == n {
      if j > 0 {
        assert ([b] + rest)[j] == rest[j - 1];
      }
    }
  }

  lemma CallsStep(front: seq<seq<Call>>, last: seq<Call>)
    ensures AllCalls(front + [last]) == AllCalls(front) + last
    ensures Reverse(GatesOf(AllCalls(front + [last]))) == Reverse(GatesOf(last)) + Reverse(GatesOf(AllCalls(front)))
  {
    AllCallsSnoc(front, last);
    GatesOfAppend(AllCalls(front), last);
    ReverseAppend(GatesOf(AllCalls(front)), GatesOf(last));
  }

  /** One layer's block: canonical on n qubits, flattening to its gates in reverse call order. */
  lemma LayerBlockFacts(cs: seq<Call>, n: int)
    requires Proper(cs, n)
    ensures var b, leaves := LayerBlock(cs, n), Reverse(GatesOf(cs));
            Canonical(b) && b.qbitNum == n && Flatten([b]) == leaves && SumParams([b]) == SumParams(leaves)
  {
    var leaves := Reverse(GatesOf(cs));
    forall j | 0 <= j < |leaves| ensures leaves[j].Leaf? && leaves[j].qbitNum == n {
      ReverseAt(GatesOf(cs), j);
    }
    FlattenLeaves(leaves);
    LeavesNoBlocks(leaves);
    var b := LayerBlock(cs, n);
    assert AllCanonical(leaves) && AllOnQubits(leaves, n);
    assert Flatten([b]) == Flatten([b][..0]) + FlattenOne(b);
    assert SumParams([b]) == SumParams([b][..0]) + ParamCount(b);
  }

  lemma {:induction false} LeavesNoBlocks(gs: seq<Gate>)
    requires forall j :: 0 <= j < |gs| ==> gs[j].Leaf?
    ensures BlockCount(gs) == 0
  {
    if gs != [] {
      LeavesNoBlocks(gs[..|gs| - 1]);
    }
  }

  /**
   * The flipped vector lines up with the structure: the structure is
   * canonical on n qubits, owns exactly as many parameters as the vector
   * holds, and the i-th leaf in flattened order is the gate of the i-th call
   * from the end, whose slice is that call's collected parameters reversed.
   */
  lemma ImportLayout(circuit: seq<Instr>, n: nat, v: Variant)
    requires WellFormed(circuit, n)
    ensures var gs, ps, cs := ImportedGates(circuit, n, v), ImportedParameters(circuit, n, v), AllCalls(Layers(circuit, n, v));
            AllCanonical(gs) && AllOnQubits(gs, n) && SumParams(gs) == |ps| &&
            |Flatten(gs)| == |cs| && SumParams(Flatten(gs)) == |ps| &&
            (forall i :: 0 <= i < |cs| ==> Flatten(gs)[i] == cs[|cs| - 1 - i].gate) &&
            (forall i :: 0 <= i < |cs| ==> Slice(ps, Flatten(gs), i) == Reverse(cs[|cs| - 1 - i].chunk))
  {
    var ls := Layers(circuit, n, v);
    LayersProper(circuit, n, v);
    FlippedLayout(ls, n);
  }

  lemma FlippedLayout(ls: seq<seq<Call>>, n: int)
    requires forall j :: 0 <= j < |ls| ==> Proper(ls[j], n)
    ensures var gs, cs := Structure(ls, n), AllCalls(ls);
            var ps := Reverse(Chunks(cs));
            AllCanonical(gs) && AllOnQubits(gs, n) && SumParams(gs) == |ps| &&
            |Flatten(gs)| == |cs| && SumParams(Flatten(gs)) == |ps| &&
            (forall i :: 0 <= i < |cs| ==> Flatten(gs)[i] == cs[|cs| - 1 - i].gate) &&
            (forall i :: 0 <= i < |cs| ==> Slice(ps, Flatten(gs), i) == Reverse(cs[|cs| - 1 - i].chunk))
  {
    var cs := AllCalls(ls);
    AllCallsProper(ls, n);
    StructureFlat(ls, n);
    FlipLayout(cs, n);
  }

  lemma FlipLayout(cs: seq<Call>, n: int)
    requires Proper(cs, n)
    ensures var f, ps := Reverse(GatesOf(cs)), Reverse(Chunks(cs));
            SumParams(f) == |ps| && |f| == |cs| &&
            (forall i :: 0 <= i < |cs| ==> f[i] == cs[|cs| - 1 - i].gate) &&
            (forall i :: 0 <= i < |cs| ==> Slice(ps, f, i) == Reverse(cs[|cs| - 1 - i].chunk))
  {
    var fl := Flip(cs);
    GatesOfFlip(cs);
    ChunksFlip(cs);
    FlipProper(cs, n);
    CollectedSlices(fl, n);
    var f, ps := GatesOf(fl), Chunks(fl);
    forall i | 0 <= i < |cs| ensures f[i] == cs[|cs| - 1 - i].gate && Slice(ps, f, i) == Reverse(cs[|cs| - 1 - i].chunk) {
      assert fl[i] == FlipCall(cs[|cs| - 1 - i]);
      assert Slice(ps, f, i) == fl[i].chunk;
    }
  }

  lemma Reverse3(a: real, b: real, c: real)
    ensures Reverse([a, b, c]) == [c, b, a]
  {
    assert [a, b, c][..2] == [a, b];
    assert [a, b][..1] == [a];
    assert Reverse([a]) == [a];
    assert Reverse([a, b]) == [b] + Reverse([a]);
    assert Reverse([a, b, c]) == [c] + Reverse([a, b]);
  }

  /** The leaves of the imported structure in flattened order. */
  function ImportedLeaves(circuit: seq<Instr>, n: nat, v: Variant): seq<Gate>
    requires WellFormed(circuit, n)
  {
    Flatten(ImportedGates(circuit, n, v))
  }

  /**
   * What every imported U3 receives: the i-th leaf in flattened order that
   * was made for the u3 at circuit index k is a U3 on that u3's qubit with
   * all three angles free, and its slice of the vector handed to the engine
   * is [theta/2, phi, lambda] of that u3.
   */
  lemma ImportU3Slices(circuit: seq<Instr>, n: nat, v: Variant, i: nat)
    requires WellFormed(circuit, n)
    requires i < |AllCalls(Layers(circuit, n, v))|
    requires AllCalls(Layers(circuit, n, v))[|AllCalls(Layers(circuit, n, v))| - 1 - i].origin >= 0
    ensures i < |ImportedLeaves(circuit, n, v)| && SumParams(ImportedLeaves(circuit, n, v)) == |ImportedParameters(circuit, n, v)|
    ensures var cs := AllCalls(Layers(circuit, n, v));
            var k := cs[|cs| - 1 - i].origin;
            0 <= k < |circuit| && circuit[k].U3Op? &&
            ImportedLeaves(circuit, n, v)[i] == Leaf(U3(true, true, true), n, circuit[k].qubit, -1) &&
            Slice(ImportedParameters(circuit, n, v), ImportedLeaves(circuit, n, v), i) ==
              [circuit[k].theta / 2.0, circuit[k].phi, circuit[k].lambda]
  {
    var cs := AllCalls(Layers(circuit, n, v));
    var c := cs[|cs| - 1 - i];
    ImportLayout(circuit, n, v);
    ImportCallsFromCircuit(circuit, n, v);
    assert FromCircuit(circuit, c, n);
    var ins := circuit[c.origin];
    Reverse3(ins.lambda, ins.phi, ins.theta / 2.0);
  }

  // ---------------------------------------------------------------- the import itself

  lemma PushCall(done: seq<Call>, c: Call)
    ensures Reverse(GatesOf(done + [c])) == [c.gate] + Reverse(GatesOf(done))
    ensures Chunks(done + [c]) == Chunks(done) + c.chunk
  {
    GatesOfAppend(done, [c]);
    ReverseAppend(GatesOf(done), [c.gate]);
    assert Reverse([c.gate]) == [c.gate];
    ChunksAppend(done, [c]);
    assert Chunks([c]) == Chunks([]) + c.chunk;
  }

  /** add_U3(q, True, True, True) on a layer for a waiting u3: the gate goes in front, its angles at the end of the list. */
  method AddDrain(layer: GatesBlock, p: Pending, q: int, chunk: seq<real>, ghost done: seq<Call>) returns (chunk': seq<real>)
    requires layer.Valid() && layer.gates == Reverse(GatesOf(done)) && chunk == Chunks(done)
    modifies layer
    ensures layer.Valid() && layer.qbitNum == old(layer.qbitNum) && layer.layerNum == old(layer.layerNum)
    ensures layer.gates == Reverse(GatesOf(done + [Drain(p, q, layer.qbitNum)]))
    ensures chunk' == Chunks(done + [Drain(p, q, layer.qbitNum)])
  {
    layer.AddGate(Leaf(U3(true, true, true), layer.qbitNum, q, -1));
    chunk' := chunk + [p.lambda, p.phi, p.theta / 2.0];
    PushCall(done, Drain(p, q, layer.qbitNum));
  }

  /** The oldest waiting u3 of qubit q, if any, leaves its queue for the layer. */
  method PopU3(layer: GatesBlock, queues: seq<seq<Pending>>, q: nat, chunk: seq<real>, ghost done: seq<Call>)
    returns (queues': seq<seq<Pending>>, chunk': seq<real>)
    requires q < |queues| && layer.Valid() && layer.gates == Reverse(GatesOf(done)) && chunk == Chunks(done)
    modifies layer
    ensures layer.Valid() && layer.qbitNum == old(layer.qbitNum) && layer.layerNum == old(layer.layerNum)
    ensures queues' == Take(queues, q, layer.qbitNum).1
    ensures layer.gates == Reverse(GatesOf(done + Take(queues, q, layer.qbitNum).0))
    ensures chunk' == Chunks(done + Take(queues, q, layer.qbitNum).0)
  {
    if queues[q] == [] {
      assert done + [] == done;
      queues', chunk' := queues, chunk;
    } else {
      chunk' := AddDrain(layer, queues[q][0], q, chunk, done);
      queues' := queues[q := queues[q][1..]];
    }
  }

  /** The custom class's two-qubit part: one CZ or CNOT, no parameter. */
  lemma CustomPartStep(done: seq<Call>, ins: Instr, n: int)
    requires Layered(ins, CustomImport)
    ensures Reverse(GatesOf(done + TwoQubitCalls(ins, CustomImport, n))) ==
              [Leaf(if ins.CZOp? then CZ else CNOT, n, ins.q1, ins.q0)] + Reverse(GatesOf(done))
    ensures Chunks(done + TwoQubitCalls(ins, CustomImport, n)) == Chunks(done)
  {
    var t := TwoQubitCalls(ins, CustomImport, n);
    PushCall(done, t[0]);
  }

  /** One add_* call of a leaf gate on a layer: the gate goes in front. */
  method AddLeaf(layer: GatesBlock, g: Gate, ghost c: Call, ghost done: seq<Call>)
    requires c.gate == g && g.Leaf? && g.qbitNum == layer.qbitNum
    requires layer.Valid() && layer.gates == Reverse(GatesOf(done))
    modifies layer
    ensures layer.Valid() && layer.qbitNum == old(layer.qbitNum) && layer.layerNum == old(layer.layerNum)
    ensures layer.gates == Reverse(GatesOf(done + [c]))
  {
    layer.AddGate(g);
    PushCall(done, c);
  }

  /** The parameters of the adaptive two-qubit part, in call order. */
  lemma AdaptiveConstants(ins: Instr, n: int)
    requires ins.CZOp?
    ensures Chunks(TwoQubitCalls(ins, AdaptiveImport, n)) == [Pi / 4.0, Pi / 2.0, -Pi / 2.0, -Pi / 4.0]
  {
    var t := TwoQubitCalls(ins, AdaptiveImport, n);
    assert t[..1][..0] == [] && t[..2][..1] == t[..1] && t[..3][..2] == t[..2] && t[..4][..3] == t[..3] && t[..4] == t;
    assert Chunks(t[..1]) == [Pi / 4.0];
    assert Chunks(t[..2]) == [Pi / 4.0, Pi / 2.0];
    assert Chunks(t[..3]) == [Pi / 4.0, Pi / 2.0, -Pi / 2.0];
    assert Chunks(t[..4]) == [Pi / 4.0, Pi / 2.0, -Pi / 2.0, -Pi / 4.0];
  }

  /** The adaptive class's two-qubit part of a layer: add_RX, add_adaptive, add_RZ, add_RX, then the four constants. */
  method AddAdaptivePart(layer: GatesBlock, ins: Instr, chunk: seq<real>, ghost done: seq<Call>) returns (chunk': seq<real>)
    requires ins.CZOp? && layer.Valid() && layer.gates == Reverse(GatesOf(done)) && chunk == Chunks(done)
    modifies layer
    ensures layer.Valid() && layer.qbitNum == old(layer.qbitNum) && layer.layerNum == old(layer.layerNum)
    ensures layer.gates == Reverse(GatesOf(done + TwoQubitCalls(ins, AdaptiveImport, layer.qbitNum)))
    ensures chunk' == Chunks(done + TwoQubitCalls(ins, AdaptiveImport, layer.qbitNum))
  {
    var n := layer.qbitNum;
    ghost var t := TwoQubitCalls(ins, AdaptiveImport, n);
    AddLeaf(layer, Leaf(RX, n, ins.q0, -1), t[0], done);
    AddLeaf(layer, Leaf(Adaptive, n, ins.q0, ins.q1), t[1], done + [t[0]]);
    AddLeaf(layer, Leaf(RZ, n, ins.q1, -1), t[2], done + [t[0]] + [t[1]]);
    AddLeaf(layer, Leaf(RX, n, ins.q0, -1), t[3], done + [t[0]] + [t[1]] + [t[2]]);
    assert done + [t[0]] + [t[1]] + [t[2]] + [t[3]] == done + t;
    chunk' := chunk + [Pi / 4.0, Pi / 2.0, -Pi / 2.0, -Pi / 4.0];
    AdaptiveConstants(ins, n);
    ChunksAppend(done, t);
  }

  /** The custom class's two-qubit part of a layer: add_CZ or add_CNOT with target q1 and control q0. */
  method AddCustomPart(layer: GatesBlock, ins: Instr, chunk: seq<real>, ghost done: seq<Call>) returns (chunk': seq<real>)
    requires Layered(ins, CustomImport) && layer.Valid() && layer.gates == Reverse(GatesOf(done)) && chunk == Chunks(done)
    modifies layer
    ensures layer.Valid() && layer.qbitNum == old(layer.qbitNum) && layer.layerNum == old(layer.layerNum)
    ensures layer.gates == Reverse(GatesOf(done + TwoQubitCalls(ins, CustomImport, layer.qbitNum)))
    ensures chunk' == Chunks(done + TwoQubitCalls(ins, CustomImport, layer.qbitNum))
  {
    var n := layer.qbitNum;
    CustomPartStep(done, ins, n);
    if ins.CZOp? {
      layer.AddGate(Leaf(CZ, n, ins.q1, ins.q0));
    } else {
      layer.AddGate(Leaf(CNOT, n, ins.q1, ins.q0));
    }
    chunk' := chunk;
  }

  lemma LayerCalls(qs: seq<seq<Pending>>, ins: Instr, v: Variant, n: nat)
    requires |qs| == n && Fits(ins, n) && Layered(ins, v)
    ensures var first := Take(qs, ins.q0, n);
            var second := Take(first.1, ins.q1, n);
            LayerOf(qs, ins, v, n) == ([] + first.0 + second.0 + TwoQubitCalls(ins, v, n), second.1)
  {
    var first := Take(qs, ins.q0, n);
    assert [] + first.0 == first.0;
  }

  /** A layer for a two-qubit instruction: the pops of q0 and q1, then the two-qubit part. */
  method OpenLayer(queues: seq<seq<Pending>>, ins: Instr, v: Variant, n: nat)
    returns (layer: GatesBlock, queues': seq<seq<Pending>>, chunk: seq<real>)
    requires |queues| == n && Fits(ins, n) && Layered(ins, v)
    ensures fresh(layer) && layer.Valid() && layer.qbitNum == n && layer.layerNum == 0
    ensures layer.gates == Reverse(GatesOf(LayerOf(queues, ins, v, n).0))
    ensures queues' == LayerOf(queues, ins, v, n).1
    ensures chunk == Chunks(LayerOf(queues, ins, v, n).0)
  {
    layer := new GatesBlock(n);
    var first: seq<seq<Pending>>;
    first, chunk := PopU3(layer, queues, ins.q0, [], []);
    ghost var a := Take(queues, ins.q0, n).0;
    ghost var b := Take(first, ins.q1, n).0;
    queues', chunk := PopU3(layer, first, ins.q1, chunk, [] + a);
    if v == AdaptiveImport {
      chunk := AddAdaptivePart(layer, ins, chunk, [] + a + b);
    } else {
      chunk := AddCustomPart(layer, ins, chunk, [] + a + b);
    }
    LayerCalls(queues, ins, v, n);
  }

  lemma DrainAllStep(ps: seq<Pending>, j: nat, q: int, n: int)
    requires j < |ps|
    ensures DrainAll(ps[..j + 1], q, n) == DrainAll(ps[..j], q, n) + [Drain(ps[j], q, n)]
  {
  }

  lemma FinalStep(qs: seq<seq<Pending>>, q: nat, n: int)
    requires q < |qs|
    ensures FinalCalls(qs[..q + 1], n) == FinalCalls(qs[..q], n) + DrainAll(qs[q], q, n)
  {
    assert qs[..q + 1][..q] == qs[..q];
  }

  /** The final layer: every waiting u3, qubit by qubit, each queue in order. */
  method CloseLayer(queues: seq<seq<Pending>>, n: nat) returns (layer: GatesBlock, chunk: seq<real>)
    requires |queues| == n
    ensures fresh(layer) && layer.Valid() && layer.qbitNum == n && layer.layerNum == 0
    ensures layer.gates == Reverse(GatesOf(FinalCalls(queues, n)))
    ensures chunk == Chunks(FinalCalls(queues, n))
  {
    layer := new GatesBlock(n);
    chunk := [];
    var q := 0;
    while q < n
      invariant 0 <= q <= n && layer.qbitNum == n && layer.layerNum == 0 && layer.Valid()
      invariant layer.gates == Reverse(GatesOf(FinalCalls(queues[..q], n)))
      invariant chunk == Chunks(FinalCalls(queues[..q], n))
    {
      ghost var before := FinalCalls(queues[..q], n);
      var ps := queues[q];
      var j := 0;
      assert ps[..0] == [];
      assert before + DrainAll(ps[..0], q, n) == before;
      while j < |ps|
        invariant 0 <= j <= |ps| && layer.qbitNum == n && layer.layerNum == 0 && layer.Valid()
        invariant layer.gates == Reverse(GatesOf(before + DrainAll(ps[..j], q, n)))
        invariant chunk == Chunks(before + DrainAll(ps[..j], q, n))
      {
        chunk := AddDrain(layer, ps[j], q, chunk, before + DrainAll(ps[..j], q, n));
        DrainAllStep(ps, j, q, n);
        assert before + DrainAll(ps[..j + 1], q, n) == before + DrainAll(ps[..j], q, n) + [Drain(ps[j], q, n)];
        j := j + 1;
      }
      assert ps[..j] == ps;
      FinalStep(queues, q, n);
      q := q + 1;
    }
    assert queues[..n] == queues;
  }

  /** What add_Gates_Block stores for a freshly built layer, and what the structure becomes. */
  lemma AddLayerStep(layers: seq<seq<Call>>, calls: seq<Call>, n: int)
    requires Proper(calls, n)
    ensures var b := Block(n, SumParams(Reverse(GatesOf(calls))), 0, Reverse(GatesOf(calls)));
            WithQbitNum(CloneGate(b), n) == LayerBlock(calls, n)
    ensures Structure(layers + [calls], n) == [LayerBlock(calls, n)] + Structure(layers, n)
    ensures Chunks(AllCalls(layers + [calls])) == Chunks(AllCalls(layers)) + Chunks(calls)
  {
    var b := LayerBlock(calls, n);
    LayerBlockFacts(calls, n);
    CloneOfCanonicalBlock(n, b.parameterNum, 0, b.gates);
    WithOwnQbitNum(b);
    assert (layers + [calls])[..|layers|] == layers;
    AllCallsSnoc(layers, calls);
    ChunksAppend(AllCalls(layers), calls);
  }

  /** One instruction of the import: a u3 waits in its qubit's queue, a layered gate adds a layer, anything else is skipped. */
  method ImportStep(structure: GatesBlock, circuit: seq<Instr>, k: nat, n: nat, v: Variant,
                    queues: seq<seq<Pending>>, collected: seq<real>, ghost layers: seq<seq<Call>>)
    returns (queues': seq<seq<Pending>>, collected': seq<real>, ghost layers': seq<seq<Call>>)
    requires k < |circuit| && Fits(circuit[k], n) && |queues| == n
    requires structure.Valid() && structure.qbitNum == n
    requires structure.gates == Structure(layers, n) && collected == Chunks(AllCalls(layers))
    modifies structure
    ensures structure.Valid() && structure.qbitNum == n
    ensures Step(Scan(queues, layers), circuit, k, n, v) == Scan(queues', layers')
    ensures structure.gates == Structure(layers', n) && collected' == Chunks(AllCalls(layers'))
  {
    var ins := circuit[k];
    queues', collected', layers' := queues, collected, layers;
    if ins.U3Op? {
      queues' := queues[ins.qubit := queues[ins.qubit] + [Pending(k, ins.theta, ins.phi, ins.lambda)]];
    } else if Layered(ins, v) {
      var layer, chunk;
      layer, queues', chunk := OpenLayer(queues, ins, v, n);
      ghost var calls := LayerOf(queues, ins, v, n).0;
      LayerProper(queues, ins, v, n);
      AddLayerStep(layers, calls, n);
      structure.AddGate(CloneGate(layer.AsGate()));
      collected' := collected + chunk;
      layers' := layers + [calls];
    }
  }

  /** The final layer goes in front of the structure; the collected list is flipped for the engine. */
  method FinishImport(structure: GatesBlock, queues: seq<seq<Pending>>, collected: seq<real>, ghost layers: seq<seq<Call>>)
    returns (parameters: seq<real>)
    requires structure.Valid() && |queues| == structure.qbitNum >= 0
    requires structure.gates == Structure(layers, structure.qbitNum) && collected == Chunks(AllCalls(layers))
    modifies structure
    ensures structure.Valid() && structure.qbitNum == old(structure.qbitNum)
    ensures structure.gates == Structure(layers + [FinalCalls(queues, structure.qbitNum)], structure.qbitNum)
    ensures parameters == Reverse(Chunks(AllCalls(layers + [FinalCalls(queues, structure.qbitNum)])))
  {
    var n := structure.qbitNum;
    var layer, chunk := CloseLayer(queues, n);
    FinalProper(queues, n);
    AddLayerStep(layers, FinalCalls(queues, n), n);
    structure.AddGate(CloneGate(layer.AsGate()));
    parameters := Reverse(collected + chunk);
  }

  /**
   * import_Qiskit_Circuit: the gate structure and the parameter vector it
   * builds are exactly the specified ones.
   */
  method ImportQiskitCircuit(circuit: seq<Instr>, n: nat, v: Variant) returns (structure: GatesBlock, parameters: seq<real>)
    requires WellFormed(circuit, n)
    ensures fresh(structure) && structure.Valid() && structure.qbitNum == n
    ensures structure.gates == ImportedGates(circuit, n, v)
    ensures parameters == ImportedParameters(circuit, n, v)
  {
    structure := new GatesBlock(n);
    var queues := Empty(n);
    var collected: seq<real> := [];
    ghost var layers: seq<seq<Call>> := [];
    var k := 0;
    while k < |circuit|
      invariant 0 <= k <= |circuit| && |queues| == n
      invariant ScanTo(circuit, n, v, k) == Scan(queues, layers)
      invariant fresh(structure) && structure.Valid() && structure.qbitNum == n
      invariant structure.gates == Structure(layers, n)
      invariant collected == Chunks(AllCalls(layers))
    {
      assert Fits(circuit[k], n);
      assert ScanTo(circuit, n, v, k + 1) == Step(Scan(queues, layers), circuit, k, n, v);
      queues, collected, layers := ImportStep(structure, circuit, k, n, v, queues, collected, layers);
      k := k + 1;
    }
    assert Layers(circuit, n, v) == layers + [FinalCalls(queues, n)];
    parameters := FinishImport(structure, queues, collected, layers);
  }
}
