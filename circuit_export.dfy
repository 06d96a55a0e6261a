/**
 * get_Quantum_Circuit and get_Cirq_Circuit of the adaptive decomposition
 * class: the gate records of get_Gates are walked from the last to the
 * first, each one becoming at most one operation of the foreign circuit.
 * A Sycamore gate stops the Qiskit export and a U3 gate stops the Cirq
 * export; both then return None. The foreign circuit is modelled as the
 * list of operations appended to it, each with its method name, its angles
 * and its qubit arguments.
 */
module CircuitExport {
  import opened Common
  import opened GateTree
  import opened Wrappers

  /** One append to the foreign circuit: the method called, its angles, its qubits. */
  datatype Op = Op(name: string, angles: seq<real>, qubits: seq<int>)

  /** What a record becomes: an operation, nothing (no branch taken), or the end of the export. */
  datatype Action = Emit(op: Op) | Skip | Abort

  /** The Qiskit exporter, or the Cirq exporter on a register of qbitNum line qubits. */
  datatype Target = Qiskit | Cirq(qbitNum: int)

  /** gate.get(key) for the entries the exporters read; a key get_Gates did not write reads as a default. */
  function TextOf(r: Record, key: string): string
  {
    if key in r && r[key].Text? then r[key].s else ""
  }

  function IntOf(r: Record, key: string): int
  {
    if key in r && r[key].Integer? then r[key].i else 0
  }

  function AngleOf(r: Record, key: string): real
  {
    if key in r && r[key].Angle? then r[key].r else 0.0
  }

  /** The elif chain of get_Quantum_Circuit; Y and Z are appended as x, as written. */
  function QiskitAction(r: Record): Action
  {
    var t, tq, cq := TextOf(r, "type"), IntOf(r, "target_qbit"), IntOf(r, "control_qbit");
    if t == "CNOT" then Emit(Op("cx", [], [cq, tq]))
    else if t == "CRY" then Emit(Op("cry", [AngleOf(r, "Theta")], [cq, tq]))
    else if t == "CZ" then Emit(Op("cz", [], [cq, tq]))
    else if t == "CH" then Emit(Op("ch", [], [cq, tq]))
    else if t == "SYC" then Abort
    else if t == "U3" then Emit(Op("u", [AngleOf(r, "Theta"), AngleOf(r, "Phi"), AngleOf(r, "Lambda")], [tq]))
    else if t == "RX" then Emit(Op("rx", [AngleOf(r, "Theta")], [tq]))
    else if t == "RY" then Emit(Op("ry", [AngleOf(r, "Theta")], [tq]))
    else if t == "RZ" then Emit(Op("rz", [AngleOf(r, "Phi")], [tq]))
    else if t == "X" || t == "Y" || t == "Z" then Emit(Op("x", [], [tq]))
    else if t == "SX" then Emit(Op("sx", [], [tq]))
    else Skip
  }

  /** The Qiskit chain with Y appended as y and Z as z, as the branch comments and the Cirq exporter intend. */
  function QiskitActionIntended(r: Record): Action
  {
    var t, tq := TextOf(r, "type"), IntOf(r, "target_qbit");
    if t == "Y" then Emit(Op("y", [], [tq]))
    else if t == "Z" then Emit(Op("z", [], [tq]))
    else QiskitAction(r)
  }

  /**
   * The if/elif chains of get_Cirq_Circuit. Qubit q is line qubit
   * qbitNum - 1 - q. CNOT has an if of its own, after which the chain that
   * starts with CRY takes no branch; CRY is only reported.
   */
  function CirqAction(r: Record, n: int): Action
  {
    var t, tq, cq := TextOf(r, "type"), n - 1 - IntOf(r, "target_qbit"), n - 1 - IntOf(r, "control_qbit");
    if t == "CNOT" then Emit(Op("CNOT", [], [cq, tq]))
    else if t == "CRY" then Skip
    else if t == "CZ" then Emit(Op("CZ", [], [cq, tq]))
    else if t == "CH" then Emit(Op("CH", [], [cq, tq]))
    else if t == "SYC" then Emit(Op("SYC", [], [cq, tq]))
    else if t == "U3" then Abort
    else if t == "RX" then Emit(Op("rx", [AngleOf(r, "Theta")], [tq]))
    else if t == "RY" then Emit(Op("ry", [AngleOf(r, "Theta")], [tq]))
    else if t == "RZ" then Emit(Op("rz", [AngleOf(r, "Phi")], [tq]))
    else if t == "X" then Emit(Op("x", [], [tq]))
    else if t == "Y" then Emit(Op("y", [], [tq]))
    else if t == "Z" then Emit(Op("z", [], [tq]))
    else if t == "SX" then Emit(Op("sx", [], [tq]))
    else Skip
  }

  function ActionOf(r: Record, t: Target): Action
  {
    if t.Qiskit? then QiskitAction(r) else CirqAction(r, t.qbitNum)
  }

  /** The action of each record, in record order. */
  function Actions(rs: seq<Record>, t: Target): (acts: seq<Action>)
    ensures |acts| == |rs| && forall i :: 0 <= i < |rs| ==> acts[i] == ActionOf(rs[i], t)
  {
    seq(|rs|, i requires 0 <= i < |rs| => ActionOf(rs[i], t))
  }

  /** The circuit built from a list of actions walked from the last: None once any aborts, otherwise the operations of the last action first. */
  function Run(acts: seq<Action>): Option<seq<Op>>
  {
    if acts == [] then Some([])
    else
      var rest := Run(acts[..|acts| - 1]);
      match acts[|acts| - 1]
      case Abort => None
      case Skip => rest
      case Emit(op) => if rest.None? then None else Some([op] + rest.value)
  }

  /** The circuit an exporter returns for a list of records. */
  function Export(rs: seq<Record>, t: Target): Option<seq<Op>>
  {
    Run(Actions(rs, t))
  }

  // ---------------------------------------------------------------- properties

  /** The run ends in None exactly when some action aborts. */
  lemma {:induction false} RunNoneIff(acts: seq<Action>)
    ensures Run(acts).None? <==> exists i :: 0 <= i < |acts| && acts[i].Abort?
  {
    if acts != [] {
      var front := acts[..|acts| - 1];
      RunNoneIff(front);
      if exists i :: 0 <= i < |front| && front[i].Abort? {
        var i :| 0 <= i < |front| && front[i].Abort?;
        assert acts[i] == front[i];
      }
      if !acts[|acts| - 1].Abort? && exists i :: 0 <= i < |acts| && acts[i].Abort? {
        var i :| 0 <= i < |acts| && acts[i].Abort?;
        assert i < |acts| - 1 && front[i] == acts[i];
      }
    }
  }

  /** Last to first: the operations of the later actions come before those of the earlier ones. */
  lemma {:induction false} RunAppend(a: seq<Action>, b: seq<Action>)
    ensures Run(a + b) ==
              if Run(a).None? || Run(b).None? then None
              else Some(Run(b).value + Run(a).value)
  {
    if b == [] {
      assert a + b == a;
      if Run(a).Some? {
        assert [] + Run(a).value == Run(a).value;
      }
    } else {
      var front := b[..|b| - 1];
      assert (a + b)[..|a + b| - 1] == a + front;
      assert (a + b)[|a + b| - 1] == b[|b| - 1];
      RunAppend(a, front);
      match b[|b| - 1]
      case Abort =>
      case Skip =>
      case Emit(op) =>
        if Run(a).Some? && Run(front).Some? {
          assert [op] + (Run(front).value + Run(a).value) == ([op] + Run(front).value) + Run(a).value;
        }
    }
  }

  lemma RunOne(x: Action)
    ensures Run([x]) == match x case Abort => None case Skip => Some([]) case Emit(op) => Some([op])
  {
    assert [x][..0] == [];
    if x.Emit? {
      assert [x.op] + [] == [x.op];
    }
  }

  /** The record type that stops an exporter. */
  function AbortName(t: Target): string
  {
    if t.Qiskit? then "SYC" else "U3"
  }

  lemma AbortsOnName(r: Record, t: Target)
    ensures ActionOf(r, t).Abort? <==> TextOf(r, "type") == AbortName(t)
  {
  }

  /** The export returns None exactly when some record stops it: a SYC for Qiskit, a U3 for Cirq. */
  lemma ExportNoneIff(rs: seq<Record>, t: Target)
    ensures Export(rs, t).None? <==> exists i :: 0 <= i < |rs| && TextOf(rs[i], "type") == AbortName(t)
  {
    var acts := Actions(rs, t);
    RunNoneIff(acts);
    forall i | 0 <= i < |rs|
      ensures acts[i].Abort? <==> TextOf(rs[i], "type") == AbortName(t)
    {
      AbortsOnName(rs[i], t);
    }
  }

  /** Exporting two lists of records one after the other puts the operations of the second first. */
  lemma ExportAppend(a: seq<Record>, b: seq<Record>, t: Target)
    ensures Export(a + b, t) ==
              if Export(a, t).None? || Export(b, t).None? then None
              else Some(Export(b, t).value + Export(a, t).value)
  {
    assert Actions(a + b, t) == Actions(a, t) + Actions(b, t);
    RunAppend(Actions(a, t), Actions(b, t));
  }

  /** What the Qiskit exporter makes of the record get_Gates writes for a leaf gate. */
  lemma QiskitOfGate(g: Gate, stored: seq<real>)
    requires g.Leaf? && AnglesRead(g.kind) <= |stored|
    ensures var a := QiskitAction(AdaptiveRecord(g, stored));
            (g.kind == CNOT ==> a == Emit(Op("cx", [], [g.control, g.target]))) &&
            (g.kind in {CRY, Adaptive} ==> a == Emit(Op("cry", [stored[0]], [g.control, g.target]))) &&
            (g.kind == CZ ==> a == Emit(Op("cz", [], [g.control, g.target]))) &&
            (g.kind == CH ==> a == Emit(Op("ch", [], [g.control, g.target]))) &&
            (g.kind == SYC ==> a == Abort) &&
            (g.kind.U3? ==> a == Emit(Op("u", [stored[0], stored[1], stored[2]], [g.target]))) &&
            (g.kind == RX ==> a == Emit(Op("rx", [stored[0]], [g.target]))) &&
            (g.kind == RY ==> a == Emit(Op("ry", [stored[0]], [g.target]))) &&
            (g.kind == RZ ==> a == Emit(Op("rz", [stored[0]], [g.target]))) &&
            (g.kind in {X, Y, Z} ==> a == Emit(Op("x", [], [g.target]))) &&
            (g.kind == SX ==> a == Emit(Op("sx", [], [g.target])))
  {
  }

  /** As written, the Qiskit export cannot tell X, Y and Z apart. */
  lemma QiskitYExportedAsX(q: int)
    ensures QiskitAction(AdaptiveRecord(Leaf(Y, 1, q, -1), [])) == QiskitAction(AdaptiveRecord(Leaf(X, 1, q, -1), []))
    ensures QiskitAction(AdaptiveRecord(Leaf(Z, 1, q, -1), [])) == Emit(Op("x", [], [q]))
  {
    QiskitOfGate(Leaf(Y, 1, q, -1), []);
    QiskitOfGate(Leaf(X, 1, q, -1), []);
    QiskitOfGate(Leaf(Z, 1, q, -1), []);
  }

  /** With the intended branches, the three Pauli gates are appended under three different names, and nothing else changes. */
  lemma QiskitIntendedPaulis(g: Gate, stored: seq<real>)
    requires g.Leaf? && AnglesRead(g.kind) <= |stored|
    ensures var a := QiskitActionIntended(AdaptiveRecord(g, stored));
            (g.kind == X ==> a == Emit(Op("x", [], [g.target]))) &&
            (g.kind == Y ==> a == Emit(Op("y", [], [g.target]))) &&
            (g.kind == Z ==> a == Emit(Op("z", [], [g.target]))) &&
            (g.kind !in {Y, Z} ==> a == QiskitAction(AdaptiveRecord(g, stored)))
  {
    QiskitOfGate(g, stored);
  }

  /** What the Cirq exporter makes of the record of a leaf gate: line qubits counted from the other end. */
  lemma CirqOfGate(g: Gate, stored: seq<real>, n: int)
    requires g.Leaf? && AnglesRead(g.kind) <= |stored|
    ensures var a := CirqAction(AdaptiveRecord(g, stored), n);
            (g.kind in {CNOT, CZ, CH, SYC} ==> a == Emit(Op(KindName(g.kind), [], [n - 1 - g.control, n - 1 - g.target]))) &&
            (g.kind in {CRY, Adaptive} ==> a == Skip) &&
            (g.kind.U3? ==> a == Abort) &&
            (g.kind == RX ==> a == Emit(Op("rx", [stored[0]], [n - 1 - g.target]))) &&
            (g.kind == RY ==> a == Emit(Op("ry", [stored[0]], [n - 1 - g.target]))) &&
            (g.kind == RZ ==> a == Emit(Op("rz", [stored[0]], [n - 1 - g.target]))) &&
            (g.kind == X ==> a == Emit(Op("x", [], [n - 1 - g.target]))) &&
            (g.kind == Y ==> a == Emit(Op("y", [], [n - 1 - g.target]))) &&
            (g.kind == Z ==> a == Emit(Op("z", [], [n - 1 - g.target]))) &&
            (g.kind == SX ==> a == Emit(Op("sx", [], [n - 1 - g.target])))
  {
  }

  // ---------------------------------------------------------------- the exporters

  /**
   * The loop both exporters share: idx runs from len(gates) - 1 down to 0,
   * each record appends its operation, and an aborting record returns None
   * at once.
   */
  method ExportCircuit(gates: seq<Record>, t: Target) returns (circuit: Option<seq<Op>>)
    ensures circuit == Export(gates, t)
  {
    var acts := Actions(gates, t);
    var ops: seq<Op> := [];
    var idx := |gates|;
    while idx > 0
      invariant 0 <= idx <= |gates|
      invariant Run(acts[idx..]) == Some(ops)
    {
      var action := acts[idx - 1];
      assert acts[idx - 1..] == [action] + acts[idx..];
      RunAppend([action], acts[idx..]);
      RunOne(action);
      if action.Abort? {
        RunNoneIff(acts);
        return None;
      }
      if action.Emit? {
        ops := ops + [action.op];
      } else {
        assert ops + [] == ops;
      }
      idx := idx - 1;
    }
    assert acts[0..] == acts;
    circuit := Some(ops);
  }

  /** get_Quantum_Circuit over the records of get_Gates. */
  method GetQuantumCircuit(gates: seq<Record>) returns (circuit: Option<seq<Op>>)
    ensures circuit.None? <==> exists i :: 0 <= i < |gates| && TextOf(gates[i], "type") == "SYC"
    ensures circuit == Export(gates, Qiskit)
  {
    circuit := ExportCircuit(gates, Qiskit);
    ExportNoneIff(gates, Qiskit);
  }

  /** get_Cirq_Circuit over the records of get_Gates, on qbit_num line qubits. */
  method GetCirqCircuit(gates: seq<Record>, qbitNum: int) returns (circuit: Option<seq<Op>>)
    ensures circuit.None? <==> exists i :: 0 <= i < |gates| && TextOf(gates[i], "type") == "U3"
    ensures circuit == Export(gates, Cirq(qbitNum))
  {
    circuit := ExportCircuit(gates, Cirq(qbitNum));
    ExportNoneIff(gates, Cirq(qbitNum));
  }
}
