/**
 * Gates_block: an ordered list of gates and nested blocks with a parameter
 * counter and a layer counter, updated in place by add, insert, release,
 * combine and extract. The parameter vector of a block is laid out gate by
 * gate: gate i owns the slice that starts at the sum of the parameter counts
 * of the gates before it.
 */
module GatesBlocks {
  import opened Common
  import opened Qubits
  import opened GateTree

  /** get_target_qbit / get_control_qbit; a nested block reports -1 for both. */
  function TargetOf(g: Gate): int
  {
    if g.Leaf? then g.target else -1
  }

  function ControlOf(g: Gate): int
  {
    if g.Leaf? then g.control else -1
  }

  /** Where gate i's parameters start: the parameter counts of the gates before it, summed. */
  function Offset(gs: seq<Gate>, i: nat): nat
    requires i <= |gs|
  {
    SumParams(gs[..i])
  }

  lemma OffsetStep(gs: seq<Gate>, i: nat)
    requires i < |gs|
    ensures Offset(gs, i + 1) == Offset(gs, i) + ParamCount(gs[i])
  {
    assert gs[..i + 1][..i] == gs[..i];
  }

  lemma OffsetBounded(gs: seq<Gate>, i: nat)
    requires i <= |gs|
    ensures Offset(gs, i) <= SumParams(gs)
  {
    assert gs == gs[..i] + gs[i..];
    SumParamsAppend(gs[..i], gs[i..]);
  }

  /** The parameters gate i receives. */
  function Slice(params: seq<real>, gs: seq<Gate>, i: nat): (s: seq<real>)
    requires i < |gs| && SumParams(gs) <= |params|
    ensures |s| == ParamCount(gs[i])
  {
    OffsetStep(gs, i);
    OffsetBounded(gs, i + 1);
    params[Offset(gs, i)..Offset(gs, i + 1)]
  }

  function Concat(ss: seq<seq<real>>): seq<real>
  {
    if ss == [] then [] else Concat(ss[..|ss| - 1]) + ss[|ss| - 1]
  }

  /** The slices of gates 0..n-1, in order, tile the parameter vector up to gate n's offset. */
  lemma {:induction false} SlicesTile(params: seq<real>, gs: seq<Gate>, n: nat)
    requires n <= |gs| && SumParams(gs) <= |params|
    ensures Offset(gs, n) <= |params|
    ensures Concat(seq(n, i requires 0 <= i < n => Slice(params, gs, i))) == params[..Offset(gs, n)]
  {
    var ss := seq(n, i requires 0 <= i < n => Slice(params, gs, i));
    OffsetBounded(gs, n);
    if n > 0 {
      SlicesTile(params, gs, n - 1);
      assert ss[..n - 1] == seq(n - 1, i requires 0 <= i < n - 1 => Slice(params, gs, i));
      OffsetStep(gs, n - 1);
      OffsetBounded(gs, n - 1);
      assert params[..Offset(gs, n)] == params[..Offset(gs, n - 1)] + params[Offset(gs, n - 1)..Offset(gs, n)];
    } else {
      assert gs[..0] == [];
    }
  }

  /** add_unique_elelement: appends q unless it is already present. */
  function AddUnique(s: seq<int>, q: int): seq<int>
  {
    if q in s then s else s + [q]
  }

  /** The qubit list after one gate: its target, then its control, each unless it is -1. */
  function NoteQubits(acc: seq<int>, g: Gate): seq<int>
  {
    var a := if TargetOf(g) != -1 then AddUnique(acc, TargetOf(g)) else acc;
    if ControlOf(g) != -1 then AddUnique(a, ControlOf(g)) else a
  }

  /** get_involved_qubits over a gate list. */
  function InvolvedQubits(gs: seq<Gate>): seq<int>
  {
    if gs == [] then [] else NoteQubits(InvolvedQubits(gs[..|gs| - 1]), gs[|gs| - 1])
  }

  predicate NoDuplicates(s: seq<int>)
  {
    forall i, j :: 0 <= i < j < |s| ==> s[i] != s[j]
  }

  predicate Mentions(gs: seq<Gate>, q: int)
  {
    exists i :: 0 <= i < |gs| && (TargetOf(gs[i]) == q || ControlOf(gs[i]) == q)
  }

  /**
   * The involved qubits are distinct, and q is among them exactly when it
   * is not -1 and some top-level gate has it as target or control.
   */
  lemma {:induction false} InvolvedQubitsSpec(gs: seq<Gate>)
    ensures NoDuplicates(InvolvedQubits(gs))
    ensures forall q :: q in InvolvedQubits(gs) <==> q != -1 && Mentions(gs, q)
  {
    if gs != [] {
      var init, g := gs[..|gs| - 1], gs[|gs| - 1];
      InvolvedQubitsSpec(init);
      forall q ensures Mentions(gs, q) <==> Mentions(init, q) || TargetOf(g) == q || ControlOf(g) == q {
        if Mentions(gs, q) {
          var i :| 0 <= i < |gs| && (TargetOf(gs[i]) == q || ControlOf(gs[i]) == q);
          if i < |init| {
            assert init[i] == gs[i];
          }
        }
        if Mentions(init, q) {
          var i :| 0 <= i < |init| && (TargetOf(init[i]) == q || ControlOf(init[i]) == q);
          assert gs[i] == init[i];
        }
      }
    }
  }

  /**
   * Qubits keep the place they got when first seen: the list for a prefix of
   * the gates is a prefix of the list for all of them.
   */
  lemma {:induction false} InvolvedQubitsGrow(gs: seq<Gate>, n: nat)
    requires n <= |gs|
    ensures InvolvedQubits(gs[..n]) <= InvolvedQubits(gs)
  {
    if n < |gs| {
      InvolvedQubitsGrow(gs[..|gs| - 1], n);
      assert gs[..|gs| - 1][..n] == gs[..n];
    } else {
      assert gs[..n] == gs;
    }
  }

  /** The gate the iterator at position pos dereferences; past the end it is whatever lies there. */
  function ReadAt(gs: seq<Gate>, pos: nat, pastEnd: Gate): Gate
  {
    if pos < |gs| then gs[pos] else pastEnd
  }

  /**
   * The gates the loop of add_gates as written puts in front of the block
   * after m turns: it starts at end() and steps back, so turn j reads
   * position |gs| - j, and each gate read goes first.
   */
  function AddGatesAsWrittenTurns(gs: seq<Gate>, pastEnd: Gate, m: nat): seq<Gate>
    requires m <= |gs|
  {
    if m == 0 then [] else [ReadAt(gs, |gs| - (m - 1), pastEnd)] + AddGatesAsWrittenTurns(gs, pastEnd, m - 1)
  }

  /** The loop stops before begin(), after |gs| turns. */
  function AddGatesAsWritten(gs: seq<Gate>, pastEnd: Gate): seq<Gate>
  {
    AddGatesAsWrittenTurns(gs, pastEnd, |gs|)
  }

  /** After m > 0 turns the front holds the last m - 1 gates in order, then the gate read past the end. */
  lemma {:induction false} AddGatesAsWrittenTurnsAre(gs: seq<Gate>, pastEnd: Gate, m: nat)
    requires 0 < m <= |gs|
    ensures AddGatesAsWrittenTurns(gs, pastEnd, m) == gs[|gs| - m + 1..] + [pastEnd]
  {
    if m > 1 {
      AddGatesAsWrittenTurnsAre(gs, pastEnd, m - 1);
      assert gs[|gs| - m + 1..] == [gs[|gs| - m + 1]] + gs[|gs| - m + 2..];
    }
  }

  /**
   * For a non-empty list the written loop leaves gates 1 .. n-1 in front,
   * in order, followed by the gate read past the end: element 0 is never
   * added, and the intended front (the list itself) is not reached unless
   * every gate equals what lies past the end.
   */
  lemma AddGatesAsWrittenMissesFirst(gs: seq<Gate>, pastEnd: Gate)
    requires |gs| > 0
    ensures AddGatesAsWritten(gs, pastEnd) == gs[1..] + [pastEnd]
    ensures gs[0] !in gs[1..] && gs[0] != pastEnd ==> gs[0] !in AddGatesAsWritten(gs, pastEnd)
    ensures AddGatesAsWritten(gs, pastEnd) == gs ==> forall i :: 0 <= i < |gs| ==> gs[i] == pastEnd
  {
    AddGatesAsWrittenTurnsAre(gs, pastEnd, |gs|);
    var r := AddGatesAsWritten(gs, pastEnd);
    if r == gs {
      forall i | 0 <= i < |gs| ensures gs[i] == pastEnd {
        AllEqualLast(gs, pastEnd, |gs| - 1 - i);
      }
    }
  }

  /** If gs == gs[1..] + [e], then every gate from position |gs| - 1 - j on is e. */
  lemma {:induction false} AllEqualLast(gs: seq<Gate>, e: Gate, j: nat)
    requires |gs| > 0 && gs == gs[1..] + [e] && j < |gs|
    ensures gs[|gs| - 1 - j] == e
  {
    if j > 0 {
      AllEqualLast(gs, e, j - 1);
      assert gs[|gs| - 1 - j] == (gs[1..] + [e])[|gs| - 1 - j];
    }
  }

  /**
   * get_gate's guard as written: it refuses only idx > size, so idx == size
   * and every negative idx reach gates[idx], outside the list.
   */
  function GetGateAsWritten(gs: seq<Gate>, idx: int): (r: Option<int>)
    ensures r.Some? <==> idx <= |gs|
    ensures r.Some? ==> r.value == idx
  {
    if idx > |gs| then None else Some(idx)
  }

  /** idx == size and idx == -1 pass the written guard, and the intended guard refuses both. */
  lemma GetGateAsWrittenPassesEnd(gs: seq<Gate>)
    ensures GetGateAsWritten(gs, |gs|) == Some(|gs|) && GetGate(gs, |gs|) == None
    ensures GetGateAsWritten(gs, -1) == Some(-1) && GetGate(gs, -1) == None
  {
  }

  /** get_gate with the intended guard: every index it accepts is a gate of the list. */
  function GetGate(gs: seq<Gate>, idx: int): (r: Option<Gate>)
    ensures r.Some? <==> 0 <= idx < |gs|
    ensures r.Some? ==> r.value == gs[idx]
  {
    if idx >= |gs| || idx < 0 then None else Some(gs[idx])
  }

  /** One more gate appended: the lists and counters of the first i + 1 gates. */
  lemma SnocStep(gs: seq<Gate>, i: nat, q: int, head: seq<Gate>)
    requires i < |gs|
    ensures head + AllWithQbitNum(gs[..i + 1], q) == (head + AllWithQbitNum(gs[..i], q)) + [WithQbitNum(gs[i], q)]
    ensures SumParams(gs[..i + 1]) == SumParams(gs[..i]) + ParamCount(gs[i])
    ensures BlockCount(gs[..i + 1]) == BlockCount(gs[..i]) + (if gs[i].Block? then 1 else 0)
  {
    assert gs[..i + 1] == gs[..i] + [gs[i]];
    assert AllWithQbitNum(gs[..i + 1], q) == AllWithQbitNum(gs[..i], q) + [WithQbitNum(gs[i], q)];
    SumParamsAppend(gs[..i], [gs[i]]);
    BlockCountAppend(gs[..i], [gs[i]]);
  }

  /** One more gate put in front: the lists and counters of the gates from i on. */
  lemma ConsStep(gs: seq<Gate>, i: nat, q: int, tail: seq<Gate>)
    requires i < |gs|
    ensures AllWithQbitNum(gs[i..], q) + tail == [WithQbitNum(gs[i], q)] + (AllWithQbitNum(gs[i + 1..], q) + tail)
    ensures SumParams(gs[i..]) == ParamCount(gs[i]) + SumParams(gs[i + 1..])
    ensures BlockCount(gs[i..]) == (if gs[i].Block? then 1 else 0) + BlockCount(gs[i + 1..])
  {
    assert gs[i..] == [gs[i]] + gs[i + 1..];
    assert AllWithQbitNum(gs[i..], q) == [WithQbitNum(gs[i], q)] + AllWithQbitNum(gs[i + 1..], q);
    SumParamsAppend([gs[i]], gs[i + 1..]);
    BlockCountAppend([gs[i]], gs[i + 1..]);
    assert [gs[i]][..0] == [];
  }

  /** One more clone appended: the cloned list and its counters for the first i + 1 gates. */
  lemma CloneStep(gs: seq<Gate>, i: nat, q: int)
    requires i < |gs|
    ensures CloneInto(gs[..i + 1], q) == CloneInto(gs[..i], q) + [WithQbitNum(CloneGate(gs[i]), q)]
    ensures SumParams(CloneInto(gs[..i + 1], q)) == SumParams(CloneInto(gs[..i], q)) + ParamCount(CloneGate(gs[i]))
    ensures BlockCount(CloneInto(gs[..i + 1], q)) == BlockCount(CloneInto(gs[..i], q)) + (if gs[i].Block? then 1 else 0)
  {
    var before := CloneInto(gs[..i], q);
    var c := WithQbitNum(CloneGate(gs[i]), q);
    assert CloneInto(gs[..i + 1], q) == before + [c];
    SumParamsAppend(before, [c]);
    BlockCountAppend(before, [c]);
  }

  class GatesBlock {
    var qbitNum: int
    var gates: seq<Gate>
    var parameterNum: nat
    var layerNum: nat

    /**
     * The counter invariant: the parameter counter is the sum of the
     * children's counts; the layer counter is at least the number of nested
     * blocks (release_gate does not lower it).
     */
    predicate Valid()
      reads this
    {
      parameterNum == SumParams(gates) && layerNum >= BlockCount(gates)
    }

    /** The block as a nested gate value. */
    function AsGate(): Gate
      reads this
    {
      Block(qbitNum, parameterNum, layerNum, gates)
    }

    constructor(qbitNum: int)
      ensures Valid() && this.qbitNum == qbitNum && gates == [] && layerNum == 0
    {
      this.qbitNum := qbitNum;
      this.gates := [];
      this.parameterNum := 0;
      this.layerNum := 0;
    }

    /** add_gate_to_end: the gate takes the block's qubit count and goes last. */
    method AddGateToEnd(g: Gate)
      requires Valid()
      modifies this
      ensures Valid() && qbitNum == old(qbitNum)
      ensures gates == old(gates) + [WithQbitNum(g, qbitNum)]
      ensures parameterNum == old(parameterNum) + ParamCount(g)
      ensures layerNum == old(layerNum) + (if g.Block? then 1 else 0)
    {
      var h := WithQbitNum(g, qbitNum);
      SumParamsAppend(gates, [h]);
      BlockCountAppend(gates, [h]);
      gates := gates + [h];
      parameterNum := parameterNum + ParamCount(h);
      if h.Block? {
        layerNum := layerNum + 1;
      }
    }

    /** add_gate: the gate takes the block's qubit count and goes first. */
    method AddGate(g: Gate)
      requires Valid()
      modifies this
      ensures Valid() && qbitNum == old(qbitNum)
      ensures gates == [WithQbitNum(g, qbitNum)] + old(gates)
      ensures parameterNum == old(parameterNum) + ParamCount(g)
      ensures layerNum == old(layerNum) + (if g.Block? then 1 else 0)
    {
      var h := WithQbitNum(g, qbitNum);
      SumParamsAppend([h], gates);
      BlockCountAppend([h], gates);
      assert [h][..0] == [];
      gates := [h] + gates;
      parameterNum := parameterNum + ParamCount(h);
      if h.Block? {
        layerNum := layerNum + 1;
      }
    }

    /** insert_gate: the gate goes to position idx; the others keep their order. */
    method InsertGate(g: Gate, idx: nat)
      requires Valid() && idx <= |gates|
      modifies this
      ensures Valid() && qbitNum == old(qbitNum)
      ensures gates == old(gates)[..idx] + [WithQbitNum(g, qbitNum)] + old(gates)[idx..]
      ensures parameterNum == old(parameterNum) + ParamCount(g)
      ensures layerNum == old(layerNum) + (if g.Block? then 1 else 0)
    {
      var h := WithQbitNum(g, qbitNum);
      var front, back := gates[..idx], gates[idx..];
      assert gates == front + back;
      SumParamsAppend(front, back);
      BlockCountAppend(front, back);
      SumParamsAppend(front, [h]);
      BlockCountAppend(front, [h]);
      SumParamsAppend(front + [h], back);
      BlockCountAppend(front + [h], back);
      gates := front + [h] + back;
      parameterNum := parameterNum + ParamCount(h);
      if h.Block? {
        layerNum := layerNum + 1;
      }
    }

    /** add_gates_to_end: each gate of the list appended in order. */
    method AddGatesToEnd(gs: seq<Gate>)
      requires Valid()
      modifies this
      ensures Valid() && qbitNum == old(qbitNum)
      ensures gates == old(gates) + AllWithQbitNum(gs, qbitNum)
      ensures parameterNum == old(parameterNum) + SumParams(gs)
      ensures layerNum == old(layerNum) + BlockCount(gs)
    {
      var i := 0;
      while i < |gs|
        invariant 0 <= i <= |gs| && Valid() && qbitNum == old(qbitNum)
        invariant gates == old(gates) + AllWithQbitNum(gs[..i], qbitNum)
        invariant parameterNum == old(parameterNum) + SumParams(gs[..i])
        invariant layerNum == old(layerNum) + BlockCount(gs[..i])
      {
        SnocStep(gs, i, qbitNum, old(gates));
        AddGateToEnd(gs[i]);
        i := i + 1;
      }
      assert gs[..i] == gs;
    }

    /**
     * add_gates with the intended loop: the list is added to the front from
     * its last element to its first, so it ends up in front in its own order.
     */
    method AddGates(gs: seq<Gate>)
      requires Valid()
      modifies this
      ensures Valid() && qbitNum == old(qbitNum)
      ensures gates == AllWithQbitNum(gs, qbitNum) + old(gates)
      ensures parameterNum == old(parameterNum) + SumParams(gs)
      ensures layerNum == old(layerNum) + BlockCount(gs)
    {
      var q, tail := qbitNum, gates;
      var i := |gs|;
      while i > 0
        invariant 0 <= i <= |gs| && Valid() && qbitNum == q
        invariant gates == AllWithQbitNum(gs[i..], q) + tail
        invariant parameterNum == old(parameterNum) + SumParams(gs[i..])
        invariant layerNum == old(layerNum) + BlockCount(gs[i..])
      {
        i := i - 1;
        ConsStep(gs, i, q, tail);
        AddGate(gs[i]);
      }
      assert gs[0..] == gs;
    }

    /** release_gate: an index past the end changes nothing; otherwise exactly that gate leaves. */
    method ReleaseGate(idx: nat)
      requires Valid()
      modifies this
      ensures Valid() && qbitNum == old(qbitNum) && layerNum == old(layerNum)
      ensures idx >= |old(gates)| ==> gates == old(gates) && parameterNum == old(parameterNum)
      ensures idx < |old(gates)| ==> gates == old(gates)[..idx] + old(gates)[idx + 1..] &&
                                     parameterNum == old(parameterNum) - ParamCount(old(gates)[idx])
    {
      if idx >= |gates| {
        return;
      }
      var front, g, back := gates[..idx], gates[idx], gates[idx + 1..];
      assert gates == front + [g] + back;
      SumParamsAppend(front + [g], back);
      SumParamsAppend(front, [g]);
      SumParamsAppend(front, back);
      BlockCountAppend(front + [g], back);
      BlockCountAppend(front, [g]);
      BlockCountAppend(front, back);
      parameterNum := parameterNum - ParamCount(g);
      gates := front + back;
    }

    /** release_gates: no gates, both counters zero. */
    method ReleaseGates()
      modifies this
      ensures Valid() && qbitNum == old(qbitNum)
      ensures gates == [] && parameterNum == 0 && layerNum == 0
    {
      gates := [];
      layerNum := 0;
      parameterNum := 0;
    }

    /** set_qbit_num: the block and every gate in it take the new qubit count. */
    method SetQbitNum(n: int)
      requires Valid()
      modifies this
      ensures Valid() && qbitNum == n && gates == AllWithQbitNum(old(gates), n)
      ensures parameterNum == old(parameterNum) && layerNum == old(layerNum)
    {
      AllWithQbitNumCounts(gates, n);
      qbitNum := n;
      gates := AllWithQbitNum(gates, n);
    }

    /** reorder_qubits: every gate at every depth is relabelled; counters do not change. */
    method ReorderQubits(list: seq<int>)
      requires Valid()
      modifies this
      ensures Valid() && gates == RelabelAll(old(gates), list)
      ensures qbitNum == old(qbitNum) && parameterNum == old(parameterNum) && layerNum == old(layerNum)
    {
      RelabelKeepsCounts(gates, list);
      gates := RelabelAll(gates, list);
    }

    /** get_involved_qubits. */
    method GetInvolvedQubits() returns (qs: seq<int>)
      ensures qs == InvolvedQubits(gates)
    {
      qs := [];
      var i := 0;
      while i < |gates|
        invariant 0 <= i <= |gates|
        invariant qs == InvolvedQubits(gates[..i])
      {
        assert gates[..i + 1][..i] == gates[..i];
        var q := TargetOf(gates[i]);
        if q != -1 {
          qs := AddUnique(qs, q);
        }
        q := ControlOf(gates[i]);
        if q != -1 {
          qs := AddUnique(qs, q);
        }
        i := i + 1;
      }
      assert gates[..i] == gates;
    }

    /**
     * combine: a clone of each of other's gates, in order, appended to the
     * end. other may be this block: its list is read once before the loop.
     */
    method Combine(other: GatesBlock)
      requires Valid()
      modifies this
      ensures Valid() && qbitNum == old(qbitNum)
      ensures gates == old(gates) + CloneInto(old(other.gates), qbitNum)
      ensures parameterNum == old(parameterNum) + SumParams(CloneInto(old(other.gates), qbitNum))
      ensures layerNum == old(layerNum) + BlockCount(CloneInto(old(other.gates), qbitNum))
    {
      var src := other.gates;
      var i := 0;
      while i < |src|
        invariant 0 <= i <= |src| && Valid() && qbitNum == old(qbitNum)
        invariant gates == old(gates) + CloneInto(src[..i], qbitNum)
        invariant parameterNum == old(parameterNum) + SumParams(CloneInto(src[..i], qbitNum))
        invariant layerNum == old(layerNum) + BlockCount(CloneInto(src[..i], qbitNum))
      {
        CloneStep(src, i, qbitNum);
        AddGateToEnd(CloneGate(src[i]));
        i := i + 1;
      }
      assert src[..i] == src;
    }

    /**
     * extract_gates: target is emptied and receives a clone of each gate, in
     * order, taking target's qubit count. Returns 0.
     */
    method ExtractGates(target: GatesBlock) returns (r: int)
      requires target != this && target.Valid()
      modifies target
      ensures r == 0 && target.Valid() && target.qbitNum == old(target.qbitNum)
      ensures target.gates == CloneInto(gates, target.qbitNum)
      ensures target.parameterNum == SumParams(target.gates)
      ensures target.layerNum == BlockCount(target.gates)
    {
      var src, q := gates, target.qbitNum;
      target.ReleaseGates();
      var i := 0;
      while i < |src|
        invariant 0 <= i <= |src| && target.Valid() && target.qbitNum == q
        invariant target.gates == CloneInto(src[..i], q)
        invariant target.layerNum == BlockCount(target.gates)
      {
        CloneStep(src, i, q);
        target.AddGateToEnd(CloneGate(src[i]));
        i := i + 1;
      }
      assert src[..i] == src;
      return 0;
    }

    /** clone: a new block on the same qubit count holding clones of the gates. */
    method Clone() returns (c: GatesBlock)
      requires Valid()
      ensures fresh(c) && c.Valid()
      ensures c.AsGate() == CloneGate(AsGate())
    {
      c := new GatesBlock(qbitNum);
      var r := ExtractGates(c);
    }

    /**
     * The walk of apply_to: from the end of the block's parameters back to
     * the front, gate by gate from the last one, each gate taking the slice
     * just below the running offset. The walk ends at offset 0.
     */
    method ApplyToWalk(params: seq<real>) returns (order: seq<nat>, slices: seq<seq<real>>, last: int)
      requires Valid() && |params| >= parameterNum
      ensures |order| == |gates| && |slices| == |gates|
      ensures forall k :: 0 <= k < |gates| ==> order[k] == |gates| - 1 - k
      ensures forall k :: 0 <= k < |gates| ==> slices[k] == Slice(params, gates, order[k])
      ensures last == 0
    {
      var p: int := parameterNum;
      order, slices := [], [];
      var idx := |gates| - 1;
      assert gates[..|gates|] == gates;
      while idx >= 0
        invariant -1 <= idx < |gates|
        invariant p == Offset(gates, idx + 1)
        invariant |order| == |gates| - 1 - idx && |slices| == |order|
        invariant forall k :: 0 <= k < |order| ==> order[k] == |gates| - 1 - k
        invariant forall k :: 0 <= k < |order| ==> slices[k] == Slice(params, gates, order[k])
      {
        OffsetStep(gates, idx);
        OffsetBounded(gates, idx + 1);
        p := p - ParamCount(gates[idx]);
        order := order + [idx];
        slices := slices + [params[p..p + ParamCount(gates[idx])]];
        idx := idx - 1;
      }
      assert gates[..0] == [];
      return order, slices, p;
    }

    /** The walk of apply_from_right: forward from offset 0, gate by gate from the first. */
    method ApplyFromRightWalk(params: seq<real>) returns (order: seq<nat>, slices: seq<seq<real>>)
      requires Valid() && |params| >= parameterNum
      ensures |order| == |gates| && |slices| == |gates|
      ensures forall k :: 0 <= k < |gates| ==> order[k] == k
      ensures forall k :: 0 <= k < |gates| ==> slices[k] == Slice(params, gates, order[k])
    {
      var p := 0;
      order, slices := [], [];
      var idx := 0;
      assert gates[..0] == [];
      while idx < |gates|
        invariant 0 <= idx <= |gates|
        invariant p == Offset(gates, idx)
        invariant |order| == idx && |slices| == idx
        invariant forall k :: 0 <= k < idx ==> order[k] == k
        invariant forall k :: 0 <= k < idx ==> slices[k] == Slice(params, gates, order[k])
      {
        OffsetStep(gates, idx);
        OffsetBounded(gates, idx + 1);
        order := order + [idx];
        slices := slices + [params[p..p + ParamCount(gates[idx])]];
        p := p + ParamCount(gates[idx]);
        idx := idx + 1;
      }
    }

    /** deriv_parameter_idx of apply_derivate_to: the counts of the gates before derivIdx, summed. */
    method DerivParameterIdx(derivIdx: nat) returns (d: nat)
      requires derivIdx < |gates|
      ensures d == Offset(gates, derivIdx)
    {
      d := 0;
      var idx := 0;
      assert gates[..0] == [];
      while idx < derivIdx
        invariant 0 <= idx <= derivIdx
        invariant d == Offset(gates, idx)
      {
        OffsetStep(gates, idx);
        d := d + ParamCount(gates[idx]);
        idx := idx + 1;
      }
    }
  }

  /** Cloning a block whose counters are exact gives the same block. */
  lemma CloneOfCanonicalBlock(q: int, p: nat, l: nat, gs: seq<Gate>)
    requires Canonical(Block(q, p, l, gs))
    ensures CloneGate(Block(q, p, l, gs)) == Block(q, p, l, gs)
  {
    CloneOfCanonical(Block(q, p, l, gs));
  }
}
