/**
 * export_gate_list_to_binary / import_gate_list_from_binary. The file is
 * modelled as a sequence of typed words: a gate-type tag, an int or a
 * double, one per fwrite of the source. The exporter walks the tree in
 * forward order, writing each leaf's parameters inline and each nested block
 * as a header followed by its own records. The importer is a loop over
 * records with a stack of open levels and a count of records still expected
 * at each level; it closes at most one level per record and gives up after
 * IterMax records.
 */
module Codec {
  import opened Common
  import opened GateTree

  /** iter_max of the import loop. */
  const IterMax: nat := 100000

  const Truncated: string := "reached end of the file"
  const Unimplemented: string := "import_gate_list_from_binary: unimplemented gate"
  const TargetTooLarge: string := "target qubit index is larger than the number of qubits"
  const EmptyLevelStack: string := "level stack emptied"
  const Corrupted: string := "Corrupted input file, reached end of the file before contructing the whole gate structure"
  const ParameterOverflow: string := "more parameters than the header declares"

  /** gate_type as written to the file; OtherOp stands for every kind the codec does not handle. */
  datatype GateType =
    | CnotOp | CzOp | ChOp | SycOp | U3Op | RxOp | RyOp | CryOp | RzOp
    | XOp | YOp | ZOp | SxOp | BlockOp | AdaptiveOp | OtherOp

  datatype Word = Tag(t: GateType) | Int(i: int) | Dbl(d: real)

  function TypeOf(kind: GateKind): GateType
  {
    match kind
    case CNOT => CnotOp
    case CZ => CzOp
    case CH => ChOp
    case SYC => SycOp
    case U3(_, _, _) => U3Op
    case RX => RxOp
    case RY => RyOp
    case RZ => RzOp
    case CRY => CryOp
    case X => XOp
    case Y => YOp
    case Z => ZOp
    case SX => SxOp
    case Adaptive => AdaptiveOp
  }

  /** The leaf kind of a tag, for every tag but U3, BLOCK and the unhandled ones. */
  function TagKind(t: GateType): Option<GateKind>
  {
    match t
    case CnotOp => Some(CNOT)
    case CzOp => Some(CZ)
    case ChOp => Some(CH)
    case SycOp => Some(SYC)
    case RxOp => Some(RX)
    case RyOp => Some(RY)
    case RzOp => Some(RZ)
    case CryOp => Some(CRY)
    case XOp => Some(X)
    case YOp => Some(Y)
    case ZOp => Some(Z)
    case SxOp => Some(SX)
    case AdaptiveOp => Some(Adaptive)
    case _ => None
  }

  /** The kinds whose record carries a control qubit. */
  predicate HasControl(kind: GateKind)
  {
    kind.CNOT? || kind.CZ? || kind.CH? || kind.SYC? || kind.CRY? || kind.Adaptive?
  }

  /** The kinds whose constructor throws when the target is not below the qubit count. */
  predicate ChecksTarget(kind: GateKind)
  {
    kind.X? || kind.Y? || kind.Z? || kind.SX? || kind.RZ?
  }

  lemma TagKindOfType(kind: GateKind)
    requires !kind.U3?
    ensures TagKind(TypeOf(kind)) == Some(kind)
  {
  }

  /** Parameters written one double each. */
  function Dbls(ps: seq<real>): (r: seq<Word>)
    ensures |r| == |ps|
  {
    if ps == [] then [] else [Dbl(ps[0])] + Dbls(ps[1..])
  }

  /** The record of a non-block gate: type, target, control if it has one, U3 flags, parameters. */
  function LeafWords(g: Gate, ps: seq<real>): seq<Word>
    requires g.Leaf?
  {
    [Tag(TypeOf(g.kind)), Int(g.target)] +
    (if HasControl(g.kind) then [Int(g.control)] else []) +
    (if g.kind.U3? then [Int(Ind(g.kind.theta)), Int(Ind(g.kind.phi)), Int(Ind(g.kind.lambda))] else []) +
    Dbls(ps)
  }

  /** The words of one gate; ps starts at the gate's own parameters. */
  function GateWords(g: Gate, ps: seq<real>): seq<Word>
    requires Canonical(g) && ParamCount(g) <= |ps|
    decreases g, 0
  {
    if g.Leaf? then LeafWords(g, ps[..ParamCount(g)])
    else
      assert CanonicalBlock(g.qbitNum, g.parameterNum, g.layerNum, g.gates);
      [Tag(BlockOp), Int(g.qbitNum), Int(g.parameterNum), Int(|g.gates|)] + ListWords(g.gates, ps)
  }

  /** The words of a gate list; each gate's parameters follow those of the gates before it. */
  function ListWords(gs: seq<Gate>, ps: seq<real>): seq<Word>
    requires AllCanonical(gs) && SumParams(gs) <= |ps|
    decreases gs, 1
  {
    if gs == [] then []
    else
      var init := gs[..|gs| - 1];
      assert forall i :: 0 <= i < |init| ==> init[i] == gs[i];
      ListWords(init, ps) + GateWords(gs[|gs| - 1], ps[SumParams(init)..])
  }

  /**
   * export_gate_list_to_binary for a block: qbit_num, parameter_num and the
   * gate count, then the records of its gates.
   */
  function Export(b: Gate, ps: seq<real>): (r: seq<Word>)
    requires b.Block? && Canonical(b) && b.parameterNum <= |ps|
  {
    assert CanonicalBlock(b.qbitNum, b.parameterNum, b.layerNum, b.gates);
    [Int(b.qbitNum), Int(b.parameterNum), Int(|b.gates|)] + ListWords(b.gates, ps)
  }

  /** The records the exporter writes for a gate list, counted. */
  function RecordCount(gs: seq<Gate>): nat
    decreases gs, 1
  {
    if gs == [] then 0 else RecordCount(gs[..|gs| - 1]) + RecordCountOne(gs[|gs| - 1])
  }

  function RecordCountOne(g: Gate): (n: nat)
    ensures n >= 1
    decreases g, 0
  {
    if g.Leaf? then 1 else 1 + RecordCount(g.gates)
  }

  // ---------------------------------------------------------------- reading

  datatype Record =
    | LeafRec(kind: GateKind, target: int, control: int, ps: seq<real>)
    | BlockRec(qbitNum: int, parameterNum: int, gatesNum: int)

  /** A record read and the position after it. */
  datatype Read = Read(rec: Record, next: nat)

  function IntAt(w: seq<Word>, i: nat): Option<int>
  {
    if i < |w| && w[i].Int? then Some(w[i].i) else None
  }

  /** n doubles from position i on, or None if a word there is missing or not a double. */
  function DblsAt(w: seq<Word>, i: nat, n: nat): (r: Option<seq<real>>)
    ensures r.Some? ==> |r.value| == n
    decreases n
  {
    if n == 0 then Some([])
    else if i < |w| && w[i].Dbl? then
      match DblsAt(w, i + 1, n - 1)
      case None => None
      case Some(rest) => Some([w[i].d] + rest)
    else None
  }

  function ReadParams(w: seq<Word>, i: nat, kind: GateKind, target: int, control: int, n: nat): Result<Read>
  {
    match DblsAt(w, i, n)
    case None => Err(Truncated)
    case Some(ps) => Ok(Read(LeafRec(kind, target, control, ps), i + n))
  }

  /** A record other than U3 and BLOCK, from just after its tag; no control read means -1. */
  function ReadLeaf(w: seq<Word>, i: nat, kind: GateKind): Result<Read>
  {
    match IntAt(w, i)
    case None => Err(Truncated)
    case Some(t) =>
      if HasControl(kind) then
        match IntAt(w, i + 1)
        case None => Err(Truncated)
        case Some(c) => ReadParams(w, i + 2, kind, t, c, LeafParams(kind))
      else ReadParams(w, i + 1, kind, t, -1, LeafParams(kind))
  }

  /** A U3 record: target, three flags, then as many doubles as the flags add up to. */
  function ReadU3(w: seq<Word>, i: nat): Result<Read>
  {
    match (IntAt(w, i), IntAt(w, i + 1), IntAt(w, i + 2), IntAt(w, i + 3))
    case (Some(t), Some(a), Some(b), Some(c)) =>
      if a + b + c < 0 then Err(Truncated)
      else ReadParams(w, i + 4, U3(a != 0, b != 0, c != 0), t, -1, a + b + c)
    case _ => Err(Truncated)
  }

  function ReadBlock(w: seq<Word>, i: nat): Result<Read>
  {
    match (IntAt(w, i), IntAt(w, i + 1), IntAt(w, i + 2))
    case (Some(q), Some(p), Some(n)) => Ok(Read(BlockRec(q, p, n), i + 3))
    case _ => Err(Truncated)
  }

  /** One record: its tag decides what follows. */
  function ReadRecord(w: seq<Word>, pos: nat): (r: Result<Read>)
    ensures r.Ok? ==> r.value.next > pos
  {
    if pos >= |w| || !w[pos].Tag? then Err(Truncated)
    else if w[pos].t == BlockOp then ReadBlock(w, pos + 1)
    else if w[pos].t == U3Op then ReadU3(w, pos + 1)
    else match TagKind(w[pos].t)
      case None => Err(Unimplemented)
      case Some(kind) => ReadLeaf(w, pos + 1, kind)
  }

  /** w holds x from position pos on, word by word. */
  predicate At(w: seq<Word>, pos: nat, x: seq<Word>)
    decreases |x|
  {
    if x == [] then pos <= |w| else pos < |w| && w[pos] == x[0] && At(w, pos + 1, x[1..])
  }

  lemma {:induction false} AtBound(w: seq<Word>, pos: nat, x: seq<Word>)
    requires At(w, pos, x)
    ensures pos + |x| <= |w|
    decreases |x|
  {
    if x != [] {
      AtBound(w, pos + 1, x[1..]);
    }
  }

  /** Words held one after the other are held each in its place. */
  lemma {:induction false} AtSplit(w: seq<Word>, pos: nat, x: seq<Word>, y: seq<Word>)
    requires At(w, pos, x + y)
    ensures At(w, pos, x) && At(w, pos + |x|, y)
    decreases |x|
  {
    if x == [] {
      assert x + y == y;
      AtBound(w, pos, y);
    } else {
      assert (x + y)[0] == x[0];
      assert (x + y)[1..] == x[1..] + y;
      AtSplit(w, pos + 1, x[1..], y);
    }
  }

  lemma {:induction false} AtIndex(w: seq<Word>, pos: nat, x: seq<Word>, k: nat)
    requires At(w, pos, x) && k < |x|
    ensures pos + k < |w| && w[pos + k] == x[k]
    decreases k
  {
    AtBound(w, pos, x);
    if k > 0 {
      AtIndex(w, pos + 1, x[1..], k - 1);
    }
  }

  /** Every suffix of w stands where it starts. */
  lemma {:induction false} AtSuffix(w: seq<Word>, pos: nat)
    requires pos <= |w|
    ensures At(w, pos, w[pos..])
    decreases |w| - pos
  {
    if pos < |w| {
      assert w[pos..][1..] == w[pos + 1..];
      AtSuffix(w, pos + 1);
    }
  }

  lemma {:induction false} DblsAtWords(w: seq<Word>, i: nat, ps: seq<real>)
    requires At(w, i, Dbls(ps))
    ensures DblsAt(w, i, |ps|) == Some(ps)
    decreases |ps|
  {
    if ps != [] {
      AtSplit(w, i, [Dbl(ps[0])], Dbls(ps[1..]));
      AtIndex(w, i, [Dbl(ps[0])], 0);
      DblsAtWords(w, i + 1, ps[1..]);
      assert [ps[0]] + ps[1..] == ps;
    }
  }

  /** Reading a leaf record gives back its kind, target, control and parameters. */
  lemma ReadLeafWords(w: seq<Word>, pos: nat, g: Gate, ps: seq<real>)
    requires g.Leaf? && |ps| == LeafParams(g.kind) && (HasControl(g.kind) || g.control == -1)
    requires At(w, pos, LeafWords(g, ps))
    ensures ReadRecord(w, pos) == Ok(Read(LeafRec(g.kind, g.target, g.control, ps), pos + |LeafWords(g, ps)|))
  {
    var k := g.kind;
    if k.U3? {
      ReadU3Words(w, pos, g, ps);
    } else if HasControl(k) {
      ReadControlledWords(w, pos, g, ps);
    } else {
      ReadPlainWords(w, pos, g, ps);
    }
  }

  lemma ReadU3Words(w: seq<Word>, pos: nat, g: Gate, ps: seq<real>)
    requires g.Leaf? && g.kind.U3? && |ps| == LeafParams(g.kind) && g.control == -1
    requires At(w, pos, LeafWords(g, ps))
    ensures ReadRecord(w, pos) == Ok(Read(LeafRec(g.kind, g.target, g.control, ps), pos + |LeafWords(g, ps)|))
  {
    var k := g.kind;
    var head := [Tag(U3Op), Int(g.target), Int(Ind(k.theta)), Int(Ind(k.phi)), Int(Ind(k.lambda))];
    assert LeafWords(g, ps) == head + Dbls(ps);
    AtSplit(w, pos, head, Dbls(ps));
    AtIndex(w, pos, head, 0);
    AtIndex(w, pos, head, 1);
    AtIndex(w, pos, head, 2);
    AtIndex(w, pos, head, 3);
    AtIndex(w, pos, head, 4);
    DblsAtWords(w, pos + 5, ps);
    assert U3(Ind(k.theta) != 0, Ind(k.phi) != 0, Ind(k.lambda) != 0) == k;
  }

  lemma ReadControlledWords(w: seq<Word>, pos: nat, g: Gate, ps: seq<real>)
    requires g.Leaf? && HasControl(g.kind) && |ps| == LeafParams(g.kind)
    requires At(w, pos, LeafWords(g, ps))
    ensures ReadRecord(w, pos) == Ok(Read(LeafRec(g.kind, g.target, g.control, ps), pos + |LeafWords(g, ps)|))
  {
    var head := [Tag(TypeOf(g.kind)), Int(g.target), Int(g.control)];
    assert LeafWords(g, ps) == head + Dbls(ps);
    AtSplit(w, pos, head, Dbls(ps));
    AtIndex(w, pos, head, 0);
    AtIndex(w, pos, head, 1);
    AtIndex(w, pos, head, 2);
    DblsAtWords(w, pos + 3, ps);
    TagKindOfType(g.kind);
  }

  lemma ReadPlainWords(w: seq<Word>, pos: nat, g: Gate, ps: seq<real>)
    requires g.Leaf? && !g.kind.U3? && !HasControl(g.kind) && |ps| == LeafParams(g.kind) && g.control == -1
    requires At(w, pos, LeafWords(g, ps))
    ensures ReadRecord(w, pos) == Ok(Read(LeafRec(g.kind, g.target, g.control, ps), pos + |LeafWords(g, ps)|))
  {
    var head := [Tag(TypeOf(g.kind)), Int(g.target)];
    assert LeafWords(g, ps) == head + Dbls(ps);
    AtSplit(w, pos, head, Dbls(ps));
    AtIndex(w, pos, head, 0);
    AtIndex(w, pos, head, 1);
    DblsAtWords(w, pos + 2, ps);
    TagKindOfType(g.kind);
  }

  lemma ReadBlockWords(w: seq<Word>, pos: nat, q: int, p: int, n: int)
    requires At(w, pos, [Tag(BlockOp), Int(q), Int(p), Int(n)])
    ensures ReadRecord(w, pos) == Ok(Read(BlockRec(q, p, n), pos + 4))
  {
    var x := [Tag(BlockOp), Int(q), Int(p), Int(n)];
    AtIndex(w, pos, x, 0);
    AtIndex(w, pos, x, 1);
    AtIndex(w, pos, x, 2);
    AtIndex(w, pos, x, 3);
  }

  // --------------------------------------------------------------- decoding

  /**
   * One open level of the importer: the block being filled (qbit_num,
   * parameter_num, layer_num, gates) and gate_block_level_gates_num for it.
   */
  datatype Frame = Frame(qbitNum: int, parameterNum: nat, layerNum: nat, gates: seq<Gate>, count: int)

  /** The open levels (gate_block_levels): the outermost one, or a nested one above its parent. */
  datatype Levels = Base(top: Frame) | Nested(parent: Levels, top: Frame)

  /** The importer's state: open levels, file position, parameters read, iterations. */
  datatype Machine = Machine(levels: Levels, pos: nat, acc: seq<real>, iter: nat)

  function Last<T>(s: seq<T>): T
    requires |s| >= 1
  {
    s[|s| - 1]
  }

  /** The levels with the innermost one replaced. */
  function SetTop(lv: Levels, f: Frame): Levels
  {
    match lv
    case Base(_) => Base(f)
    case Nested(p, _) => Nested(p, f)
  }

  /** gate_block_levels[0]: the level of the top block. */
  function Outermost(lv: Levels): Frame
  {
    match lv
    case Base(f) => f
    case Nested(p, _) => Outermost(p)
  }

  /** add_*_to_end of a leaf: the parameter counter grows by its count, one record fewer expected. */
  function AddLeaf(f: Frame, g: Gate): Frame
    requires g.Leaf?
  {
    Frame(f.qbitNum, f.parameterNum + LeafParams(g.kind), f.layerNum, f.gates + [g], f.count - 1)
  }

  /**
   * A nested level that is closed becomes the parent's last gate (the source
   * added it, empty, when it was opened; its parameter count was 0 then and
   * the parent's counter is not updated). The parent expects one record fewer.
   */
  function Attach(parent: Frame, child: Frame): Frame
  {
    Frame(parent.qbitNum, parent.parameterNum, parent.layerNum, parent.gates + [Block(child.qbitNum, child.parameterNum, child.layerNum, child.gates)], parent.count - 1)
  }

  /** After each record: if the innermost level expects nothing more, it is closed (one level only). */
  function CloseCheck(lv: Levels): Result<Levels>
  {
    if lv.top.count != 0 then Ok(lv)
    else
      match lv
      case Base(_) => Err(EmptyLevelStack)
      case Nested(p, child) => Ok(SetTop(p, Attach(p.top, child)))
  }

  /** The effect of one record on the open levels. */
  function Step(lv: Levels, rec: Record): Result<Levels>
  {
    var top := lv.top;
    match rec
    case BlockRec(_, _, n) =>
      // the new block takes the parent's qubit count (add_gate_to_end calls set_qbit_num)
      var host := Frame(top.qbitNum, top.parameterNum, top.layerNum + 1, top.gates, top.count);
      CloseCheck(Nested(SetTop(lv, host), Frame(top.qbitNum, 0, 0, [], n)))
    case LeafRec(kind, t, c, _) =>
      if ChecksTarget(kind) && t >= top.qbitNum then Err(TargetTooLarge)
      else CloseCheck(SetTop(lv, AddLeaf(top, Leaf(kind, top.qbitNum, t, c))))
  }

  function ParamsOf(rec: Record): seq<real>
  {
    if rec.LeafRec? then rec.ps else []
  }

  /** The effect of a record that was read: the levels change and its parameters are appended. */
  function Apply(m: Machine, rd: Read): (r: Result<Machine>)
    ensures r.Ok? ==> r.value.iter == m.iter + 1
  {
    match Step(m.levels, rd.rec)
    case Err(e) => Err(e)
    case Ok(lv) => Ok(Machine(lv, rd.next, m.acc + ParamsOf(rd.rec), m.iter + 1))
  }

  /** One turn of the import loop: read the record at the current position and apply it. */
  function Turn(w: seq<Word>, m: Machine): (r: Result<Machine>)
    ensures r.Ok? ==> r.value.iter == m.iter + 1
  {
    match ReadRecord(w, m.pos)
    case Err(e) => Err(e)
    case Ok(rd) => Apply(m, rd)
  }

  /** The import loop: runs while the outermost level expects records and fewer than IterMax were read. */
  function Run(w: seq<Word>, m: Machine): (r: Result<Machine>)
    requires m.iter <= IterMax
    ensures r.Ok? ==> r.value.iter <= IterMax
    ensures r.Ok? ==> Outermost(r.value.levels).count <= 0 || r.value.iter == IterMax
    decreases IterMax - m.iter, 1
  {
    if Outermost(m.levels).count <= 0 || m.iter >= IterMax then Ok(m)
    else Continue(w, m)
  }

  /** One more turn of the import loop, then the rest of the run. */
  function Continue(w: seq<Word>, m: Machine): (r: Result<Machine>)
    requires m.iter < IterMax
    ensures r.Ok? ==> r.value.iter <= IterMax
    ensures r.Ok? ==> Outermost(r.value.levels).count <= 0 || r.value.iter == IterMax
    decreases IterMax - m.iter, 0
  {
    match Turn(w, m)
    case Err(e) => Err(e)
    case Ok(next) => Run(w, next)
  }

  /** How the import loop started at m ends. */
  function Outcome(w: seq<Word>, m: Machine): Result<Machine>
    requires m.iter <= IterMax
  {
    Run(w, m)
  }

  /** The import loop ends the same way whether it goes on from a or from b. */
  predicate SameRun(w: seq<Word>, a: Machine, b: Machine)
    requires a.iter <= IterMax && b.iter <= IterMax
  {
    Outcome(w, a) == Outcome(w, b)
  }

  /** The import loop started at s ends with r. */
  predicate Ends(w: seq<Word>, s: Machine, r: Result<Machine>)
    requires s.iter <= IterMax
  {
    Outcome(w, s) == r
  }

  lemma SameRunTrans(w: seq<Word>, a: Machine, b: Machine, c: Machine)
    requires a.iter <= IterMax && b.iter <= IterMax && c.iter <= IterMax
    requires SameRun(w, a, b) && SameRun(w, b, c)
    ensures SameRun(w, a, c)
  {
  }

  /** What the importer returns: the top block and the parameter vector. */
  datatype Imported = Imported(block: Gate, params: seq<real>)

  function Zeros(n: nat): (r: seq<real>)
    ensures |r| == n
  {
    seq(n, _ => 0.0)
  }

  function Start(q: int, n: int): Machine
  {
    Machine(Base(Frame(q, 0, 0, [], n)), 3, [], 0)
  }

  function TopBlock(f: Frame): Gate
  {
    Block(f.qbitNum, f.parameterNum, f.layerNum, f.gates)
  }

  /** The header is three ints; a negative parameter count is refused. */
  predicate HeaderOk(w: seq<Word>)
  {
    IntAt(w, 0).Some? && IntAt(w, 1).Some? && IntAt(w, 2).Some? && IntAt(w, 1).value >= 0
  }

  /** The parameter vector: the header's length, entries the file did not fill left 0.0. */
  function Sized(acc: seq<real>, p: nat): (r: Result<seq<real>>)
    ensures r.Ok? <==> |acc| <= p
    ensures r.Ok? ==> |r.value| == p && r.value[..|acc|] == acc
  {
    if |acc| > p then Err(ParameterOverflow) else Ok(acc + Zeros(p - |acc|))
  }

  /**
   * import_gate_list_from_binary as written: the header, the loop, then an
   * error whenever the loop used up all IterMax iterations.
   */
  function ImportAsWritten(w: seq<Word>): (r: Result<Imported>)
    ensures r.Ok? ==> HeaderOk(w) && |r.value.params| == IntAt(w, 1).value
  {
    if !HeaderOk(w) then Err(Truncated)
    else
      var run := Run(w, Start(IntAt(w, 0).value, IntAt(w, 2).value));
      if run.Err? then Err(run.msg)
      else if run.value.iter == IterMax then Err(Corrupted)
      else
        var ps := Sized(run.value.acc, IntAt(w, 1).value);
        if ps.Err? then Err(ps.msg)
        else Ok(Imported(TopBlock(Outermost(run.value.levels)), ps.value))
  }

  /**
   * The importer as evidently intended: an error only when the outermost
   * level still expects records, and the counters of every block recomputed
   * from its children (as clone does).
   */
  function Import(w: seq<Word>): (r: Result<Imported>)
    ensures r.Ok? ==> HeaderOk(w) && |r.value.params| == IntAt(w, 1).value
    ensures r.Ok? ==> r.value.block.Block? && Canonical(r.value.block)
  {
    if !HeaderOk(w) then Err(Truncated)
    else
      var run := Run(w, Start(IntAt(w, 0).value, IntAt(w, 2).value));
      if run.Err? then Err(run.msg)
      else if Outermost(run.value.levels).count > 0 then Err(Corrupted)
      else
        var ps := Sized(run.value.acc, IntAt(w, 1).value);
        if ps.Err? then Err(ps.msg)
        else
          var b := TopBlock(Outermost(run.value.levels));
          CloneIsCanonical(b);
          Ok(Imported(CloneGate(b), ps.value))
  }

  // ------------------------------------------------------------ round trip

  /** What a gate adds to the parameter counter of the level it is imported into. */
  function DirectParam(g: Gate): nat
  {
    if g.Leaf? then LeafParams(g.kind) else 0
  }

  function DirectParams(gs: seq<Gate>): nat
  {
    if gs == [] then 0 else DirectParams(gs[..|gs| - 1]) + DirectParam(gs[|gs| - 1])
  }

  /**
   * A gate as the importer rebuilds it: every block's parameter counter
   * holds only the parameters of its leaf children, its layer counter the
   * number of its block children.
   */
  function Decoded(g: Gate): Gate
    decreases g, 0
  {
    if g.Leaf? then g else Block(g.qbitNum, DirectParams(g.gates), BlockCount(g.gates), DecodedAll(g.gates))
  }

  function DecodedAll(gs: seq<Gate>): (r: seq<Gate>)
    ensures |r| == |gs|
    decreases gs, 1
  {
    if gs == [] then [] else DecodedAll(gs[..|gs| - 1]) + [Decoded(gs[|gs| - 1])]
  }

  /** A leaf the importer reads back as itself: its constructor accepts the target, and no control means -1. */
  predicate LeafDecodable(g: Gate)
    requires g.Leaf?
  {
    (ChecksTarget(g.kind) ==> g.target < g.qbitNum) && (HasControl(g.kind) || g.control == -1)
  }

  /** The importer's one-level-per-record closing: a non-empty nested block must end with a leaf. */
  predicate NestedOk(g: Gate)
    decreases g, 0
  {
    if g.Leaf? then LeafDecodable(g)
    else (g.gates == [] || Last(g.gates).Leaf?) && AllNestedOk(g.gates)
  }

  predicate AllNestedOk(gs: seq<Gate>)
    decreases gs, 1
  {
    forall i :: 0 <= i < |gs| ==> NestedOk(gs[i])
  }

  /** A top block the importer rebuilds: counters exact, nested blocks closable, and a block last (or nothing). */
  predicate Exportable(b: Gate)
  {
    b.Block? && Canonical(b) && AllNestedOk(b.gates) && (b.gates == [] || Last(b.gates).Block?)
  }

  /**
   * What some records read into the innermost level change: its counters
   * grow by dp and dl, the gates added are appended, n fewer records are
   * expected; the position moves by words, the parameters own are appended,
   * recs more iterations were used.
   */
  datatype Delta = Delta(dp: nat, dl: nat, added: seq<Gate>, n: nat, words: nat, own: seq<real>, recs: nat)

  /** One change after the other. */
  function Plus(a: Delta, b: Delta): Delta
  {
    Delta(a.dp + b.dp, a.dl + b.dl, a.added + b.added, a.n + b.n, a.words + b.words, a.own + b.own, a.recs + b.recs)
  }

  /** The machine after the change d. */
  function Advance(m: Machine, d: Delta): Machine
  {
    var top := m.levels.top;
    Machine(SetTop(m.levels, Frame(top.qbitNum, top.parameterNum + d.dp, top.layerNum + d.dl, top.gates + d.added, top.count - d.n)),
            m.pos + d.words, m.acc + d.own, m.iter + d.recs)
  }

  lemma SetTopTwice(lv: Levels, f: Frame, h: Frame)
    ensures SetTop(SetTop(lv, f), h) == SetTop(lv, h)
  {
  }

  /** Two advances in a row are one. */
  lemma AdvanceTwice(m: Machine, a: Delta, b: Delta)
    ensures Advance(Advance(m, a), b) == Advance(m, Plus(a, b))
  {
    var top := m.levels.top;
    var f1 := Frame(top.qbitNum, top.parameterNum + a.dp, top.layerNum + a.dl, top.gates + a.added, top.count - a.n);
    var f2 := Frame(top.qbitNum, top.parameterNum + a.dp + b.dp, top.layerNum + a.dl + b.dl, top.gates + a.added + b.added, top.count - a.n - b.n);
    assert top.gates + (a.added + b.added) == top.gates + a.added + b.added;
    assert m.acc + (a.own + b.own) == m.acc + a.own + b.own;
    SetTopTwice(m.levels, f1, f2);
  }

  /** What reading the records of gate g changes. */
  function GateDelta(g: Gate, ps: seq<real>): Delta
    requires Canonical(g) && ParamCount(g) <= |ps|
  {
    Delta(DirectParam(g), Ind(g.Block?), [Decoded(g)], 1, |GateWords(g, ps)|, ps[..ParamCount(g)], RecordCountOne(g))
  }

  /** What reading the records of the list gs changes: the changes of its gates, one after the other. */
  function ListDelta(gs: seq<Gate>, ps: seq<real>): (d: Delta)
    requires AllCanonical(gs) && SumParams(gs) <= |ps|
    ensures d.n == |gs| && d.recs == RecordCount(gs)
    decreases |gs|
  {
    if gs == [] then Delta(0, 0, [], 0, 0, [], 0)
    else
      var init := gs[..|gs| - 1];
      assert forall i :: 0 <= i < |init| ==> init[i] == gs[i];
      Plus(ListDelta(init, ps), GateDelta(gs[|gs| - 1], ps[SumParams(init)..]))
  }

  /** The change of a list, counter by counter: the sums over its gates, its words and its parameters. */
  lemma {:induction false} ListDeltaIs(gs: seq<Gate>, ps: seq<real>)
    requires AllCanonical(gs) && SumParams(gs) <= |ps|
    ensures ListDelta(gs, ps) ==
            Delta(DirectParams(gs), BlockCount(gs), DecodedAll(gs), |gs|, |ListWords(gs, ps)|, ps[..SumParams(gs)], RecordCount(gs))
    decreases |gs|
  {
    if gs == [] {
      assert ps[..0] == [];
    } else {
      var init := gs[..|gs| - 1];
      ListWordsSnoc(gs, ps);
      ParamsSnoc(gs, ps);
      ListDeltaIs(init, ps);
    }
  }

  /** The machine after the records of gate g were read into its innermost level. */
  function AfterGate(m: Machine, g: Gate, ps: seq<real>): Machine
    requires Canonical(g) && ParamCount(g) <= |ps|
  {
    Advance(m, GateDelta(g, ps))
  }

  /** The machine after the records of the list gs were read into its innermost level. */
  function AfterList(m: Machine, gs: seq<Gate>, ps: seq<real>): Machine
    requires AllCanonical(gs) && SumParams(gs) <= |ps|
  {
    Advance(m, ListDelta(gs, ps))
  }

  /** One turn of the import loop that succeeds: Run continues from the machine it produced. */
  lemma RunStep(w: seq<Word>, m: Machine, rd: Read, next: Machine)
    requires m.iter < IterMax && Outermost(m.levels).count > 0
    requires ReadRecord(w, m.pos) == Ok(rd) && Apply(m, rd) == Ok(next)
    ensures next.iter <= IterMax
    ensures SameRun(w, m, next)
  {
    assert Turn(w, m) == Ok(next);
    assert Run(w, m) == Run(w, next);
  }

  /** The record of a leaf gate, read at its position. */
  lemma ReadGateLeaf(w: seq<Word>, pos: nat, g: Gate, ps: seq<real>)
    requires g.Leaf? && LeafDecodable(g) && ParamCount(g) <= |ps| && At(w, pos, GateWords(g, ps))
    ensures ReadRecord(w, pos) == Ok(Read(LeafRec(g.kind, g.target, g.control, ps[..ParamCount(g)]), pos + |GateWords(g, ps)|))
  {
    assert GateWords(g, ps) == LeafWords(g, ps[..ParamCount(g)]);
    ReadLeafWords(w, pos, g, ps[..ParamCount(g)]);
  }

  /** The header record of a nested block, read at its position. */
  lemma ReadGateBlock(w: seq<Word>, pos: nat, g: Gate, ps: seq<real>)
    requires g.Block? && Canonical(g) && ParamCount(g) <= |ps| && At(w, pos, GateWords(g, ps))
    ensures AllCanonical(g.gates) && SumParams(g.gates) <= |ps|
    ensures ReadRecord(w, pos) == Ok(Read(BlockRec(g.qbitNum, g.parameterNum, |g.gates|), pos + 4))
    ensures At(w, pos + 4, ListWords(g.gates, ps))
    ensures |GateWords(g, ps)| == 4 + |ListWords(g.gates, ps)|
  {
    assert CanonicalBlock(g.qbitNum, g.parameterNum, g.layerNum, g.gates);
    var head := [Tag(BlockOp), Int(g.qbitNum), Int(g.parameterNum), Int(|g.gates|)];
    assert GateWords(g, ps) == head + ListWords(g.gates, ps);
    AtSplit(w, pos, head, ListWords(g.gates, ps));
    ReadBlockWords(w, pos, g.qbitNum, g.parameterNum, |g.gates|);
  }

  /** The record read for leaf g with its parameters own, ending at next. */
  function LeafRead(g: Gate, own: seq<real>, next: nat): Read
    requires g.Leaf?
  {
    Read(LeafRec(g.kind, g.target, g.control, own), next)
  }

  /** A leaf record into a level that still expects at least one more record afterwards. */
  lemma LeafApply(m: Machine, g: Gate, ps: seq<real>)
    requires g.Leaf? && LeafDecodable(g) && g.qbitNum == m.levels.top.qbitNum && m.levels.top.count >= 2
    requires ParamCount(g) <= |ps|
    ensures Apply(m, LeafRead(g, ps[..ParamCount(g)], m.pos + |GateWords(g, ps)|)) == Ok(AfterGate(m, g, ps))
  {
    var top := m.levels.top;
    assert Leaf(g.kind, top.qbitNum, g.target, g.control) == g;
    LeafAfter(m, g, ps);
  }

  /** For a leaf, AfterGate is one AddLeaf on the innermost level. */
  lemma LeafAfter(m: Machine, g: Gate, ps: seq<real>)
    requires g.Leaf? && ParamCount(g) <= |ps|
    ensures AfterGate(m, g, ps) ==
            Machine(SetTop(m.levels, AddLeaf(m.levels.top, g)), m.pos + |GateWords(g, ps)|, m.acc + ps[..ParamCount(g)], m.iter + 1)
  {
    var top := m.levels.top;
    assert Decoded(g) == g;
    var f := Frame(top.qbitNum, top.parameterNum + DirectParam(g), top.layerNum + Ind(g.Block?), top.gates + [Decoded(g)], top.count - 1);
    assert AddLeaf(top, g) == f;
  }

  /** The machine after the last leaf of a nested level (parameters own, next record at next): the level is closed into its parent. */
  function AfterClose(m: Machine, g: Gate, own: seq<real>, next: nat): Machine
    requires m.levels.Nested? && g.Leaf?
  {
    var p := m.levels.parent;
    Machine(SetTop(p, Attach(p.top, AddLeaf(m.levels.top, g))), next, m.acc + own, m.iter + 1)
  }

  /** The last leaf record of a nested level closes it into its parent. */
  lemma LeafCloseApply(m: Machine, g: Gate, own: seq<real>, next: nat)
    requires m.levels.Nested?
    requires g.Leaf? && LeafDecodable(g) && g.qbitNum == m.levels.top.qbitNum && m.levels.top.count == 1
    ensures Apply(m, LeafRead(g, own, next)) == Ok(AfterClose(m, g, own, next))
  {
    var top := m.levels.top;
    assert Leaf(g.kind, top.qbitNum, g.target, g.control) == g;
  }

  /** The header of an empty nested block opens a level that closes at once. */
  lemma BlockEmptyApply(m: Machine, g: Gate, ps: seq<real>)
    requires g.Block? && Canonical(g) && g.gates == [] && g.qbitNum == m.levels.top.qbitNum
    requires ParamCount(g) <= |ps|
    ensures RecordCountOne(g) == 1
    ensures Apply(m, Read(BlockRec(g.qbitNum, g.parameterNum, 0), m.pos + 4)) == Ok(AfterGate(m, g, ps))
  {
    EmptyBlockAfter(m, g, ps);
  }

  /** For an empty block, AfterGate attaches the empty block and counts one layer more. */
  lemma EmptyBlockAfter(m: Machine, g: Gate, ps: seq<real>)
    requires g.Block? && Canonical(g) && g.gates == [] && g.qbitNum == m.levels.top.qbitNum
    requires ParamCount(g) <= |ps|
    ensures RecordCountOne(g) == 1
    ensures var top := m.levels.top;
            var host := Frame(top.qbitNum, top.parameterNum, top.layerNum + 1, top.gates, top.count);
            AfterGate(m, g, ps) ==
            Machine(SetTop(SetTop(m.levels, host), Attach(host, Frame(top.qbitNum, 0, 0, [], 0))), m.pos + 4, m.acc + ParamsOf(BlockRec(g.qbitNum, g.parameterNum, 0)), m.iter + 1)
  {
    var top := m.levels.top;
    var host := Frame(top.qbitNum, top.parameterNum, top.layerNum + 1, top.gates, top.count);
    assert CanonicalBlock(g.qbitNum, g.parameterNum, g.layerNum, g.gates);
    assert RecordCountOne(g) == 1;
    assert |GateWords(g, ps)| == 4;
    assert Decoded(g) == Block(top.qbitNum, 0, 0, []);
    assert ps[..0] == [];
    assert m.acc + [] == m.acc;
    var f := Attach(host, Frame(top.qbitNum, 0, 0, [], 0));
    assert f == Frame(top.qbitNum, top.parameterNum + DirectParam(g), top.layerNum + Ind(g.Block?), top.gates + [Decoded(g)], top.count - 1);
    SetTopTwice(m.levels, host, f);
  }

  /** The machine after the header of a non-empty nested block: a new innermost level. */
  function AfterOpen(m: Machine, g: Gate): Machine
    requires g.Block?
  {
    var top := m.levels.top;
    var host := Frame(top.qbitNum, top.parameterNum, top.layerNum + 1, top.gates, top.count);
    Machine(Nested(SetTop(m.levels, host), Frame(top.qbitNum, 0, 0, [], |g.gates|)), m.pos + 4, m.acc, m.iter + 1)
  }

  /** The header of a non-empty nested block opens a new innermost level. */
  lemma BlockOpenApply(m: Machine, g: Gate)
    requires g.Block? && g.gates != []
    ensures Apply(m, Read(BlockRec(g.qbitNum, g.parameterNum, |g.gates|), m.pos + 4)) == Ok(AfterOpen(m, g))
  {
    assert m.acc + [] == m.acc;
  }

  // ------------------------------------------------------- runs over lists

  /** Reading no records changes nothing. */
  lemma AfterNothing(m: Machine, ps: seq<real>)
    ensures AfterList(m, [], ps) == m
  {
    var top := m.levels.top;
    assert Frame(top.qbitNum, top.parameterNum, top.layerNum, top.gates + [], top.count) == top;
    assert ps[..0] == [];
    assert m.acc + [] == m.acc;
  }

  /** The words of a list: those of all gates but the last, then the last one's. */
  lemma ListWordsSnoc(gs: seq<Gate>, ps: seq<real>)
    requires gs != [] && AllCanonical(gs) && SumParams(gs) <= |ps|
    ensures var init := gs[..|gs| - 1];
            AllCanonical(init) && SumParams(init) <= |ps| && Canonical(gs[|gs| - 1]) &&
            ParamCount(gs[|gs| - 1]) <= |ps[SumParams(init)..]| &&
            ListWords(gs, ps) == ListWords(init, ps) + GateWords(gs[|gs| - 1], ps[SumParams(init)..])
  {
    var init := gs[..|gs| - 1];
    assert forall i :: 0 <= i < |init| ==> init[i] == gs[i];
  }

  /** The parameters of a list: those of all gates but the last, then the last one's. */
  lemma ParamsSnoc(gs: seq<Gate>, ps: seq<real>)
    requires gs != [] && SumParams(gs) <= |ps|
    ensures var init := gs[..|gs| - 1];
            ps[..SumParams(gs)] == ps[..SumParams(init)] + ps[SumParams(init)..][..ParamCount(gs[|gs| - 1])]
  {
  }

  /** Reading a list is reading all its gates but the last, then the last one. */
  lemma ListCompose(m: Machine, gs: seq<Gate>, ps: seq<real>)
    requires gs != [] && AllCanonical(gs) && SumParams(gs) <= |ps|
    ensures var init := gs[..|gs| - 1];
            AllCanonical(init) && SumParams(init) <= |ps| && Canonical(gs[|gs| - 1]) &&
            ParamCount(gs[|gs| - 1]) <= |ps[SumParams(init)..]| &&
            AfterGate(AfterList(m, init, ps), gs[|gs| - 1], ps[SumParams(init)..]) == AfterList(m, gs, ps)
  {
    var init := gs[..|gs| - 1];
    ListDeltaSnoc(gs, ps);
    AdvanceTwice(m, ListDelta(init, ps), GateDelta(gs[|gs| - 1], ps[SumParams(init)..]));
  }

  /** The change of a list of gates: that of all gates but the last, then that of the last. */
  lemma ListDeltaSnoc(gs: seq<Gate>, ps: seq<real>)
    requires gs != [] && AllCanonical(gs) && SumParams(gs) <= |ps|
    ensures var init := gs[..|gs| - 1];
            AllCanonical(init) && SumParams(init) <= |ps| && Canonical(gs[|gs| - 1]) &&
            ParamCount(gs[|gs| - 1]) <= |ps[SumParams(init)..]|
    ensures var init := gs[..|gs| - 1];
            ListDelta(gs, ps) == Plus(ListDelta(init, ps), GateDelta(gs[|gs| - 1], ps[SumParams(init)..]))
  {
    ListWordsSnoc(gs, ps);
  }

  // ------------------------------------------------------ a nested block

  /**
   * What a nested block changes in its host level, given the change d of all
   * its gates but the last, and the last leaf with its parameters own and its
   * lastWords words: one block more, with the last leaf appended.
   */
  function CloseDelta(q: int, d: Delta, last: Gate, own: seq<real>, lastWords: nat): Delta
    requires last.Leaf?
  {
    Delta(0, 1, [Block(q, d.dp + LeafParams(last.kind), d.dl, d.added + [last])], 1, 4 + d.words + lastWords, d.own + own, d.recs + 2)
  }

  lemma CloseDeltaIs(q: int, d: Delta, last: Gate, own: seq<real>, lastWords: nat)
    requires last.Leaf?
    ensures CloseDelta(q, d, last, own, lastWords) ==
            Delta(0, 1, [Block(q, d.dp + LeafParams(last.kind), d.dl, d.added + [last])], 1, 4 + d.words + lastWords, d.own + own, d.recs + 2)
  {
  }

  /** The last leaf of a nested level that was opened and then advanced closes it into its parent. */
  lemma CloseAdvanced(m: Machine, g: Gate, last: Gate, d: Delta, own: seq<real>, lastWords: nat)
    requires g.Block? && d.n + 1 == |g.gates| && last.Leaf?
    ensures var m2 := Advance(AfterOpen(m, g), d);
            m2.levels.Nested? &&
            AfterClose(m2, last, own, m2.pos + lastWords) == Advance(m, CloseDelta(m.levels.top.qbitNum, d, last, own, lastWords))
  {
    var top := m.levels.top;
    var host := Frame(top.qbitNum, top.parameterNum, top.layerNum + 1, top.gates, top.count);
    assert [] + d.added == d.added;
    var closedTop := Frame(top.qbitNum, top.parameterNum, top.layerNum + 1,
                           top.gates + [Block(top.qbitNum, d.dp + LeafParams(last.kind), d.dl, d.added + [last])], top.count - 1);
    SetTopTwice(m.levels, host, closedTop);
    assert m.acc + d.own + own == m.acc + (d.own + own);
  }

  /** CloseAdvanced for a machine m2 equal to the advanced one, and a change e equal to the closing one. */
  lemma CloseAdvancedEq(m: Machine, g: Gate, last: Gate, m2: Machine, d: Delta, own: seq<real>, lastWords: nat, e: Delta)
    requires g.Block? && d.n + 1 == |g.gates| && last.Leaf?
    requires m2 == Advance(AfterOpen(m, g), d) && e == CloseDelta(m.levels.top.qbitNum, d, last, own, lastWords)
    ensures m2.levels.Nested? && AfterClose(m2, last, own, m2.pos + lastWords) == Advance(m, e)
  {
    CloseAdvanced(m, g, last, d, own, lastWords);
  }

  /** What the records of a nested block ending with a leaf add up to. */
  lemma BlockFacts(g: Gate, ps: seq<real>)
    requires g.Block? && g.gates != [] && Canonical(g) && ParamCount(g) <= |ps| && Last(g.gates).Leaf?
    ensures var cs := g.gates;
            var init := cs[..|cs| - 1];
            var last := cs[|cs| - 1];
            AllCanonical(init) && SumParams(init) <= |ps| && Canonical(last) && ParamCount(last) <= |ps| - SumParams(init)
    ensures var cs := g.gates;
            var init := cs[..|cs| - 1];
            var last := cs[|cs| - 1];
            var rest := ps[SumParams(init)..];
            GateDelta(g, ps) ==
            Delta(0, 1, [Block(g.qbitNum, DirectParams(init) + LeafParams(last.kind), BlockCount(init), DecodedAll(init) + [last])], 1,
                  4 + |ListWords(init, ps)| + |GateWords(last, rest)|, ps[..SumParams(init)] + rest[..ParamCount(last)], RecordCount(init) + 2)
  {
    var cs := g.gates;
    var last := cs[|cs| - 1];
    assert CanonicalBlock(g.qbitNum, g.parameterNum, g.layerNum, cs);
    var init := cs[..|cs| - 1];
    assert Decoded(last) == last;
    assert [Decoded(g)] == [Block(g.qbitNum, DirectParams(init) + LeafParams(last.kind), BlockCount(init), DecodedAll(init) + [last])];
    ListWordsSnoc(cs, ps);
    assert GateWords(g, ps) == [Tag(BlockOp), Int(g.qbitNum), Int(g.parameterNum), Int(|cs|)] + ListWords(cs, ps);
    assert |GateWords(g, ps)| == 4 + |ListWords(init, ps)| + |GateWords(last, ps[SumParams(init)..])|;
    ParamsSnoc(cs, ps);
    assert RecordCount(cs) == RecordCount(init) + RecordCountOne(last);
    assert RecordCountOne(g) == RecordCount(init) + 2;
  }

  /** The change of a nested block ending with a leaf, in terms of the change of its other gates. */
  lemma BlockDelta(g: Gate, ps: seq<real>)
    requires g.Block? && g.gates != [] && Canonical(g) && ParamCount(g) <= |ps| && Last(g.gates).Leaf?
    ensures var cs := g.gates;
            var init := cs[..|cs| - 1];
            var last := cs[|cs| - 1];
            AllCanonical(init) && SumParams(init) <= |ps| && Canonical(last) && ParamCount(last) <= |ps| - SumParams(init)
    ensures var cs := g.gates;
            var init := cs[..|cs| - 1];
            var last := cs[|cs| - 1];
            var rest := ps[SumParams(init)..];
            GateDelta(g, ps) == CloseDelta(g.qbitNum, ListDelta(init, ps), last, rest[..ParamCount(last)], |GateWords(last, rest)|)
  {
    BlockFacts(g, ps);
    var cs := g.gates;
    var init := cs[..|cs| - 1];
    var last := cs[|cs| - 1];
    var rest := ps[SumParams(init)..];
    ListDeltaIs(init, ps);
    var d := Delta(DirectParams(init), BlockCount(init), DecodedAll(init), |init|, |ListWords(init, ps)|, ps[..SumParams(init)], RecordCount(init));
    CloseDeltaIs(g.qbitNum, d, last, rest[..ParamCount(last)], |GateWords(last, rest)|);
  }

  /** The last leaf closing a nested block leaves the machine AfterGate describes for the whole block. */
  lemma BlockCloseMatches(m: Machine, g: Gate, ps: seq<real>)
    requires g.Block? && g.gates != [] && Canonical(g) && g.qbitNum == m.levels.top.qbitNum && ParamCount(g) <= |ps|
    requires Last(g.gates).Leaf?
    ensures var cs := g.gates;
            var init := cs[..|cs| - 1];
            var last := cs[|cs| - 1];
            AllCanonical(init) && SumParams(init) <= |ps| && Canonical(last) && ParamCount(last) <= |ps| - SumParams(init)
    ensures var cs := g.gates;
            var init := cs[..|cs| - 1];
            var last := cs[|cs| - 1];
            var rest := ps[SumParams(init)..];
            var m2 := AfterList(AfterOpen(m, g), init, ps);
            m2.levels.Nested? &&
            AfterClose(m2, last, rest[..ParamCount(last)], m2.pos + |GateWords(last, rest)|) == AfterGate(m, g, ps)
  {
    BlockDelta(g, ps);
    var cs := g.gates;
    var init := cs[..|cs| - 1];
    var last := cs[|cs| - 1];
    var rest := ps[SumParams(init)..];
    CloseAdvancedEq(m, g, last, AfterList(AfterOpen(m, g), init, ps), ListDelta(init, ps),
                    rest[..ParamCount(last)], |GateWords(last, rest)|, GateDelta(g, ps));
  }

  // ------------------------------------------------------------ the runs

  /** Reading the records of gate g: Run goes on from AfterGate. */
  lemma {:induction false} GateRun(w: seq<Word>, m: Machine, g: Gate, ps: seq<real>)
    requires Outermost(m.levels).count > 0
    requires Canonical(g) && NestedOk(g) && g.qbitNum == m.levels.top.qbitNum && ParamCount(g) <= |ps|
    requires At(w, m.pos, GateWords(g, ps))
    requires g.Leaf? ==> m.levels.top.count >= 2
    requires g.Block? ==> m.levels.top.count >= 2 || (m.levels.top.count == 1 && m.levels.Base?)
    requires m.iter + RecordCountOne(g) <= IterMax
    ensures AfterGate(m, g, ps).iter <= IterMax && SameRun(w, m, AfterGate(m, g, ps))
    decreases RecordCountOne(g), 2
  {
    if g.Leaf? {
      ReadGateLeaf(w, m.pos, g, ps);
      LeafApply(m, g, ps);
      RunStep(w, m, LeafRead(g, ps[..ParamCount(g)], m.pos + |GateWords(g, ps)|), AfterGate(m, g, ps));
    } else if g.gates == [] {
      ReadGateBlock(w, m.pos, g, ps);
      BlockEmptyApply(m, g, ps);
      RunStep(w, m, Read(BlockRec(g.qbitNum, g.parameterNum, 0), m.pos + 4), AfterGate(m, g, ps));
    } else {
      BlockRun(w, m, g, ps);
    }
  }

  /** Reading the records of a non-empty nested block: its header and inner gates, then the closing leaf. */
  lemma {:induction false} BlockRun(w: seq<Word>, m: Machine, g: Gate, ps: seq<real>)
    requires Outermost(m.levels).count > 0
    requires g.Block? && g.gates != [] && Canonical(g) && NestedOk(g) && g.qbitNum == m.levels.top.qbitNum && ParamCount(g) <= |ps|
    requires At(w, m.pos, GateWords(g, ps))
    requires m.levels.top.count >= 2 || (m.levels.top.count == 1 && m.levels.Base?)
    requires m.iter + RecordCountOne(g) <= IterMax
    ensures AfterGate(m, g, ps).iter <= IterMax && SameRun(w, m, AfterGate(m, g, ps))
    decreases RecordCountOne(g), 1
  {
    BlockParts(g, ps);
    BlockOpenRun(w, m, g, ps);
    BlockCloseRun(w, m, g, ps);
    SameRunTrans(w, m, AfterList(AfterOpen(m, g), g.gates[..|g.gates| - 1], ps), AfterGate(m, g, ps));
  }

  /** What a non-empty nested block's gates split into: the gates before the last, and the closing leaf. */
  lemma BlockParts(g: Gate, ps: seq<real>)
    requires g.Block? && g.gates != [] && Canonical(g) && NestedOk(g) && ParamCount(g) <= |ps|
    ensures var cs := g.gates;
            var init := cs[..|cs| - 1];
            var last := cs[|cs| - 1];
            AllCanonical(init) && SumParams(init) <= |ps| && Canonical(last) && ParamCount(last) <= |ps| - SumParams(init) &&
            AllNestedOk(init) && AllOnQubits(init, g.qbitNum) && last.Leaf? && LeafDecodable(last) && last.qbitNum == g.qbitNum &&
            RecordCountOne(g) == RecordCount(init) + 2
  {
    var cs := g.gates;
    var init := cs[..|cs| - 1];
    var last := cs[|cs| - 1];
    assert CanonicalBlock(g.qbitNum, g.parameterNum, g.layerNum, cs);
    assert Last(cs) == last && AllNestedOk(cs);
    assert NestedOk(cs[|cs| - 1]);
    assert AllCanonical(cs);
    assert forall i :: 0 <= i < |init| ==> init[i] == cs[i];
    assert forall i :: 0 <= i < |init| ==> Canonical(cs[i]) && Canonical(init[i]);
    assert RecordCount(cs) == RecordCount(init) + RecordCountOne(last);
  }

  /** Where the words of a non-empty nested block's gates lie, after its four header words. */
  lemma BlockWordsAt(w: seq<Word>, pos: nat, g: Gate, ps: seq<real>)
    requires g.Block? && g.gates != [] && Canonical(g) && ParamCount(g) <= |ps| && At(w, pos, GateWords(g, ps))
    requires var init := g.gates[..|g.gates| - 1];
             AllCanonical(init) && SumParams(init) <= |ps| &&
             Canonical(g.gates[|g.gates| - 1]) && ParamCount(g.gates[|g.gates| - 1]) <= |ps| - SumParams(init)
    ensures var init := g.gates[..|g.gates| - 1];
            At(w, pos + 4, ListWords(init, ps)) &&
            At(w, pos + 4 + |ListWords(init, ps)|, GateWords(g.gates[|g.gates| - 1], ps[SumParams(init)..]))
  {
    var cs := g.gates;
    var init := cs[..|cs| - 1];
    var head := [Tag(BlockOp), Int(g.qbitNum), Int(g.parameterNum), Int(|cs|)];
    assert CanonicalBlock(g.qbitNum, g.parameterNum, g.layerNum, cs);
    assert GateWords(g, ps) == head + ListWords(cs, ps);
    ListWordsSnoc(cs, ps);
    AtSplit(w, pos, head, ListWords(cs, ps));
    AtSplit(w, pos + 4, ListWords(init, ps), GateWords(cs[|cs| - 1], ps[SumParams(init)..]));
  }

  /** The outermost level after the innermost one is replaced. */
  lemma OutermostSetTop(lv: Levels, f: Frame)
    ensures Outermost(SetTop(lv, f)) == if lv.Base? then f else Outermost(lv)
  {
  }

  /** What reading the list gs changes in the machine's counters, position and levels. */
  lemma AfterListFacts(m: Machine, gs: seq<Gate>, ps: seq<real>)
    requires AllCanonical(gs) && SumParams(gs) <= |ps|
    ensures var m' := AfterList(m, gs, ps);
            m'.levels.top.count == m.levels.top.count - |gs| && m'.levels.top.qbitNum == m.levels.top.qbitNum &&
            m'.levels.Base? == m.levels.Base? &&
            Outermost(m'.levels).count == (if m.levels.Base? then m.levels.top.count - |gs| else Outermost(m.levels).count) &&
            m'.iter == m.iter + RecordCount(gs) && m'.pos == m.pos + |ListWords(gs, ps)|
  {
    var top := m.levels.top;
    ListDeltaIs(gs, ps);
    OutermostSetTop(m.levels, Frame(top.qbitNum, top.parameterNum + DirectParams(gs), top.layerNum + BlockCount(gs), top.gates + DecodedAll(gs), top.count - |gs|));
  }

  /** The machine after a nested block's header and all its gates but the last. */
  lemma OpenedList(m: Machine, g: Gate, ps: seq<real>)
    requires g.Block? && g.gates != []
    requires AllCanonical(g.gates[..|g.gates| - 1]) && SumParams(g.gates[..|g.gates| - 1]) <= |ps|
    ensures var init := g.gates[..|g.gates| - 1];
            var m2 := AfterList(AfterOpen(m, g), init, ps);
            m2.levels.Nested? && m2.levels.top.count == 1 && m2.levels.top.qbitNum == m.levels.top.qbitNum &&
            Outermost(m2.levels).count == Outermost(m.levels).count &&
            m2.iter == m.iter + 1 + RecordCount(init) && m2.pos == m.pos + 4 + |ListWords(init, ps)|
  {
    var top := m.levels.top;
    var host := Frame(top.qbitNum, top.parameterNum, top.layerNum + 1, top.gates, top.count);
    OutermostSetTop(m.levels, host);
    AfterListFacts(AfterOpen(m, g), g.gates[..|g.gates| - 1], ps);
  }

  /** The header of a non-empty nested block and all its gates but the last. */
  lemma {:induction false} BlockOpenRun(w: seq<Word>, m: Machine, g: Gate, ps: seq<real>)
    requires Outermost(m.levels).count > 0
    requires g.Block? && g.gates != [] && Canonical(g) && NestedOk(g) && g.qbitNum == m.levels.top.qbitNum && ParamCount(g) <= |ps|
    requires At(w, m.pos, GateWords(g, ps))
    requires m.iter + RecordCountOne(g) <= IterMax
    requires var init := g.gates[..|g.gates| - 1];
             AllCanonical(init) && SumParams(init) <= |ps| && RecordCountOne(g) == RecordCount(init) + 2
    ensures var init := g.gates[..|g.gates| - 1];
            var m2 := AfterList(AfterOpen(m, g), init, ps);
            m2.iter <= IterMax && SameRun(w, m, m2)
    decreases RecordCountOne(g), 0
  {
    var cs := g.gates;
    var init := cs[..|cs| - 1];
    BlockParts(g, ps);
    BlockWordsAt(w, m.pos, g, ps);
    ReadGateBlock(w, m.pos, g, ps);
    BlockOpenApply(m, g);
    var m1 := AfterOpen(m, g);
    RunStep(w, m, Read(BlockRec(g.qbitNum, g.parameterNum, |cs|), m.pos + 4), m1);
    ListRun(w, m1, init, ps, 1);
    SameRunTrans(w, m, m1, AfterList(m1, init, ps));
  }

  /** The last leaf of a non-empty nested block closes its level. */
  lemma BlockCloseRun(w: seq<Word>, m: Machine, g: Gate, ps: seq<real>)
    requires Outermost(m.levels).count > 0
    requires g.Block? && g.gates != [] && Canonical(g) && NestedOk(g) && g.qbitNum == m.levels.top.qbitNum && ParamCount(g) <= |ps|
    requires At(w, m.pos, GateWords(g, ps))
    requires m.iter + RecordCountOne(g) <= IterMax
    requires var init := g.gates[..|g.gates| - 1];
             AllCanonical(init) && SumParams(init) <= |ps| && RecordCountOne(g) == RecordCount(init) + 2
    ensures var init := g.gates[..|g.gates| - 1];
            var m2 := AfterList(AfterOpen(m, g), init, ps);
            m2.iter <= IterMax && AfterGate(m, g, ps).iter <= IterMax && SameRun(w, m2, AfterGate(m, g, ps))
  {
    BlockParts(g, ps);
    BlockWordsAt(w, m.pos, g, ps);
    LastLeafRun(w, m, g, ps);
    BlockCloseMatches(m, g, ps);
  }

  /** The last leaf of a nested block, read after its header and the other gates, closes the level. */
  lemma LastLeafRun(w: seq<Word>, m: Machine, g: Gate, ps: seq<real>)
    requires Outermost(m.levels).count > 0
    requires g.Block? && g.gates != []
    requires var init := g.gates[..|g.gates| - 1];
             AllCanonical(init) && SumParams(init) <= |ps| && m.iter + RecordCount(init) + 2 <= IterMax
    requires var init := g.gates[..|g.gates| - 1];
             var last := g.gates[|g.gates| - 1];
             var rest := ps[SumParams(init)..];
             last.Leaf? && LeafDecodable(last) && last.qbitNum == m.levels.top.qbitNum && ParamCount(last) <= |rest| &&
             At(w, m.pos + 4 + |ListWords(init, ps)|, GateWords(last, rest))
    ensures var init := g.gates[..|g.gates| - 1];
            var last := g.gates[|g.gates| - 1];
            var rest := ps[SumParams(init)..];
            var m2 := AfterList(AfterOpen(m, g), init, ps);
            var m3 := AfterClose(m2, last, rest[..ParamCount(last)], m2.pos + |GateWords(last, rest)|);
            m2.levels.Nested? && m2.iter <= IterMax && m3.iter <= IterMax && SameRun(w, m2, m3)
  {
    var init := g.gates[..|g.gates| - 1];
    var m2 := AfterList(AfterOpen(m, g), init, ps);
    OpenedList(m, g, ps);
    CloseStep(w, m2, g.gates[|g.gates| - 1], ps[SumParams(init)..]);
  }

  /** The last leaf record of a nested level, read where the machine stands, closes the level. */
  lemma CloseStep(w: seq<Word>, m: Machine, g: Gate, ps: seq<real>)
    requires m.levels.Nested? && m.iter < IterMax && Outermost(m.levels).count > 0 && m.levels.top.count == 1
    requires g.Leaf? && LeafDecodable(g) && g.qbitNum == m.levels.top.qbitNum && ParamCount(g) <= |ps|
    requires At(w, m.pos, GateWords(g, ps))
    ensures var m3 := AfterClose(m, g, ps[..ParamCount(g)], m.pos + |GateWords(g, ps)|);
            m3.iter <= IterMax && SameRun(w, m, m3)
  {
    var own := ps[..ParamCount(g)];
    var next := m.pos + |GateWords(g, ps)|;
    ReadGateLeaf(w, m.pos, g, ps);
    LeafCloseApply(m, g, own, next);
    RunStep(w, m, LeafRead(g, own, next), AfterClose(m, g, own, next));
  }

  /** Reading the records of the list gs into a level that expects extra more records after them. */
  lemma {:induction false} ListRun(w: seq<Word>, m: Machine, gs: seq<Gate>, ps: seq<real>, extra: nat)
    requires Outermost(m.levels).count > 0
    requires AllCanonical(gs) && AllNestedOk(gs) && AllOnQubits(gs, m.levels.top.qbitNum) && SumParams(gs) <= |ps|
    requires At(w, m.pos, ListWords(gs, ps))
    requires extra >= 1 && m.levels.top.count == |gs| + extra
    requires m.iter + RecordCount(gs) <= IterMax
    ensures AfterList(m, gs, ps).iter <= IterMax && SameRun(w, m, AfterList(m, gs, ps))
    decreases RecordCount(gs), 3
  {
    if gs == [] {
      AfterNothing(m, ps);
    } else {
      var init := gs[..|gs| - 1];
      var last := gs[|gs| - 1];
      ListWordsSnoc(gs, ps);
      var rest := ps[SumParams(init)..];
      AtSplit(w, m.pos, ListWords(init, ps), GateWords(last, rest));
      assert forall i :: 0 <= i < |init| ==> init[i] == gs[i];
      RecordCountSnoc(gs);
      ListRun(w, m, init, ps, extra + 1);
      AfterListFacts(m, init, ps);
      GateRun(w, AfterList(m, init, ps), last, rest);
      ListCompose(m, gs, ps);
      SameRunTrans(w, m, AfterList(m, init, ps), AfterList(m, gs, ps));
    }
  }

  // ------------------------------------------------------ the whole file

  /** The records of a list: those of all gates but the last, then the last one's. */
  lemma RecordCountSnoc(gs: seq<Gate>)
    requires gs != []
    ensures RecordCount(gs) == RecordCount(gs[..|gs| - 1]) + RecordCountOne(gs[|gs| - 1])
  {
  }

  /** The machine that reading the whole file of b leaves: every gate of b read into the outermost level. */
  function Finished(b: Gate, ps: seq<real>): Machine
    requires b.Block? && Canonical(b) && b.parameterNum <= |ps|
  {
    assert CanonicalBlock(b.qbitNum, b.parameterNum, b.layerNum, b.gates);
    var gs := b.gates;
    Machine(Base(Frame(b.qbitNum, DirectParams(gs), BlockCount(gs), DecodedAll(gs), 0)),
            |Export(b, ps)|, ps[..b.parameterNum], RecordCount(gs))
  }

  /**
   * The import loop over an exported block ends exactly at the end of the
   * file, after one iteration per record, with every gate read back
   * (Decoded) into the outermost level and the parameters in file order.
   */
  lemma ExportRun(b: Gate, ps: seq<real>)
    requires Exportable(b) && b.parameterNum <= |ps| && RecordCount(b.gates) <= IterMax
    ensures Run(Export(b, ps), Start(b.qbitNum, |b.gates|)) == Ok(Finished(b, ps))
  {
    var gs := b.gates;
    assert CanonicalBlock(b.qbitNum, b.parameterNum, b.layerNum, gs);
    var w := Export(b, ps);
    var m0 := Start(b.qbitNum, |gs|);
    assert w[3..] == ListWords(gs, ps);
    AtSuffix(w, 3);
    if gs == [] {
      assert ps[..0] == [];
    } else {
      TopRun(w, m0, gs, ps);
      FinishedIs(b, ps);
    }
  }

  /** Reading all gates of the outermost level, the last of them a block. */
  lemma TopRun(w: seq<Word>, m: Machine, gs: seq<Gate>, ps: seq<real>)
    requires m.levels.Base? && gs != [] && gs[|gs| - 1].Block?
    requires AllCanonical(gs) && AllNestedOk(gs) && AllOnQubits(gs, m.levels.top.qbitNum) && SumParams(gs) <= |ps|
    requires At(w, m.pos, ListWords(gs, ps))
    requires m.levels.top.count == |gs| && m.iter + RecordCount(gs) <= IterMax
    ensures AfterList(m, gs, ps).iter <= IterMax && SameRun(w, m, AfterList(m, gs, ps))
  {
    var init := gs[..|gs| - 1];
    var last := gs[|gs| - 1];
    ListWordsSnoc(gs, ps);
    var rest := ps[SumParams(init)..];
    AtSplit(w, m.pos, ListWords(init, ps), GateWords(last, rest));
    assert forall i :: 0 <= i < |init| ==> init[i] == gs[i];
    RecordCountSnoc(gs);
    ListRun(w, m, init, ps, 1);
    var m1 := AfterList(m, init, ps);
    AfterListFacts(m, init, ps);
    assert NestedOk(gs[|gs| - 1]);
    GateRun(w, m1, last, rest);
    ListCompose(m, gs, ps);
    SameRunTrans(w, m, m1, AfterList(m, gs, ps));
  }

  /** Reading every gate of b from the start of its file leaves Finished. */
  lemma FinishedIs(b: Gate, ps: seq<real>)
    requires b.Block? && Canonical(b) && b.parameterNum <= |ps|
    ensures AllCanonical(b.gates) && SumParams(b.gates) <= |ps|
    ensures AfterList(Start(b.qbitNum, |b.gates|), b.gates, ps) == Finished(b, ps)
  {
    var gs := b.gates;
    assert CanonicalBlock(b.qbitNum, b.parameterNum, b.layerNum, gs);
    ListDeltaIs(gs, ps);
    var d := ListDelta(gs, ps);
    assert |Export(b, ps)| == 3 + d.words;
    assert [] + d.added == DecodedAll(gs);
    assert [] + d.own == ps[..b.parameterNum];
    var f := Frame(b.qbitNum, d.dp, d.dl, [] + d.added, |gs| - d.n);
    assert AfterList(Start(b.qbitNum, |gs|), gs, ps) == Machine(Base(f), 3 + d.words, [] + d.own, d.recs);
  }

  /** The header of an exported file reads back as the block's qubit count, parameter count and gate count. */
  lemma ExportHeader(b: Gate, ps: seq<real>)
    requires b.Block? && Canonical(b) && b.parameterNum <= |ps|
    ensures HeaderOk(Export(b, ps))
    ensures IntAt(Export(b, ps), 0) == Some(b.qbitNum)
    ensures IntAt(Export(b, ps), 1) == Some(b.parameterNum as int)
    ensures IntAt(Export(b, ps), 2) == Some(|b.gates|)
  {
  }

  /**
   * Export then import as written gives back the tree the importer rebuilds
   * (Decoded b) and the block's parameters, provided fewer than IterMax
   * records were written.
   */
  lemma RoundTripAsWritten(b: Gate, ps: seq<real>)
    requires Exportable(b) && b.parameterNum <= |ps| && RecordCount(b.gates) < IterMax
    ensures ImportAsWritten(Export(b, ps)) == Ok(Imported(Decoded(b), ps[..b.parameterNum]))
  {
    ExportHeader(b, ps);
    ExportRun(b, ps);
    var acc := ps[..b.parameterNum];
    assert acc + Zeros(0) == acc;
  }

  /** A file of exactly IterMax records is refused, although the loop read all of it. */
  lemma ExactLimitRejected(b: Gate, ps: seq<real>)
    requires Exportable(b) && b.parameterNum <= |ps| && RecordCount(b.gates) == IterMax
    ensures ImportAsWritten(Export(b, ps)) == Err(Corrupted)
  {
    ExportHeader(b, ps);
    ExportRun(b, ps);
  }

  /** Element i of DecodedAll(gs) is gs[i] read back. */
  lemma {:induction false} DecodedAllIndex(gs: seq<Gate>)
    ensures forall i :: 0 <= i < |gs| ==> DecodedAll(gs)[i] == Decoded(gs[i])
    decreases |gs|
  {
    if gs != [] {
      var init := gs[..|gs| - 1];
      DecodedAllIndex(init);
      forall i | 0 <= i < |init| ensures DecodedAll(gs)[i] == Decoded(gs[i]) {
        assert init[i] == gs[i];
      }
    }
  }

  /** clone recomputes every counter the importer left short: it turns the tree read back into the original. */
  lemma {:induction false} CloneOfDecoded(g: Gate)
    requires Canonical(g)
    ensures CloneGate(Decoded(g)) == g
    decreases g
  {
    if g.Block? {
      var cs := g.gates;
      assert CanonicalBlock(g.qbitNum, g.parameterNum, g.layerNum, cs);
      assert AllCanonical(cs) && AllOnQubits(cs, g.qbitNum);
      var ds := DecodedAll(cs);
      DecodedAllIndex(cs);
      forall i | 0 <= i < |cs| ensures WithQbitNum(CloneGate(ds[i]), g.qbitNum) == cs[i] {
        assert Canonical(cs[i]);
        CloneOfDecoded(cs[i]);
        WithOwnQbitNum(cs[i]);
      }
      assert CloneInto(ds, g.qbitNum) == cs;
    }
  }

  /**
   * Export then import as intended gives back the very block and its
   * parameters, up to and including IterMax records.
   */
  lemma RoundTrip(b: Gate, ps: seq<real>)
    requires Exportable(b) && b.parameterNum <= |ps| && RecordCount(b.gates) <= IterMax
    ensures Import(Export(b, ps)) == Ok(Imported(b, ps[..b.parameterNum]))
  {
    ExportHeader(b, ps);
    ExportRun(b, ps);
    var acc := ps[..b.parameterNum];
    assert acc + Zeros(0) == acc;
    CloneOfDecoded(b);
  }

  // ------------------------------------------------- the importer's loop

  /** gate_block_levels with gate_block_level_gates_num beside it, outermost first, as open levels. */
  function ToLevels(stack: seq<Frame>): (lv: Levels)
    requires |stack| >= 1
    ensures lv.top == stack[|stack| - 1] && Outermost(lv) == stack[0]
    ensures lv.Base? <==> |stack| == 1
    decreases |stack|
  {
    if |stack| == 1 then Base(stack[0]) else Nested(ToLevels(stack[..|stack| - 1]), stack[|stack| - 1])
  }

  /** Replacing the last entry of the stack replaces the innermost level. */
  lemma ToLevelsSetTop(stack: seq<Frame>, f: Frame)
    requires |stack| >= 1
    ensures ToLevels(stack[..|stack| - 1] + [f]) == SetTop(ToLevels(stack), f)
  {
    var s := stack[..|stack| - 1] + [f];
    if |stack| > 1 {
      assert s[..|s| - 1] == stack[..|stack| - 1];
    }
  }

  /** push_back opens a level above the innermost one. */
  lemma ToLevelsPush(stack: seq<Frame>, f: Frame)
    requires |stack| >= 1
    ensures ToLevels(stack + [f]) == Nested(ToLevels(stack), f)
  {
    assert (stack + [f])[..|stack|] == stack;
  }

  /**
   * The level changes of one record on the two stacks: a BLOCK record
   * counts a layer on the current level and pushes a level for the new
   * block; a leaf record is added to the current level; then CloseStack.
   */
  method StepStack(stack: seq<Frame>, rec: Record) returns (res: Result<seq<Frame>>)
    requires |stack| >= 1
    ensures res.Ok? <==> Step(ToLevels(stack), rec).Ok?
    ensures res.Ok? ==> |res.value| >= 1 && ToLevels(res.value) == Step(ToLevels(stack), rec).value
    ensures res.Err? ==> res.msg == Step(ToLevels(stack), rec).msg
  {
    var top := stack[|stack| - 1];
    match rec {
      case BlockRec(_, _, n) =>
        var host := Frame(top.qbitNum, top.parameterNum, top.layerNum + 1, top.gates, top.count);
        var inner := stack[..|stack| - 1] + [host];
        ToLevelsSetTop(stack, host);
        ToLevelsPush(inner, Frame(top.qbitNum, 0, 0, [], n));
        res := CloseStack(inner + [Frame(top.qbitNum, 0, 0, [], n)]);
      case LeafRec(kind, t, c, _) =>
        if ChecksTarget(kind) && t >= top.qbitNum {
          return Err(TargetTooLarge);
        }
        ToLevelsSetTop(stack, AddLeaf(top, Leaf(kind, top.qbitNum, t, c)));
        res := CloseStack(stack[..|stack| - 1] + [AddLeaf(top, Leaf(kind, top.qbitNum, t, c))]);
    }
  }

  /** A level that expects no more records is popped into its parent, whose count drops; the outermost one cannot be. */
  method CloseStack(s: seq<Frame>) returns (res: Result<seq<Frame>>)
    requires |s| >= 1
    ensures res.Ok? <==> CloseCheck(ToLevels(s)).Ok?
    ensures res.Ok? ==> |res.value| >= 1 && ToLevels(res.value) == CloseCheck(ToLevels(s)).value
    ensures res.Err? ==> res.msg == CloseCheck(ToLevels(s)).msg
  {
    if s[|s| - 1].count != 0 {
      return Ok(s);
    }
    if |s| == 1 {
      return Err(EmptyLevelStack);
    }
    var child := s[|s| - 1];
    var rest := s[..|s| - 1];
    var parent := rest[|rest| - 1];
    ToLevelsSetTop(rest, Attach(parent, child));
    return Ok(rest[..|rest| - 1] + [Attach(parent, child)]);
  }

  /** A turn that fails ends the import loop (started at s, now at m) with that turn's error. */
  lemma RunTurnFails(w: seq<Word>, s: Machine, m: Machine, e: string)
    requires s.iter <= IterMax && m.iter < IterMax && SameRun(w, s, m)
    requires Outermost(m.levels).count > 0 && Turn(w, m) == Err(e)
    ensures Ends(w, s, Err(e))
  {
    assert Run(w, m) == Err(e);
  }

  /** A turn that succeeds: the loop started at s goes on from the machine the turn produced. */
  lemma RunGoesOn(w: seq<Word>, s: Machine, m: Machine, next: Machine)
    requires s.iter <= IterMax && m.iter < IterMax && SameRun(w, s, m)
    requires Outermost(m.levels).count > 0 && Turn(w, m) == Ok(next)
    ensures next.iter <= IterMax && SameRun(w, s, next)
  {
    assert Run(w, m) == Run(w, next);
  }

  /** Once the outermost level expects nothing or IterMax records were read, the loop started at s stops at m. */
  lemma RunStops(w: seq<Word>, s: Machine, m: Machine)
    requires s.iter <= IterMax && m.iter <= IterMax && SameRun(w, s, m)
    requires Outermost(m.levels).count <= 0 || m.iter == IterMax
    ensures Ends(w, s, Ok(m))
  {
    assert Run(w, m) == Ok(m);
  }

  /**
   * The body of the while loop of import_gate_list_from_binary: read a
   * record, change the level stack, append the parameters read.
   */
  method ImportTurn(w: seq<Word>, stack: seq<Frame>, pos: nat, acc: seq<real>, iter: nat)
    returns (res: Result<seq<Frame>>, pos2: nat, acc2: seq<real>)
    requires |stack| >= 1
    ensures res.Err? ==> Turn(w, Machine(ToLevels(stack), pos, acc, iter)) == Err(res.msg)
    ensures res.Ok? ==> |res.value| >= 1
    ensures res.Ok? ==> Turn(w, Machine(ToLevels(stack), pos, acc, iter)) == Ok(Machine(ToLevels(res.value), pos2, acc2, iter + 1))
  {
    var rd := ReadRecord(w, pos);
    TurnReads(w, Machine(ToLevels(stack), pos, acc, iter), rd);
    if rd.Err? {
      return Err(rd.msg), pos, acc;
    }
    res := StepStack(stack, rd.value.rec);
    pos2, acc2 := rd.value.next, acc + ParamsOf(rd.value.rec);
  }

  lemma TurnReads(w: seq<Word>, m: Machine, rd: Result<Read>)
    requires rd == ReadRecord(w, m.pos)
    ensures rd.Err? ==> Turn(w, m) == Err(rd.msg)
    ensures rd.Ok? ==> Turn(w, m) == Apply(m, rd.value)
  {
  }

  /** The while loop of import_gate_list_from_binary, with the iteration count. */
  method ImportLoop(w: seq<Word>, qbitNum: int, gatesNum: int) returns (res: Result<Machine>)
    ensures Ends(w, Start(qbitNum, gatesNum), res)
  {
    ghost var s := Start(qbitNum, gatesNum);
    var stack := [Frame(qbitNum, 0, 0, [], gatesNum)];
    var pos: nat := 3;
    var acc: seq<real> := [];
    var iter: nat := 0;
    while stack[0].count > 0 && iter < IterMax
      invariant |stack| >= 1 && iter <= IterMax
      invariant SameRun(w, s, Machine(ToLevels(stack), pos, acc, iter))
      decreases IterMax - iter
    {
      ghost var m := Machine(ToLevels(stack), pos, acc, iter);
      var next, pos2, acc2 := ImportTurn(w, stack, pos, acc, iter);
      if next.Err? {
        RunTurnFails(w, s, m, next.msg);
        return Err(next.msg);
      }
      RunGoesOn(w, s, m, Machine(ToLevels(next.value), pos2, acc2, iter + 1));
      stack, pos, acc, iter := next.value, pos2, acc2, iter + 1;
    }
    res := Ok(Machine(ToLevels(stack), pos, acc, iter));
    RunStops(w, s, res.value);
  }

  /**
   * import_gate_list_from_binary as written, over the words of the file:
   * the header, the loop, the iteration check and the parameter vector.
   */
  method ImportFile(w: seq<Word>) returns (r: Result<Imported>)
    ensures r == ImportAsWritten(w)
  {
    if !HeaderOk(w) {
      return Err(Truncated);
    }
    var parameterNum := IntAt(w, 1).value;
    var run := ImportLoop(w, IntAt(w, 0).value, IntAt(w, 2).value);
    if run.Err? {
      return Err(run.msg);
    }
    if run.value.iter == IterMax {
      return Err(Corrupted);
    }
    var acc := run.value.acc;
    if |acc| > parameterNum {
      return Err(ParameterOverflow);
    }
    return Ok(Imported(TopBlock(Outermost(run.value.levels)), acc + Zeros(parameterNum - |acc|)));
  }

  // ------------------------------------------------------------ examples

  /** n single-qubit X gates on target 0 of a one-qubit register. */
  function Xs(n: nat): (r: seq<Gate>)
    ensures |r| == n
  {
    seq(n, _ => Leaf(X, 1, 0, -1))
  }

  lemma {:induction false} XsCounts(n: nat)
    ensures SumParams(Xs(n)) == 0 && BlockCount(Xs(n)) == 0 && RecordCount(Xs(n)) == n
    ensures AllCanonical(Xs(n)) && AllOnQubits(Xs(n), 1) && AllNestedOk(Xs(n))
  {
    if n > 0 {
      assert Xs(n)[..n - 1] == Xs(n - 1);
      XsCounts(n - 1);
    }
  }

  /** A top block holding one nested block of IterMax - 1 X gates: exactly IterMax records. */
  function LimitBlock(): Gate
  {
    Block(1, 0, 1, [Block(1, 0, 0, Xs(IterMax - 1))])
  }

  lemma LimitBlockExportable()
    ensures Exportable(LimitBlock()) && RecordCount(LimitBlock().gates) == IterMax
  {
    var inner := Block(1, 0, 0, Xs(IterMax - 1));
    XsCounts(IterMax - 1);
    assert Last(inner.gates) == Leaf(X, 1, 0, -1);
    assert NestedOk(inner) && Canonical(inner);
    assert RecordCount([inner]) == RecordCountOne(inner);
    assert [inner][..0] == [];
    assert SumParams([inner][..0]) == 0 && BlockCount([inner][..0]) == 0;
    assert SumParams([inner]) == 0 && BlockCount([inner]) == 1;
  }

  /** The exporter's file for LimitBlock is refused as written and read back whole as intended. */
  lemma ExactLimitExample()
    ensures Exportable(LimitBlock())
    ensures ImportAsWritten(Export(LimitBlock(), [])) == Err(Corrupted)
    ensures Import(Export(LimitBlock(), [])) == Ok(Imported(LimitBlock(), []))
  {
    LimitBlockExportable();
    ExactLimitRejected(LimitBlock(), []);
    RoundTrip(LimitBlock(), []);
  }

  /** A block nested two deep whose one RX parameter belongs to the innermost block. */
  function DeepBlock(): Gate
  {
    Block(1, 1, 1, [DeepMiddle()])
  }

  /** The middle level of DeepBlock: the innermost block, then an X gate. */
  function DeepMiddle(): Gate
  {
    Block(1, 1, 1, [DeepInner(), Leaf(X, 1, 0, -1)])
  }

  /** The innermost level of DeepBlock: one RX gate. */
  function DeepInner(): Gate
  {
    Block(1, 1, 0, [Leaf(RX, 1, 0, -1)])
  }

  lemma DeepInnerFacts()
    ensures Canonical(DeepInner()) && NestedOk(DeepInner()) && RecordCountOne(DeepInner()) == 2
    ensures SumParams([DeepInner()]) == 1 && BlockCount([DeepInner()]) == 1
  {
    var rx := Leaf(RX, 1, 0, -1);
    assert [rx][..0] == [];
    assert ParamCount(rx) == LeafParams(RX) == 1;
    assert SumParams([rx]) == SumParams([]) + ParamCount(rx) == 1;
    assert BlockCount([rx]) == 0;
    assert RecordCount([rx]) == RecordCount([]) + RecordCountOne(rx) == 1;
    assert AllCanonical([rx]) && AllOnQubits([rx], 1) && AllNestedOk([rx]);
    assert [DeepInner()][..0] == [];
  }

  lemma DeepMiddleFacts()
    ensures Canonical(DeepMiddle()) && NestedOk(DeepMiddle()) && RecordCountOne(DeepMiddle()) == 4
  {
    DeepInnerFacts();
    var cs := [DeepInner(), Leaf(X, 1, 0, -1)];
    assert cs[..1] == [DeepInner()];
    assert RecordCount([DeepInner()]) == 2;
    assert SumParams(cs) == 1 && BlockCount(cs) == 1 && RecordCount(cs) == 3;
    assert AllCanonical(cs) && AllOnQubits(cs, 1) && AllNestedOk(cs);
  }

  lemma DeepBlockExportable()
    ensures Exportable(DeepBlock()) && RecordCount(DeepBlock().gates) == 4
  {
    DeepMiddleFacts();
    var cs := [DeepMiddle()];
    assert cs[..0] == [];
    assert SumParams(cs) == 1 && BlockCount(cs) == 1 && RecordCount(cs) == 4;
    assert AllCanonical(cs) && AllOnQubits(cs, 1) && AllNestedOk(cs);
  }

  /**
   * The top block read back as written counts only the parameters of its
   * own leaves (DirectParams), not those of its nested blocks, although the
   * parameter vector holds them all.
   */
  lemma CountersAsWritten(b: Gate, ps: seq<real>)
    requires Exportable(b) && b.parameterNum <= |ps| && RecordCount(b.gates) < IterMax
    ensures var r := ImportAsWritten(Export(b, ps));
            r.Ok? && r.value.block.parameterNum == DirectParams(b.gates) && |r.value.params| == b.parameterNum
  {
    RoundTripAsWritten(b, ps);
  }

  /** DeepBlock has one parameter, but none of its own leaves carries it. */
  lemma NestedParamsLost()
    ensures Exportable(DeepBlock()) && RecordCount(DeepBlock().gates) < IterMax
    ensures DeepBlock().parameterNum == 1 && DirectParams(DeepBlock().gates) == 0
  {
    DeepBlockExportable();
    var middle := DeepBlock().gates[0];
    assert DirectParams([middle]) == 0;
  }
}
