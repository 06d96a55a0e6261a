/**
 * The Python extension layer of the two decomposition classes: argument
 * checks of the constructors, the optimiser and initial-guess names, the
 * gate records handed to Python, the parameter reversal and the dictionary
 * setters. Python objects are a small value type; only the shapes these
 * functions test are distinguished.
 */
module Wrappers {
  import opened Common
  import opened ComplexNum
  import opened GateTree
  import opened GatesBlocks
  import opened Settings
  import AdaptiveDecomposition

  /** The Python objects the wrappers inspect. */
  datatype PyObj =
    | PyNone
    | PyInt(i: int)
    | PyStr(s: string)
    | PyList(items: seq<PyObj>)
    | PyTuple(items: seq<PyObj>)
    | PyOther

  const Int32Min: int := -0x8000_0000
  const Int32Max: int := 0x7fff_ffff

  /** The C `(int)` cast of a `long`: two's complement wrap-around to 32 bits. */
  function ToInt32(x: int): (r: int)
    ensures Int32Min <= r <= Int32Max
    ensures (r - x) % 0x1_0000_0000 == 0
    ensures Int32Min <= x <= Int32Max ==> r == x
  {
    var m := x % 0x1_0000_0000;
    if m > Int32Max then m - 0x1_0000_0000 else m
  }

  /**
   * PyLong_AsLong: the value of an int that fits in 64 bits; -1 for an int
   * that does not, for anything that is not an int, and for the missing
   * item PyTuple_GetItem yields past the end.
   */
  function AsLong(v: PyObj): (r: int)
    ensures v.PyInt? && -0x8000_0000_0000_0000 <= v.i < 0x8000_0000_0000_0000 ==> r == v.i
    ensures !v.PyInt? ==> r == -1
  {
    if v.PyInt? && -0x8000_0000_0000_0000 <= v.i < 0x8000_0000_0000_0000 then v.i else -1
  }

  /** PyTuple_GetItem: the item, or nothing past the end. */
  function Item(xs: seq<PyObj>, k: nat): PyObj
  {
    if k < |xs| then xs[k] else PyNone
  }

  // ---------------------------------------------------------------- set_Optimizer

  const OptimizerNotSet: string := "optimizer argument not set"

  /** The two spellings set_Optimizer accepts for each optimiser. */
  function OptimizerSpellings(o: Optimizer): set<string>
  {
    match o
    case Bfgs => {"bfgs", "BFGS"}
    case Adam => {"adam", "ADAM"}
    case AdamBatched => {"adam_batched", "ADAM_BATCHED"}
    case Bfgs2 => {"bfgs2", "BFGS2"}
  }

  /** Every spelling set_Optimizer recognises. */
  const OptimizerNames: set<string> :=
    OptimizerSpellings(Bfgs) + OptimizerSpellings(Adam) + OptimizerSpellings(AdamBatched) + OptimizerSpellings(Bfgs2)

  /**
   * set_Optimizer's argument, given as its str(): no argument is an error;
   * a spelling of an optimiser selects it; any other string falls back to
   * BFGS.
   */
  function ParseOptimizer(arg: Option<string>): (r: Result<Optimizer>)
    ensures r.Err? <==> arg.None?
    ensures r.Err? ==> r.msg == OptimizerNotSet
    ensures arg.Some? ==> forall o {:trigger OptimizerSpellings(o)} :: arg.value in OptimizerSpellings(o) ==> r == Ok(o)
    ensures arg.Some? && arg.value !in OptimizerNames ==> r == Ok(Bfgs)
  {
    if arg.None? then Err(OptimizerNotSet)
    else
      var s := arg.value;
      if s == "bfgs" || s == "BFGS" then Ok(Bfgs)
      else if s == "adam" || s == "ADAM" then Ok(Adam)
      else if s == "adam_batched" || s == "ADAM_BATCHED" then Ok(AdamBatched)
      else if s == "bfgs2" || s == "BFGS2" then Ok(Bfgs2)
      else Ok(Bfgs)
  }

  /** The spellings of different optimisers are disjoint, so each name selects one optimiser. */
  lemma OptimizerSpellingsDisjoint(o: Optimizer, p: Optimizer, s: string)
    requires s in OptimizerSpellings(o) && s in OptimizerSpellings(p)
    ensures o == p
  {
    assert ParseOptimizer(Some(s)) == Ok(o) && ParseOptimizer(Some(s)) == Ok(p);
  }

  // ---------------------------------------------------------------- initial guess

  /** The two spellings the initial-guess argument accepts for each kind. */
  function GuessSpellings(g: GuessType): set<string>
  {
    match g
    case Zeros => {"zeros", "ZEROS"}
    case Random => {"random", "RANDOM"}
    case CloseToZero => {"close_to_zero", "CLOSE_TO_ZERO"}
  }

  /** Every spelling the initial-guess argument recognises. */
  const GuessNames: set<string> := GuessSpellings(Zeros) + GuessSpellings(Random) + GuessSpellings(CloseToZero)

  /** The initial guess from the argument's str(): a spelling selects its kind, anything else is ZEROS. */
  function ParseGuess(s: string): (r: GuessType)
    ensures forall g {:trigger GuessSpellings(g)} :: s in GuessSpellings(g) ==> r == g
    ensures s !in GuessNames ==> r == Zeros
  {
    if s == "zeros" || s == "ZEROS" then Zeros
    else if s == "random" || s == "RANDOM" then Random
    else if s == "close_to_zero" || s == "CLOSE_TO_ZERO" then CloseToZero
    else Zeros
  }

  // ---------------------------------------------------------------- set_Cost_Function_Variant

  /**
   * set_Cost_Function_Variant as written: the integer (0 when absent) is
   * stored as the variant with no range check.
   */
  function CostVariantAsWritten(arg: Option<int>): (stored: int)
    ensures arg.None? ==> stored == 0
    ensures arg.Some? ==> stored == arg.value
  {
    if arg.None? then 0 else arg.value
  }

  /** A code the enumeration does not have is stored as it is. */
  lemma CostVariantAsWrittenStoresNonVariant()
    ensures CostVariantAsWritten(Some(6)) == 6 && CostFunctionOf(6).None?
    ensures CostVariantAsWritten(Some(-1)) == -1 && CostFunctionOf(-1).None?
  {
  }

  const NoSuchCostFunction: string := "no such cost function variant"

  /** set_Cost_Function_Variant with the range check: only the six codes of cost_function_type are accepted. */
  function SetCostVariant(arg: Option<int>): (r: Result<CostFunction>)
    ensures r.Ok? <==> arg.None? || 0 <= arg.value < 6
    ensures r.Ok? ==> CostFunctionCode(r.value) == CostVariantAsWritten(arg)
    ensures r.Err? ==> r.msg == NoSuchCostFunction
  {
    var k := CostVariantAsWritten(arg);
    match CostFunctionOf(k)
    case Some(c) => Ok(c)
    case None => Err(NoSuchCostFunction)
  }

  // ---------------------------------------------------------------- topology

  const TopologyNotList: string := "Input topology must be a list!"
  const EdgeNotTuple: string := "Elements of topology must be a tuple!"

  /** One topology entry as the extension converts it: items 0 and 1, each through PyLong_AsLong and an int cast. */
  function EdgeOf(item: PyObj): (r: Option<seq<int>>)
    ensures r.Some? <==> item.PyTuple?
    ensures r.Some? ==> r.value == [ToInt32(AsLong(Item(item.items, 0))), ToInt32(AsLong(Item(item.items, 1)))]
  {
    if item.PyTuple? then Some([ToInt32(AsLong(Item(item.items, 0))), ToInt32(AsLong(Item(item.items, 1)))])
    else None
  }

  /** The converted entries, in order, up to the first that is not a tuple. */
  function EdgesOf(items: seq<PyObj>): (r: Result<seq<seq<int>>>)
    ensures r.Err? <==> exists k :: 0 <= k < |items| && !items[k].PyTuple?
    ensures r.Err? ==> r.msg == EdgeNotTuple
    ensures r.Ok? ==> |r.value| == |items| &&
                      forall k :: 0 <= k < |items| ==> EdgeOf(items[k]) == Some(r.value[k])
  {
    if items == [] then Ok([])
    else
      var front := EdgesOf(items[..|items| - 1]);
      var last := EdgeOf(items[|items| - 1]);
      if front.Err? then front
      else if last.None? then Err(EdgeNotTuple)
      else Ok(front.value + [last.value])
  }

  /** The topology argument of the extension's constructor: None is no edges; a list is converted; anything else is refused. */
  function TopologyOf(t: PyObj): (r: Result<seq<seq<int>>>)
    ensures t.PyNone? ==> r == Ok([])
    ensures t.PyList? ==> r == EdgesOf(t.items)
    ensures !t.PyNone? && !t.PyList? ==> r == Err(TopologyNotList)
  {
    if t.PyNone? then Ok([])
    else if t.PyList? then EdgesOf(t.items)
    else Err(TopologyNotList)
  }

  /** The conversion loop of the extension's constructor, entry by entry. */
  method ConvertTopology(t: PyObj) returns (r: Result<seq<seq<int>>>)
    ensures r == TopologyOf(t)
  {
    if t.PyNone? {
      return Ok([]);
    }
    if !t.PyList? {
      return Err(TopologyNotList);
    }
    var items := t.items;
    var edges: seq<seq<int>> := [];
    var idx := 0;
    while idx < |items|
      invariant 0 <= idx <= |items|
      invariant EdgesOf(items[..idx]) == Ok(edges)
    {
      assert items[..idx + 1][..idx] == items[..idx];
      var edge := EdgeOf(items[idx]);
      if edge.None? {
        EdgesErrExtends(items, idx + 1);
        return Err(EdgeNotTuple);
      }
      edges := edges + [edge.value];
      idx := idx + 1;
    }
    assert items[..idx] == items;
    return Ok(edges);
  }

  /** Once a prefix of the entries is refused, so is every longer prefix. */
  lemma {:induction false} EdgesErrExtends(items: seq<PyObj>, n: nat)
    requires n <= |items| && EdgesOf(items[..n]).Err?
    ensures EdgesOf(items).Err?
  {
    var k :| 0 <= k < n && !items[..n][k].PyTuple?;
    assert !items[k].PyTuple?;
  }

  /**
   * What the Python class's constructor does with its topology argument:
   * None or a list or tuple of two-element tuples is accepted and becomes a
   * list of 32-bit int pairs; an entry of another shape, or a topology of
   * another type, is refused with a message and the extension's constructor
   * is not called; an entry whose component np.intc cannot convert raises
   * out of the constructor.
   */
  datatype Validated = Refused | Raised | Pairs(pairs: seq<(int, int)>)

  /** What np.intc makes of one object: a 32-bit value, or an exception. */
  datatype Conversion = IntcValue(value: int) | Raises

  predicate IsDigits(s: string)
  {
    |s| > 0 && forall k :: 0 <= k < |s| ==> '0' <= s[k] <= '9'
  }

  /** The value of a string of decimal digits, most significant first. */
  function DigitsValue(s: string): (r: nat)
    requires IsDigits(s)
    ensures |s| == 1 ==> r == s[0] as int - '0' as int
  {
    var d := s[|s| - 1] as int - '0' as int;
    if |s| == 1 then d else 10 * DigitsValue(s[..|s| - 1]) + d
  }

  /** The integer an optionally signed decimal literal spells. */
  function IntLiteral(s: string): (r: Option<int>)
    ensures IsDigits(s) ==> r == Some(DigitsValue(s))
    ensures r.None? <==> !IsDigits(s) && !(|s| > 1 && (s[0] == '-' || s[0] == '+') && IsDigits(s[1..]))
  {
    if IsDigits(s) then Some(DigitsValue(s))
    else if |s| > 1 && s[0] == '-' && IsDigits(s[1..]) then Some(0 - DigitsValue(s[1..]) as int)
    else if |s| > 1 && s[0] == '+' && IsDigits(s[1..]) then Some(DigitsValue(s[1..]))
    else None
  }

  /**
   * np.intc of a tuple component: an int, or a string spelling one, that
   * fits in 32 bits converts to its value; any other int or string, and any
   * other object, raises.
   */
  function Intc(v: PyObj): (r: Conversion)
    ensures r.IntcValue? ==> Int32Min <= r.value <= Int32Max
    ensures v.PyInt? ==> (r.IntcValue? <==> Int32Min <= v.i <= Int32Max)
    ensures v.PyInt? && r.IntcValue? ==> r.value == v.i
    ensures !v.PyInt? && !v.PyStr? ==> r == Raises
  {
    if v.PyInt? && Int32Min <= v.i <= Int32Max then IntcValue(v.i)
    else if v.PyStr? && IntLiteral(v.s).Some? && Int32Min <= IntLiteral(v.s).value <= Int32Max then
      IntcValue(IntLiteral(v.s).value)
    else Raises
  }

  /** The decimal spelling of a natural number, without leading zeros. */
  function Decimal(n: nat): (s: string)
    ensures IsDigits(s)
  {
    if n < 10 then [('0' as int + n) as char]
    else Decimal(n / 10) + [('0' as int + n % 10) as char]
  }

  lemma {:induction false} DecimalValue(n: nat)
    ensures DigitsValue(Decimal(n)) == n
  {
    if n >= 10 {
      var s := Decimal(n);
      assert s[..|s| - 1] == Decimal(n / 10);
      DecimalValue(n / 10);
    }
  }

  /** A string spelling a 32-bit int converts to the same value as the int itself. */
  lemma IntcOfSpelledInt(n: int)
    requires Int32Min <= n <= Int32Max
    ensures Intc(PyStr(if n < 0 then "-" + Decimal(-n) else Decimal(n))) == Intc(PyInt(n)) == IntcValue(n)
  {
    if n < 0 {
      var s := "-" + Decimal(-n);
      assert s[1..] == Decimal(-n);
      DecimalValue(-n);
    } else {
      DecimalValue(n);
    }
  }

  /** What one topology entry turns into. */
  datatype Entry = NotAPair | RaisesIn | Pair(value: (int, int))

  function PairOf(item: PyObj): (r: Entry)
    ensures r.NotAPair? <==> !(item.PyTuple? && |item.items| == 2)
    ensures r.Pair? <==> item.PyTuple? && |item.items| == 2 &&
                         Intc(item.items[0]).IntcValue? && Intc(item.items[1]).IntcValue?
    ensures r.Pair? ==> Intc(item.items[0]) == IntcValue(r.value.0) && Intc(item.items[1]) == IntcValue(r.value.1)
  {
    if !(item.PyTuple? && |item.items| == 2) then NotAPair
    else if Intc(item.items[0]).IntcValue? && Intc(item.items[1]).IntcValue? then
      Pair((Intc(item.items[0]).value, Intc(item.items[1]).value))
    else RaisesIn
  }

  /** The place of the first entry that is not a pair, or the length when every entry is. */
  function FirstNonPair(items: seq<PyObj>): (k: nat)
    ensures k <= |items|
    ensures forall j :: 0 <= j < k ==> PairOf(items[j]).Pair?
    ensures k < |items| ==> !PairOf(items[k]).Pair?
  {
    if items == [] || !PairOf(items[0]).Pair? then 0 else 1 + FirstNonPair(items[1..])
  }

  /**
   * The loop over the entries: the first entry that is not a pair decides,
   * a refusal if it has the wrong shape and an exception if a component does
   * not convert; with no such entry, the pairs in order.
   */
  function PairsOf(items: seq<PyObj>): (r: Validated)
    ensures r.Pairs? <==> FirstNonPair(items) == |items|
    ensures r.Pairs? ==> |r.pairs| == |items| && forall k :: 0 <= k < |items| ==> PairOf(items[k]) == Pair(r.pairs[k])
    ensures r.Refused? <==> FirstNonPair(items) < |items| && PairOf(items[FirstNonPair(items)]).NotAPair?
  {
    if items == [] then Pairs([])
    else
      var first := PairOf(items[0]);
      if first.NotAPair? then Refused
      else if first.RaisesIn? then Raised
      else
        var rest := PairsOf(items[1..]);
        if rest.Pairs? then Pairs([first.value] + rest.pairs) else rest
  }

  function ValidateTopology(t: PyObj): (r: Validated)
    ensures t.PyNone? ==> r == Pairs([])
    ensures !t.PyNone? && !t.PyList? && !t.PyTuple? ==> r == Refused
    ensures t.PyList? || t.PyTuple? ==> r == PairsOf(t.items)
  {
    if t.PyList? || t.PyTuple? then PairsOf(t.items)
    else if t.PyNone? then Pairs([])
    else Refused
  }

  /** The list of (intc, intc) tuples the Python class passes on. */
  function PairsAsList(ps: seq<(int, int)>): (r: PyObj)
    ensures r.PyList? && |r.items| == |ps|
  {
    PyList(seq(|ps|, k requires 0 <= k < |ps| => PairTuple(ps[k])))
  }

  function PairTuple(p: (int, int)): PyObj
  {
    PyTuple([PyInt(p.0), PyInt(p.1)])
  }

  function PairEdges(ps: seq<(int, int)>): (r: seq<seq<int>>)
    ensures |r| == |ps|
  {
    seq(|ps|, k requires 0 <= k < |ps| => [ps[k].0, ps[k].1])
  }

  /**
   * A topology the Python class accepts is never refused by the extension,
   * and reaches the engine with every pair's values unchanged.
   */
  lemma ValidatedTopologyConverts(t: PyObj)
    requires ValidateTopology(t).Pairs?
    ensures TopologyOf(PairsAsList(ValidateTopology(t).pairs)) == Ok(PairEdges(ValidateTopology(t).pairs))
  {
    var ps := ValidateTopology(t).pairs;
    var items := PairsAsList(ps).items;
    assert forall k :: 0 <= k < |ps| ==> Int32Min <= ps[k].0 <= Int32Max && Int32Min <= ps[k].1 <= Int32Max by {
      forall k | 0 <= k < |ps| ensures Int32Min <= ps[k].0 <= Int32Max && Int32Min <= ps[k].1 <= Int32Max {
        if t.PyNone? {
        } else {
          assert PairOf(t.items[k]) == Pair(ps[k]);
        }
      }
    }
    ConvertPairs(ps);
  }

  /** In-range int pairs, as tuples, convert to themselves. */
  lemma {:induction false} ConvertPairs(ps: seq<(int, int)>)
    requires forall k :: 0 <= k < |ps| ==> Int32Min <= ps[k].0 <= Int32Max && Int32Min <= ps[k].1 <= Int32Max
    ensures EdgesOf(PairsAsList(ps).items) == Ok(PairEdges(ps))
  {
    var items := PairsAsList(ps).items;
    if ps != [] {
      var init := ps[..|ps| - 1];
      ConvertPairs(init);
      assert items[..|items| - 1] == PairsAsList(init).items;
      assert PairEdges(ps) == PairEdges(init) + [PairEdges(ps)[|ps| - 1]];
      assert items[|items| - 1] == PairTuple(ps[|ps| - 1]);
    }
  }

  // ---------------------------------------------------------------- constructors

  /**
   * The adaptive extension's constructor with its arguments in positional
   * order (Umtx, qbit_num, level_limit, level_limit_min) and topology and
   * accelerator_num by keyword, as the Python class calls it. Returns -1 when
   * Umtx is missing, the topology is refused or qbit_num is not positive;
   * otherwise 0 and the engine object built from the converted topology.
   */
  method InitAdaptive(umtx: Option<seq<seq<Complex>>>, qbitNum: int, levelLimit: int, levelLimitMin: int,
                      topology: PyObj, acceleratorNum: int)
    returns (status: int, decomp: AdaptiveDecomposition.Decomposition?)
    ensures status == 0 || status == -1
    ensures status == 0 <==> umtx.Some? && TopologyOf(topology).Ok? && qbitNum > 0
    ensures status == -1 ==> decomp == null
    ensures status == 0 ==>
              decomp != null && fresh(decomp) && fresh(decomp.structure) && decomp.Valid() && decomp.Aligned() &&
              decomp.structure.qbitNum == qbitNum && decomp.structure.gates == [] &&
              decomp.umtx == umtx.value && decomp.levelLimit == levelLimit && decomp.levelLimitMin == levelLimitMin &&
              decomp.topology == TopologyOf(topology).value
  {
    decomp := null;
    if umtx.None? {
      return -1, null;
    }
    var edges := ConvertTopology(topology);
    if edges.Err? {
      return -1, null;
    }
    if qbitNum > 0 {
      decomp := new AdaptiveDecomposition.Decomposition(umtx.value, qbitNum, levelLimit, levelLimitMin, edges.value);
      return 0, decomp;
    }
    return -1, null;
  }

  /** What the plain extension's constructor hands to create_N_Qubit_Decomposition. */
  datatype PlainSetup = PlainSetup(umtx: seq<seq<Complex>>, qbitNum: int, optimizeLayerNum: bool, guess: GuessType)

  const QbitNumNotPositive: string := "The number of qubits should be given as a positive integer"
  const UmtxMissing: string := "Umtx not given"

  /**
   * The plain extension's constructor: Umtx must be given and qbit_num be
   * positive; the initial guess is parsed from the argument's str().
   */
  function InitPlain(umtx: Option<seq<seq<Complex>>>, qbitNum: int, optimizeLayerNum: bool, guess: string): (r: Result<PlainSetup>)
    ensures r.Ok? <==> umtx.Some? && qbitNum > 0
    ensures r.Ok? ==> r.value == PlainSetup(umtx.value, qbitNum, optimizeLayerNum, ParseGuess(guess))
  {
    if umtx.None? then Err(UmtxMissing)
    else if qbitNum > 0 then Ok(PlainSetup(umtx.value, qbitNum, optimizeLayerNum, ParseGuess(guess)))
    else Err(QbitNumNotPositive)
  }

  /** Start_Decomposition's call: finalize_decomp is always true, prepare_export defaults to true. */
  function StartDecompositionArgs(prepareExport: Option<bool>): (r: (bool, bool))
    ensures r.0
    ensures r.1 <==> prepareExport.None? || prepareExport.value
  {
    (true, if prepareExport.None? then true else prepareExport.value)
  }

  // ---------------------------------------------------------------- gate records

  /** The values of a gate record. */
  datatype Field = Text(s: string) | Integer(i: int) | Angle(r: real)

  type Record = map<string, Field>

  /** How many stored parameters the adaptive extension's record reads: three for U3, one for RX, RY, RZ, CRY and the adaptive gate. */
  function AnglesRead(k: GateKind): nat
  {
    if k.U3? then 3 else if k in {RX, RY, RZ, CRY, Adaptive} then 1 else 0
  }

  /** The name the record's "type" holds; the adaptive gate is reported as CRY. */
  function KindName(k: GateKind): string
  {
    match k
    case CNOT => "CNOT"
    case CZ => "CZ"
    case CH => "CH"
    case SYC => "SYC"
    case U3(_, _, _) => "U3"
    case RX => "RX"
    case RY => "RY"
    case RZ => "RZ"
    case CRY => "CRY"
    case Adaptive => "CRY"
    case X => "X"
    case Y => "Y"
    case Z => "Z"
    case SX => "SX"
  }

  predicate Controlled(k: GateKind)
  {
    k in {CNOT, CZ, CH, SYC, CRY, Adaptive}
  }

  /**
   * get_gate of the adaptive extension: a leaf becomes a record with its
   * type and target, its control for two-qubit kinds, and its stored
   * angles (Theta, Phi, Lambda for U3; Theta for RX, RY, CRY and the
   * adaptive gate; Phi for RZ); a block becomes an empty record.
   */
  function AdaptiveRecord(g: Gate, stored: seq<real>): (r: Record)
    requires g.Leaf? ==> AnglesRead(g.kind) <= |stored|
    ensures r == map[] <==> g.Block?
    ensures g.Leaf? ==>
              "type" in r && "target_qbit" in r &&
              r["type"] == Text(KindName(g.kind)) && r["target_qbit"] == Integer(g.target) &&
              ("control_qbit" in r <==> Controlled(g.kind)) &&
              (Controlled(g.kind) ==> r["control_qbit"] == Integer(g.control)) &&
              ("Theta" in r <==> g.kind.U3? || g.kind in {RX, RY, CRY, Adaptive}) &&
              ("Theta" in r ==> r["Theta"] == Angle(stored[0])) &&
              ("Phi" in r <==> g.kind.U3? || g.kind == RZ) &&
              ("Phi" in r ==> r["Phi"] == Angle(if g.kind.U3? then stored[1] else stored[0])) &&
              ("Lambda" in r <==> g.kind.U3?) &&
              ("Lambda" in r ==> r["Lambda"] == Angle(stored[2]))
    ensures r.Keys <= {"type", "target_qbit", "control_qbit", "Theta", "Phi", "Lambda"}
  {
    if g.Block? then map[]
    else
      var k := g.kind;
      var base := map["type" := Text(KindName(k)), "target_qbit" := Integer(g.target)];
      var ctl := if Controlled(k) then base["control_qbit" := Integer(g.control)] else base;
      assert "type" in ctl;
      if k.U3? then ctl["Theta" := Angle(stored[0])]["Phi" := Angle(stored[1])]["Lambda" := Angle(stored[2])]
      else if k in {RX, RY, CRY, Adaptive} then ctl["Theta" := Angle(stored[0])]
      else if k == RZ then ctl["Phi" := Angle(stored[0])]
      else ctl
  }

  /** The kinds the plain extension's get_gate has no branch for. */
  predicate PlainUnlisted(k: GateKind)
  {
    k in {Y, Z, CRY, Adaptive}
  }

  /**
   * get_gate of the plain extension: the same records, except that it has
   * no branch for Y, Z, CRY and the adaptive gate, whose records are empty.
   */
  function PlainRecord(g: Gate, stored: seq<real>): (r: Record)
    requires g.Leaf? ==> AnglesRead(g.kind) <= |stored|
    ensures r == map[] <==> g.Block? || PlainUnlisted(g.kind)
    ensures r != map[] ==> r == AdaptiveRecord(g, stored)
  {
    if g.Block? || PlainUnlisted(g.kind) then map[] else AdaptiveRecord(g, stored)
  }

  /** get_Gates: a tuple with the record of every gate, in order. */
  method GetGates(gs: seq<Gate>, stored: seq<seq<real>>) returns (t: seq<Record>)
    requires |stored| == |gs|
    requires forall i :: 0 <= i < |gs| ==> (gs[i].Leaf? ==> AnglesRead(gs[i].kind) <= |stored[i]|)
    ensures |t| == |gs|
    ensures forall i :: 0 <= i < |gs| ==> t[i] == AdaptiveRecord(gs[i], stored[i])
  {
    t := [];
    var idx := 0;
    while idx < |gs|
      invariant 0 <= idx <= |gs| && |t| == idx
      invariant forall i :: 0 <= i < idx ==> t[i] == AdaptiveRecord(gs[i], stored[i])
    {
      t := t + [AdaptiveRecord(gs[idx], stored[idx])];
      idx := idx + 1;
    }
  }

  // ---------------------------------------------------------------- get_Optimized_Parameters

  /** get_Optimized_Parameters: the engine's parameters copied out last to first. */
  method ReversedParameters(p: seq<real>) returns (out: array<real>)
    ensures fresh(out) && out[..] == Reverse(p)
  {
    out := new real[|p|];
    var idx := 0;
    while idx < |p|
      invariant 0 <= idx <= |p|
      invariant forall i :: 0 <= i < idx ==> out[i] == p[|p| - 1 - i]
    {
      out[idx] := p[|p| - 1 - idx];
      idx := idx + 1;
    }
    forall i | 0 <= i < |p| ensures out[i] == Reverse(p)[i] {
      ReverseAt(p, i);
    }
  }

  // ---------------------------------------------------------------- dictionary setters

  /**
   * set_Max_Layer_Num, set_Identical_Blocks and set_Iteration_Loops: a
   * non-dictionary is refused with -1 and nothing is forwarded; otherwise
   * every key/value pair, both converted to int, is forwarded in the
   * dictionary's order. The keys and values must be ints.
   */
  datatype PyDictArg = NotADict | Dict(entries: seq<(PyObj, PyObj)>)

  predicate IntEntries(d: PyDictArg)
  {
    d.Dict? ==> forall k :: 0 <= k < |d.entries| ==> d.entries[k].0.PyInt? && d.entries[k].1.PyInt?
  }

  function Converted(e: (PyObj, PyObj)): (int, int)
  {
    (ToInt32(AsLong(e.0)), ToInt32(AsLong(e.1)))
  }

  method ForwardPairs(d: PyDictArg) returns (status: int, calls: seq<(int, int)>)
    requires IntEntries(d)
    ensures d.NotADict? ==> status == -1 && calls == []
    ensures d.Dict? ==> status == 0 && |calls| == |d.entries| &&
                        forall k :: 0 <= k < |calls| ==> calls[k] == Converted(d.entries[k])
  {
    if d.NotADict? {
      return -1, [];
    }
    calls := [];
    var pos := 0;
    while pos < |d.entries|
      invariant 0 <= pos <= |d.entries| && |calls| == pos
      invariant forall k :: 0 <= k < pos ==> calls[k] == Converted(d.entries[k])
    {
      calls := calls + [Converted(d.entries[pos])];
      pos := pos + 1;
    }
    return 0, calls;
  }

  /** The forwarded calls applied to a setting map that each call overwrites (as set_identical_blocks does). */
  function Overwrite(m: map<int, int>, calls: seq<(int, int)>): (r: map<int, int>)
    ensures r.Keys == m.Keys + set k | 0 <= k < |calls| :: calls[k].0
  {
    if calls == [] then m
    else
      var r := Overwrite(m, calls[..|calls| - 1])[calls[|calls| - 1].0 := calls[|calls| - 1].1];
      assert forall k :: 0 <= k < |calls| - 1 ==> calls[..|calls| - 1][k] == calls[k];
      r
  }

  /** After overwriting, a key holds the value of its last call; keys no call names keep their value. */
  lemma {:induction false} OverwriteLast(m: map<int, int>, calls: seq<(int, int)>, key: int)
    ensures (forall k :: 0 <= k < |calls| ==> calls[k].0 != key) && key in m ==> Overwrite(m, calls)[key] == m[key]
    ensures forall k :: (0 <= k < |calls| && calls[k].0 == key && (forall j :: k < j < |calls| ==> calls[j].0 != key)) ==>
                        Overwrite(m, calls)[key] == calls[k].1
  {
    if calls != [] {
      var init := calls[..|calls| - 1];
      OverwriteLast(m, init, key);
      forall k | 0 <= k < |calls| && calls[k].0 == key && (forall j :: k < j < |calls| ==> calls[j].0 != key)
        ensures Overwrite(m, calls)[key] == calls[k].1
      {
        if k < |calls| - 1 {
          assert init[k] == calls[k];
          assert forall j :: k < j < |init| ==> init[j] == calls[j];
        }
      }
      if (forall k :: 0 <= k < |calls| ==> calls[k].0 != key) && key in m {
        assert forall k :: 0 <= k < |init| ==> init[k] == calls[k];
      }
    }
  }

  /**
   * set_Gate_Structure: the blocks are gathered into a std::map with
   * insert, which keeps the first value given for a key. The map is then
   * handed to the engine.
   */
  method GateStructureMap<B>(d: seq<(PyObj, B)>) returns (m: map<int, B>)
    requires forall k :: 0 <= k < |d| ==> d[k].0.PyInt?
    ensures m.Keys == set k | 0 <= k < |d| :: ToInt32(AsLong(d[k].0))
    ensures forall k :: 0 <= k < |d| && (forall j :: 0 <= j < k ==> ToInt32(AsLong(d[j].0)) != ToInt32(AsLong(d[k].0))) ==>
                        m[ToInt32(AsLong(d[k].0))] == d[k].1
  {
    m := map[];
    var pos := 0;
    while pos < |d|
      invariant 0 <= pos <= |d|
      invariant m.Keys == set k | 0 <= k < pos :: ToInt32(AsLong(d[k].0))
      invariant forall k :: 0 <= k < pos && (forall j :: 0 <= j < k ==> ToInt32(AsLong(d[j].0)) != ToInt32(AsLong(d[k].0))) ==>
                            m[ToInt32(AsLong(d[k].0))] == d[k].1
    {
      var key := ToInt32(AsLong(d[pos].0));
      if key !in m {
        m := m[key := d[pos].1];
      }
      pos := pos + 1;
    }
  }
}
