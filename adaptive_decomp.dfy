/**
 * The state of an adaptive decomposition and the operations that change it
 * as a whole: the constructor's defaults, start_decomposition's control flow
 * and the three calls that import, extend and apply a gate structure. The
 * decomposition is a gate block (its structure), the optimised parameter
 * vector and the unitary still to be decomposed. The optimiser runs, the
 * binary file and the matrix transformation are inputs: oracles or values
 * computed elsewhere in the model.
 */
module AdaptiveDecomposition {
  import opened Common
  import opened ComplexNum
  import opened GateTree
  import opened GatesBlocks
  import opened Settings
  import opened AdaptiveLayers
  import opened AdaptiveCompress
  import opened CryReplacement
  import Codec

  const IncreaseLevelLimit: string := "please increase level limit"

  /** How start_decomposition ends. */
  datatype Started =
    | LevelLimitTooLow
      /** The compressed structure and what replace_trivial_CRY_gates made of it. */
    | Ran(compressed: Compressed, replaced: Result<Replaced>)

  /** A structure an optimiser hands back: canonical gates on q with one parameter per structure parameter. */
  predicate Laid(c: Compressed, q: int)
  {
    AllCanonical(c.gates) && AllOnQubits(c.gates, q) && |c.params| == SumParams(c.gates)
  }

  class Decomposition {
    /** The gate list the class inherits from Gates_block. */
    const structure: GatesBlock
    /** optimized_parameters_mtx */
    var params: seq<real>
    /** Umtx, the unitary to decompose. */
    var umtx: Matrix
    var levelLimit: int
    var levelLimitMin: int
    var topology: seq<seq<int>>
    var randomized: bool
    var optimizer: Optimizer
    var maxIterations: int

    /**
     * The structure holds clones only: every gate is canonical, carries the
     * structure's qubit count, and the counters are exact.
     */
    predicate Valid()
      reads this, structure
    {
      structure.Valid() &&
      CanonicalBlock(structure.qbitNum, structure.parameterNum, structure.layerNum, structure.gates)
    }

    /** The parameter vector has one entry per parameter of the structure. */
    predicate Aligned()
      reads this, structure
    {
      |params| == structure.parameterNum
    }

    /**
     * The constructor with a topology: the level limits and the topology as
     * given, one optimiser iteration and ADAM, except BFGS with four
     * iterations up to five qubits; no randomized layers, no gates, no
     * parameters.
     */
    constructor(umtx: Matrix, qbitNum: int, levelLimit: int, levelLimitMin: int, topology: seq<seq<int>>)
      ensures fresh(structure) && Valid() && Aligned()
      ensures structure.qbitNum == qbitNum && structure.gates == [] && params == []
      ensures this.umtx == umtx && this.levelLimit == levelLimit && this.levelLimitMin == levelLimitMin
      ensures this.topology == topology && !randomized
      ensures qbitNum <= 5 ==> optimizer == Bfgs && maxIterations == 4
      ensures qbitNum > 5 ==> optimizer == Adam && maxIterations == 1
    {
      structure := new GatesBlock(qbitNum);
      params := [];
      this.umtx := umtx;
      this.levelLimit := levelLimit;
      this.levelLimitMin := levelLimitMin;
      this.topology := topology;
      randomized := false;
      if qbitNum <= 5 {
        optimizer := Bfgs;
        maxIterations := 4;
      } else {
        optimizer := Adam;
        maxIterations := 1;
      }
    }

    /**
     * add_adaptive_gate_structure, given the block and the parameters the
     * binary importer returned: the imported gates followed by the present
     * ones (both through clones), and the imported parameters followed by
     * the present ones. With no gates yet, the present parameters are
     * dropped.
     */
    method AddAdaptiveGateStructure(imported: GatesBlock, importedParams: seq<real>)
      requires Valid() && imported.Valid() && imported != structure
      modifies this, structure, imported
      ensures Valid() && structure.qbitNum == old(structure.qbitNum) && umtx == old(umtx)
      ensures old(structure.gates) != [] ==>
                structure.gates == CloneInto(old(imported.gates) + CloneInto(old(structure.gates), old(imported.qbitNum)), structure.qbitNum) &&
                params == importedParams + old(params)
      ensures old(structure.gates) == [] ==>
                structure.gates == CloneInto(old(imported.gates), structure.qbitNum) && params == importedParams
      ensures AllCanonical(old(imported.gates)) && AllOnQubits(old(imported.gates), structure.qbitNum) &&
              old(imported.qbitNum) == structure.qbitNum ==>
                structure.gates == old(imported.gates) + old(structure.gates)
      ensures old(Aligned()) && AllCanonical(old(imported.gates)) && |importedParams| == SumParams(old(imported.gates)) ==>
                Aligned()
    {
      ghost var before, first, iq := structure.gates, imported.gates, imported.qbitNum;
      if structure.gates != [] {
        PrependImported(imported, importedParams);
        PrependedClones(first, before, structure.qbitNum, iq);
      } else {
        AdoptImported(imported, importedParams);
        Cloned(first, structure.qbitNum);
      }
    }

    /** The branch with gates present: imported ones first, present ones after, parameters likewise. */
    method PrependImported(imported: GatesBlock, importedParams: seq<real>)
      requires Valid() && imported.Valid() && imported != structure
      modifies this, structure, imported
      ensures Valid() && structure.qbitNum == old(structure.qbitNum) && umtx == old(umtx)
      ensures structure.gates == CloneInto(old(imported.gates) + CloneInto(old(structure.gates), old(imported.qbitNum)), structure.qbitNum)
      ensures params == importedParams + old(params)
    {
      var q := structure.qbitNum;
      ghost var before := structure.gates;
      ghost var first := imported.gates;
      var iq := imported.qbitNum;
      imported.Combine(structure);
      ghost var both := imported.gates;
      assert both == first + CloneInto(before, iq);
      Replace(imported);
      params := importedParams + params;
    }

    /** The branch with no gates yet: the imported structure and its parameters are taken over. */
    method AdoptImported(imported: GatesBlock, importedParams: seq<real>)
      requires Valid() && structure.gates == []
      modifies this, structure
      ensures Valid() && structure.qbitNum == old(structure.qbitNum) && umtx == old(umtx)
      ensures structure.gates == CloneInto(old(imported.gates), structure.qbitNum)
      ensures params == importedParams
    {
      var q := structure.qbitNum;
      ghost var first := imported.gates;
      structure.Combine(imported);
      params := importedParams;
      Cloned(first, q);
      assert structure.gates == CloneInto(first, q);
    }

    /** release_gates followed by combine(src): the structure becomes clones of src's gates. */
    method Replace(src: GatesBlock)
      requires Valid() && src != structure
      modifies structure
      ensures Valid() && structure.qbitNum == old(structure.qbitNum)
      ensures structure.gates == CloneInto(old(src.gates), structure.qbitNum)
    {
      var q := structure.qbitNum;
      structure.ReleaseGates();
      structure.Combine(src);
      Cloned(src.gates, q);
      assert structure.gates == CloneInto(src.gates, q);
    }

    /**
     * apply_imported_gate_structure: with no gates nothing happens;
     * otherwise the unitary becomes the one the structure transforms it
     * into, and the structure and the parameters are released.
     */
    method ApplyImportedGateStructure(transform: (seq<Gate>, seq<real>, Matrix) -> Matrix)
      requires Valid()
      modifies this, structure
      ensures Valid() && structure.qbitNum == old(structure.qbitNum)
      ensures old(structure.gates) == [] ==> unchanged(this) && unchanged(structure)
      ensures old(structure.gates) != [] ==>
                umtx == transform(old(structure.gates), old(params), old(umtx)) &&
                structure.gates == [] && params == [] && Aligned()
    {
      if structure.gates == [] {
        return;
      }
      umtx := transform(structure.gates, params, umtx);
      structure.ReleaseGates();
      params := [];
    }

    /**
     * add_layer_to_imported_gate_structure: the adaptive layers built from
     * the topology are combined into the structure, and the parameter
     * vector grows by as many zeros as they have parameters. A bad topology
     * edge ends it with the source's message and nothing changed.
     */
    method AddLayerToImportedGateStructure(draw: nat -> nat) returns (exited: Option<string>)
      requires Valid()
      modifies this, structure
      ensures Valid() && structure.qbitNum == old(structure.qbitNum) && umtx == old(umtx)
      ensures exited.Some? <==> LayerPairs(topology, structure.qbitNum).Err?
      ensures exited.Some? ==> exited.value == LayerPairs(topology, structure.qbitNum).msg &&
                               unchanged(structure) && params == old(params)
      ensures exited.None? ==>
                var ps := LayerPairs(topology, structure.qbitNum).value;
                |structure.gates| == |old(structure.gates)| + |ps| &&
                structure.gates[..|old(structure.gates)|] == old(structure.gates) &&
                params == old(params) + Codec.Zeros(7 * |ps|) &&
                (!randomized ==> structure.gates == old(structure.gates) + Reverse(LayersOf(structure.qbitNum, ps)))
      ensures old(Aligned()) ==> Aligned()
    {
      var n := structure.qbitNum;
      var r := ConstructAdaptiveGateLayers(n, topology, randomized, draw);
      if r.Err? {
        return Some(r.msg);
      }
      var layer := r.value;
      ShapedCounts(layer.gates, n);
      CloneIntoOwn(layer.gates, n);
      ghost var before := structure.gates;
      structure.Combine(layer);
      assert structure.gates == before + layer.gates;
      CanonicalAppend(n, before, layer.gates);
      SumParamsAppend(before, layer.gates);
      BlockCountAppend(before, layer.gates);
      params := params + Codec.Zeros(layer.parameterNum);
      assert structure.gates[..|before|] == before;
      return None;
    }

    /**
     * The compressed structure stored as the decomposing structure: the
     * structure is released and receives clones of the gathered gates, the
     * parameters become the compressed ones.
     */
    method StoreCompressed(loc: GatesBlock, c: Compressed)
      requires Valid() && loc != structure && Laid(c, structure.qbitNum) && loc.gates == c.gates
      modifies this, structure
      ensures Valid() && structure.qbitNum == old(structure.qbitNum) && umtx == old(umtx)
      ensures structure.gates == c.gates && params == c.params && Aligned()
    {
      Replace(loc);
      CloneIntoOwn(c.gates, structure.qbitNum);
      params := c.params;
    }

    /**
     * The rewritten structure replaces the stored one and the final
     * optimisation sets the parameters.
     */
    method StoreReplaced(tmp: GatesBlock, out: seq<real>, finalize: (seq<Gate>, seq<real>) -> seq<real>)
      requires Valid() && tmp != structure
      modifies this, structure
      ensures Valid() && structure.qbitNum == old(structure.qbitNum) && umtx == old(umtx)
      ensures structure.gates == CloneInto(old(tmp.gates), structure.qbitNum)
      ensures params == finalize(structure.gates, out)
    {
      Replace(tmp);
      params := finalize(structure.gates, out);
    }

    /**
     * start_decomposition's control flow. A level limit of 0 ends it at
     * once. Otherwise the imported structure is optimised (or, with no
     * gates, the initial structure is determined), the compression loop
     * runs, the result is stored as the structure, replace_trivial_CRY_gates
     * rewrites it, and the final optimisation sets the parameters.
     * optimizeImported, initial, step and finalize stand for the optimiser
     * runs; when replace_trivial_CRY_gates exits, the structure stored
     * before it is what remains.
     */
    method StartDecomposition(optimizeImported: (seq<Gate>, seq<real>) -> Compressed, initial: Compressed,
                              step: (nat, Compressed) -> Compressed, num: Numerics,
                              finalize: (seq<Gate>, seq<real>) -> seq<real>)
      returns (r: Started)
      requires Valid()
      requires Laid(initial, structure.qbitNum)
      requires forall gs, ps {:trigger optimizeImported(gs, ps)} :: Laid(optimizeImported(gs, ps), structure.qbitNum)
      requires forall k: nat, g: Compressed {:trigger step(k, g)} ::
                 |step(k, g).gates| <= |g.gates| && Laid(step(k, g), structure.qbitNum)
      modifies this, structure
      ensures Valid() && structure.qbitNum == old(structure.qbitNum)
      ensures r.LevelLimitTooLow? <==> old(levelLimit) == 0
      ensures r.LevelLimitTooLow? ==> unchanged(this) && unchanged(structure)
      ensures r.Ran? ==>
                var start := if old(structure.gates) != [] then optimizeImported(old(structure.gates), old(params)) else initial;
                |r.compressed.gates| <= |start.gates| && Laid(r.compressed, structure.qbitNum) &&
                (r.compressed == start || exists k: nat, g: Compressed {:trigger step(k, g)} :: r.compressed == step(k, g)) &&
                Consumed(r.compressed.gates) <= |r.compressed.params| &&
                r.replaced == ReplaceCry(r.compressed.gates, r.compressed.params, structure.qbitNum, num)
      ensures r.Ran? && r.replaced.Err? ==>
                structure.gates == r.compressed.gates && params == r.compressed.params
      ensures r.Ran? && r.replaced.Ok? ==>
                structure.gates == CloneInto(r.replaced.value.gates, structure.qbitNum) &&
                |structure.gates| == |r.compressed.gates| &&
                params == finalize(structure.gates, r.replaced.value.params)
    {
      if levelLimit == 0 {
        return LevelLimitTooLow;
      }
      var start;
      if structure.gates != [] {
        start := optimizeImported(structure.gates, params);
      } else {
        start := initial;
      }
      var compressed, _, _ := CompressionLoop(start, step);
      var loc := Gather(compressed, structure.qbitNum);
      StoreCompressed(loc, compressed);
      ConsumedCanonical(compressed.gates);
      var replaced, out := ReplaceTrivialCryGates(loc, params, structure.qbitNum, num);
      if replaced.Err? {
        return Ran(compressed, Err(replaced.msg));
      }
      StoreReplaced(replaced.value, out, finalize);
      return Ran(compressed, ReplaceCry(compressed.gates, compressed.params, structure.qbitNum, num));
    }
  }

  /** Canonical gates on q, gathered in a fresh block on q, make a canonical tree. */
  lemma Gathered(q: int, gs: seq<Gate>)
    requires AllCanonical(gs) && AllOnQubits(gs, q)
    ensures CanonicalBlock(q, SumParams(gs), BlockCount(gs), gs)
  {
    CanonicalAppend(q, [], gs);
    assert [] + gs == gs;
  }

  /** What a structure cloned into q from gs is: canonical on q, with gs's counts when gs is canonical, gs itself when gs is already on q. */
  lemma Cloned(gs: seq<Gate>, q: int)
    ensures CanonicalBlock(q, SumParams(CloneInto(gs, q)), BlockCount(CloneInto(gs, q)), CloneInto(gs, q))
    ensures AllCanonical(gs) ==> SumParams(CloneInto(gs, q)) == SumParams(gs)
    ensures AllCanonical(gs) && AllOnQubits(gs, q) ==> CloneInto(gs, q) == gs
  {
    CloneIntoCanonical(gs, q);
    Gathered(q, CloneInto(gs, q));
    if AllCanonical(gs) {
      CloneIntoCounts(gs, q);
    }
    if AllCanonical(gs) && AllOnQubits(gs, q) {
      CloneIntoOwn(gs, q);
    }
  }

  /**
   * The imported gates followed by clones of a canonical structure on q,
   * all cloned into q: canonical on q, with the summed parameter counts,
   * and the plain concatenation when the imported gates are on q already.
   */
  lemma PrependedClones(first: seq<Gate>, before: seq<Gate>, q: int, iq: int)
    requires AllCanonical(before) && AllOnQubits(before, q)
    ensures var g := CloneInto(first + CloneInto(before, iq), q);
            CanonicalBlock(q, SumParams(g), BlockCount(g), g)
    ensures AllCanonical(first) ==>
              SumParams(CloneInto(first + CloneInto(before, iq), q)) == SumParams(first) + SumParams(before)
    ensures AllCanonical(first) && AllOnQubits(first, q) && iq == q ==>
              CloneInto(first + CloneInto(before, iq), q) == first + before
  {
    var mid := CloneInto(before, iq);
    Cloned(first + mid, q);
    CloneIntoAppend(first, mid, q);
    Cloned(first, q);
    CloneIntoCanonical(before, iq);
    Cloned(mid, q);
    CloneIntoCounts(before, iq);
    SumParamsAppend(CloneInto(first, q), CloneInto(mid, q));
    if iq == q {
      Cloned(before, q);
    }
  }

  /** gate_structure_loc: a fresh block on q to which the compressed gates are added in order. */
  method Gather(c: Compressed, q: int) returns (loc: GatesBlock)
    requires Laid(c, q)
    ensures fresh(loc) && loc.Valid() && loc.qbitNum == q && loc.gates == c.gates
  {
    loc := new GatesBlock(q);
    loc.AddGatesToEnd(c.gates);
    AllWithOwnQbitNum(c.gates, q);
    assert [] + c.gates == c.gates;
  }

  /** Canonical gates already on q are unchanged by set_qbit_num(q). */
  lemma AllWithOwnQbitNum(gs: seq<Gate>, q: int)
    requires AllCanonical(gs) && AllOnQubits(gs, q)
    ensures AllWithQbitNum(gs, q) == gs
  {
    forall i | 0 <= i < |gs| ensures AllWithQbitNum(gs, q)[i] == gs[i] {
      WithOwnQbitNum(gs[i]);
    }
  }
}
