# Sequential quantum gate decomposer: a Dafny model of its discrete core

The decomposer rewrites a 2^n x 2^n unitary as a circuit of one- and
two-qubit gates. The numerics (the cost functions and the optimisers) are
left to oracles. This project models the bookkeeping around them:

- the gate-block tree (`Gates_block`) with its parameter and layer counters, its flat parameter layout, clone, combine, qubit relabelling and the binary export/import format;
- the exact single-qubit gates X, Y, Z and SX, together with RZ and Composite, as in-place row and column sweeps over a complex matrix;
- the adaptive decomposer's layer construction, parameter-vector surgery, penalty-based compression, CRY replacement, level search and start-up control flow;
- the sub-matrix decomposer's default and custom layers, its identical-blocks map, the disentangling loop and the keep-the-best optimisation rounds;
- the Python classes' Qiskit-circuit importers, their Qiskit and Cirq exporters, and the C extension wrappers' argument parsing and gate records.

Values are datatypes (`Gate`, `Result`, `Option`). Objects whose fields
the source updates in place are classes: `GatesBlock`, `Composite`, `RZ`,
`Decomposition` and `SubMatrixDecomposition`. Each loop in the source is a
method proved against a specification function, and the properties the
source promises are lemmas about those functions.

Modules, one per file, leaf first:
- `Common`, `Bits`, `ComplexNum`, `Kernels` and `Qubits`: sequence helpers, bit arithmetic, exact complex numbers, matrix sweeps and qubit relabelling;
- `FixedGates`, `RotationZ` and `CompositeGate`: the individual gates;
- `GateTree`, `GatesBlocks`, `Dfe` and `Codec`: the block container, DFE sizing and the binary format;
- `Settings`, `AdaptiveLayers`, `AdaptiveCompress`, `CryReplacement` and `AdaptiveDecomposition`: the adaptive decomposer;
- `SubMatrix`: the sub-matrix decomposer;
- `CircuitImport`, `CircuitExport` and `Wrappers`: the Python layer.

## Model

| member | source | states |
|---|---|---|
| Bits.PartnerInRange | gates/X.cpp:153-192 | in a 2^n-row matrix, a row whose bit t is clear has its partner row r + 2^t inside the matrix |
| Bits.PowerOfTwoFits | gates/X.cpp:153-192 | for t < n the rows 0..2^n-1 split into the pairs (r, r + 2^t) the kernel acts on |
| Kernels.ApplyKernelTo | gates/X.cpp:153-192 | the in-place pair sweep leaves the array equal to the kernel applied from the left on qubit t to the old contents (ApplyRows) |
| Kernels.ApplyKernelFromRight | gates/X.cpp:227-269 | the in-place column sweep leaves the array equal to the old contents times the kernel on qubit t (ApplyCols) |
| Kernels.RowsAt | gates/SX.cpp:152-198 | entry (i, j) after a kernel [a b; c d] from the left: a*m[i][j] + b*m[i+2^t][j] for a row with bit t clear, c*m[i-2^t][j] + d*m[i][j] for its partner |
| Kernels.ColsAt | gates/SX.cpp:232-280 | entry (i, j) after a kernel from the right: a*m[i][j] + c*m[i][j+2^t] for a column with bit t clear, b*m[i][j-2^t] + d*m[i][j] for its partner |
| Kernels.ColsAreTransposedRows | gates/SX.cpp:258-266 | acting from the right with k is acting from the left with k transposed on the transposed matrix |
| Kernels.NewIdentity | gates/X.cpp:109 | create_identity: a fresh size x size array holding the identity matrix |
| FixedGates.New | gates/X.cpp:62-88 | the constructor (the same for Y, Z and SX) fails exactly when target >= qbit_num; otherwise matrix size 2^qbit_num, no parameters, control -1, the given kind, qubit count and target |
| FixedGates.Clone | gates/X.cpp:279-285 | the clone equals the original gate: same kind, qubit count and target |
| FixedGates.ApplyTo | gates/X.cpp:131-194 | succeeds exactly when the row count is the matrix size, then the input becomes the gate's exact kernel applied from the left on the target; a refused input is unchanged |
| FixedGates.ApplyFromRight | gates/X.cpp:204-271 | succeeds exactly when the column count is the matrix size, then the input becomes input times the kernel on the target; a refused input is unchanged |
| FixedGates.GetMatrix | gates/X.cpp:106-121 | a fresh 2^n x 2^n matrix equal to apply_to on the identity |
| FixedGates.XSquare | gates/X.cpp:141-146 | the X kernel [[0,1],[1,0]] squares to the identity kernel |
| FixedGates.YSquare | gates/Y.cpp:141-146 | the Y kernel [[0,-i],[i,0]] squares to the identity kernel |
| FixedGates.ZSquare | gates/Z.cpp:141-146 | the Z kernel diag(1,-1) squares to the identity kernel |
| FixedGates.SXSquare | gates/SX.cpp:141-146 | the SX kernel with entries 0.5+0.5i, 0.5-0.5i, 0.5-0.5i, 0.5+0.5i squares to the X kernel: SX is a square root of X |
| FixedGates.PauliTwiceRestoresRows | gates/X.cpp:131-194 | applying X, Y or Z twice on the same target from the left restores the input |
| FixedGates.PauliTwiceRestoresCols | gates/X.cpp:204-271 | applying X, Y or Z twice on the same target from the right restores the input |
| FixedGates.SXTwiceIsXRows | gates/SX.cpp:131-200 | applying SX twice from the left is applying X |
| FixedGates.SXTwiceIsXCols | gates/SX.cpp:211-282 | applying SX twice from the right is applying X from the right |
| FixedGates.SXFromRightIsTransposed | gates/SX.cpp:258-266 | SX from the right equals SX from the left on the transpose, transposed back, since the kernel is symmetric |
| FixedGates.XSwapsRows | gates/X.cpp:153-192 | X from the left replaces every row by its partner across bit t and nothing else |
| FixedGates.XSwapsCols | gates/X.cpp:227-269 | X from the right replaces every column by its partner across bit t |
| FixedGates.ZNegatesRows | gates/Z.cpp:141-149 | Z from the left negates exactly the rows whose index has bit t set |
| FixedGates.ZNegatesCols | gates/Z.cpp:176-184 | Z from the right negates exactly the columns whose index has bit t set |
| FixedGates.YRotatesPairs | gates/Y.cpp:141-149 | Y from the left: a row with bit t clear becomes -i times its partner, the partner becomes i times the old row |
| FixedGates.XMatrixIsBitFlip | gates/X.cpp:106-121 | the matrix of X is the permutation matrix that flips bit t of the index |
| FixedGates.ZMatrixIsDiagonal | gates/Z.cpp:106-121 | the matrix of Z is diagonal with -1 exactly where bit t of the index is set |
| RotationZ.DerivativeClearsLowRows | gates/RZ.cpp:218-235 | the derivative kernel (Phi + pi/2, first kernel row zeroed) leaves the low row of every pair zero |
| RotationZ.RZ.New | gates/RZ.cpp:74-119 | no gate exactly when target >= qbit_num; otherwise theta = false, phi = true, lambda = false, Theta0 = Lambda0 = 0, one parameter, control -1 |
| RotationZ.RZ.ApplyTo | gates/RZ.cpp:139-163 | succeeds exactly when the row count is the matrix size; the input becomes the U3 kernel for (0, parameters[0], 0) applied from the left; otherwise unchanged |
| RotationZ.RZ.ApplyFromRight | gates/RZ.cpp:173-198 | succeeds exactly when the column count is the matrix size; the input becomes input times the U3 kernel for (0, parameters[0], 0) |
| RotationZ.RZ.ApplyDerivateTo | gates/RZ.cpp:206-238 | on a matching row count, a list of exactly one matrix: the derivative kernel applied to a copy of the input; otherwise no matrix |
| RotationZ.RZ.SetOptimizedParameters | gates/RZ.cpp:249-255 | the stored parameters become [phi], nothing else changes |
| RotationZ.RZ.GetOptimizedParameters | gates/RZ.cpp:262-266 | a copy of the stored parameters, one entry long |
| RotationZ.RZ.Clone | gates/RZ.cpp:273-284 | a fresh gate on the same qubits carrying the same parameter |
| RotationZ.SetThenGet | gates/RZ.cpp:249-266 | set_optimized_parameters(phi) then get_optimized_parameters returns [phi] |
| CompositeGate.AsUnsigned32 | gates/Composite.cpp:233-236 | the unsigned 32-bit value get_parameter_num returns: the count itself when it fits, the count plus 2^32 when it is negative |
| CompositeGate.ParameterCountIsPairs | gates/Composite.cpp:70 | parameter_num is the number of pairs among 2^qbit_num / 2 elements, minus five |
| CompositeGate.NegativeCountForSmallGates | gates/Composite.cpp:70 | the count is negative exactly for qbit_num <= 2, and get_parameter_num then returns at least 2^32 - 5 |
| CompositeGate.FromRightCheckDisagrees | gates/Composite.cpp:152-163 | on a non-square input the written row check of apply_from_right and the column check input * gate needs disagree |
| CompositeGate.FromRightChecksAgreeOnSquare | gates/Composite.cpp:152-163 | on square inputs the two checks agree |
| CompositeGate.Composite.constructor | gates/Composite.cpp:57-71 | a gate on qbit_num qubits with matrix size 2^qbit_num, target and control -1 and the formula's parameter count |
| CompositeGate.Composite.SetQbitNum | gates/Composite.cpp:84-95 | the qubit count changes and the matrix size and parameter count are recomputed from it; target, control and parameters stay |
| CompositeGate.Composite.GetParameterNum | gates/Composite.cpp:233-236 | the stored count when it fits in 32 unsigned bits, always below 2^32 |
| CompositeGate.Composite.ReorderQubits | gates/Composite.cpp:181-205 | succeeds exactly when the list length is qbit_num; then target and control are relabelled to n-1-idx of their last position in the list, or kept when absent; otherwise nothing changes |
| CompositeGate.Composite.SetOptimizedParameters | gates/Composite.cpp:212-216 | the stored parameters become the given vector; nothing else changes |
| CompositeGate.Composite.GetOptimizedParameters | gates/Composite.cpp:223-227 | a copy of the stored parameters |
| CompositeGate.Composite.Clone | gates/Composite.cpp:263-273 | a fresh gate on the same qubit count with the same parameters; target and control start from -1 again |
| CompositeGate.ReorderKeepsDistinct | gates/Composite.cpp:181-205 | with a permutation list, a distinct target and control stay distinct and in range after relabelling, and no control stays -1 |
| Qubits.LastIndex | gates/Composite.cpp:192-199 | the last position of q in the list, or none exactly when q does not occur; the loop lets the last match win |
| Qubits.RelabelOfEntry | gates/Composite.cpp:192-199 | with a permutation list, the qubit at position idx becomes n-1-idx |
| Qubits.RelabelInRange | gates/Composite.cpp:192-199 | with a permutation list, qubits 0..n-1 stay within 0..n-1 |
| Qubits.RelabelInjective | gates/Composite.cpp:192-199 | with a permutation list, distinct qubits get distinct labels |
| Qubits.RelabelOnto | gates/Composite.cpp:192-199 | with a permutation list, every label 0..n-1 is reached |
| Qubits.RelabelKeepsNone | gates/Composite.cpp:192-199 | with a permutation list, "no qubit" (-1) keeps its label |
| Dfe.GatesTotal | gates/Gates_block.cpp:2387-2388 | gates_total_num is the number of leaves of the block at every depth |
| Dfe.PaddedIsLeastMultiple | gates/Gates_block.cpp:2390-2391 | with derivatives, gatesNum is the least multiple of chained_gates_num that is at least the gate total |
| Dfe.ChunkedVersusPadded | gates/Gates_block.cpp:2740-2741 | convert_to_DFE_gates' padding agrees with the least multiple except on an exact multiple, where it adds one whole chunk more |
| Dfe.RoundGateSetsIsLeastMultiple | gates/Gates_block.cpp:2398-2418 | gateSetNum is rounded up to the least multiple of 4 (times the MPI world size) and redundantGateSets is the amount added, zero exactly when no rounding was needed |
| Dfe.SizesWithDerivatesMeaning | gates/Gates_block.cpp:2379-2418 | an error exactly when the parameter counter differs from the vector length; otherwise the padded gate count, and the gate-set count rounded with its redundant sets |
| Dfe.GatesNumPlain | gates/Gates_block.cpp:2728-2741 | an error exactly when the counter differs from the vector length; otherwise the chunked gate count |
| Dfe.SizesExample | gates/Gates_block.cpp:2390-2416 | four leaves chained in threes pad to 6 either way; six pad to 6 with derivatives and to 9 without; five gate sets round to 8 with 3 redundant |
| Settings.CostFunctionOf | decomposition/include/N_Qubit_Decomposition_Base.h:30 | an enumerator exactly for the codes 0..5, and it carries that code |
| Settings.CostFunctionCodes | decomposition/include/N_Qubit_Decomposition_Base.h:30 | codes and enumerators of cost_function_type correspond one to one |
| FixedGates.PauliSelfInverse | gates/X.cpp:141-146 | the X, Y and Z kernels are each their own inverse |
| Settings.CostFunctionCode | decomposition/include/N_Qubit_Decomposition_Base.h:30 | every enumerator of cost_function_type stands for one of the codes 0..5 |
| GateTree.LeafParams | gates/Gates_block.cpp:761-1298 | a U3 owns one parameter per angle flag that is set; RX, RY, RZ, CRY and the adaptive gate own one; CNOT, CZ, CH, SYC, X, Y, Z and SX own none |
| GateTree.SumParamsAppend | gates/Gates_block.cpp:1515-1517 | the parameter count of two lists one after the other is the sum of their counts |
| GateTree.CanonicalCountsLeaves | gates/Gates_block.cpp:1515-1517 | in a tree whose block counters are exact, the stored counters add up to the parameters the leaves own at every depth |
| GateTree.WithQbitNum | gates/Gates_block.cpp:2071-2160 | set_qbit_num gives the gate (and, for a block, every child) the new qubit count; kind, target, control and counters are kept |
| GateTree.AllWithQbitNumCounts | gates/Gates_block.cpp:2071-2160 | passing a qubit count down a list keeps its parameter count and its number of blocks |
| GateTree.WithQbitNumCanonical | gates/Gates_block.cpp:2071-2160 | passing a qubit count down keeps the block counters exact |
| GateTree.WithOwnQbitNum | gates/Gates_block.cpp:2071-2160 | in an exact tree, set_qbit_num with the gate's own qubit count changes nothing |
| GateTree.CloneGate | gates/Gates_block.cpp:2167-2182 | a clone has the original's shape (leaf or block) and qubit count |
| GateTree.CloneIsCanonical | gates/Gates_block.cpp:2167-2182 | a cloned block is rebuilt by add_gate_to_end, so its counters are always exact |
| GateTree.CloneOfCanonical | gates/Gates_block.cpp:2167-2182 | cloning a tree whose counters are exact gives back the same tree |
| GateTree.CloneIntoCounts | gates/Gates_block.cpp:2190-2318 | cloning exact gates into any qubit count keeps their parameter count and their number of blocks |
| GateTree.CloneIntoAppend | gates/Gates_block.cpp:1937-2064 | cloning two lists one after the other clones each in turn |
| GateTree.RelabelGate | gates/Gates_block.cpp:1788-1874 | reorder_qubits on one gate: a leaf's target and control are relabelled by the reordered list, a block relabels its children, counters and kinds stay |
| GateTree.RelabelKeepsCounts | gates/Gates_block.cpp:1788-1874 | relabelling keeps the parameter count and the number of blocks |
| GateTree.RelabelFlattens | gates/Gates_block.cpp:1788-1874 | relabelling a tree relabels exactly its leaves, in the same order |
| GateTree.TallyTotal | gates/Gates_block.cpp:1378-1508 | the total of a tally of leaves is the number of leaves |
| GateTree.GateNumsCountLeaves | gates/Gates_block.cpp:1378-1508 | get_gate_nums is the one-leaf-at-a-time tally of all leaves at every depth, and its total is the number of those leaves |
| GateTree.ContainsAdaptiveIsSearch | gates/Gates_block.cpp:2326-2343 | contains_adaptive_gate is true exactly when an adaptive leaf occurs among the leaves at every depth |
| GatesBlocks.OffsetStep | gates/Gates_block.cpp:518-521 | gate i + 1's parameters start where gate i's end |
| GatesBlocks.OffsetBounded | gates/Gates_block.cpp:518-521 | every gate's offset lies within the block's parameter count |
| GatesBlocks.Slice | gates/Gates_block.cpp:279-280 | the parameters gate i receives are exactly as many as it owns |
| GatesBlocks.SlicesTile | gates/Gates_block.cpp:384-491 | the slices of gates 0..n-1, in order, tile the parameter vector up to gate n's offset |
| GatesBlocks.InvolvedQubitsSpec | gates/Gates_block.cpp:1882-1907 | get_involved_qubits lists distinct qubits, and q is among them exactly when q is not -1 and some top-level gate has it as target or control |
| GatesBlocks.InvolvedQubitsGrow | gates/Gates_block.cpp:1882-1907 | qubits keep the place they got when first seen: the list for a prefix of the gates is a prefix of the whole list |
| GatesBlocks.AddGatesAsWrittenTurnsAre | gates/Gates_block.cpp:1180-1187 | the last m turns of the written loop insert, each at the front, the gates from position n-m+1 to n-1 and then what lies past the end |
| GatesBlocks.AddGatesAsWrittenMissesFirst | gates/Gates_block.cpp:1180-1187 | for a non-empty list the written loop leaves gates 1..n-1 in front, in order, followed by what lies past the end; gate 0 is never added, and the list comes out unchanged only when every gate equals what lies past the end |
| GatesBlocks.GetGateAsWritten | gates/Gates_block.cpp:1923-1930 | the written guard accepts exactly the indices not above the gate count: the count itself and every negative index pass |
| GatesBlocks.GetGateAsWrittenPassesEnd | gates/Gates_block.cpp:1923-1930 | the index equal to the gate count and the index -1 pass the written guard and are refused by the intended one |
| GatesBlocks.GetGate | gates/Gates_block.cpp:1923-1930 | with the intended guard a gate is returned exactly for 0 <= idx < count, and it is gate idx |
| GatesBlocks.GatesBlock.constructor | gates/Gates_block.cpp:64-70 | an empty block on the given qubit count with both counters zero |
| GatesBlocks.GatesBlock.AddGateToEnd | gates/Gates_block.cpp:1306-1322 | the gate, given the block's qubit count, goes last; parameter_num grows by its count; layer_num grows by one exactly for a nested block |
| GatesBlocks.GatesBlock.AddGate | gates/Gates_block.cpp:1328-1344 | the gate, given the block's qubit count, goes first; the same counter updates |
| GatesBlocks.GatesBlock.InsertGate | gates/Gates_block.cpp:1353-1370 | the gate goes to position idx and the others keep their order; the same counter updates |
| GatesBlocks.GatesBlock.AddGatesToEnd | gates/Gates_block.cpp:1167-1173 | each gate of the list appended in order; parameter_num grows by their sum and layer_num by their number of blocks |
| GatesBlocks.GatesBlock.AddGates | gates/Gates_block.cpp:1180-1187 | with the intended loop the list ends up in front in its own order; the same counter updates |
| GatesBlocks.GatesBlock.ReleaseGate | gates/Gates_block.cpp:207-217 | an index past the end changes nothing; otherwise exactly gate idx leaves and parameter_num drops by its count; layer_num never changes |
| GatesBlocks.GatesBlock.ReleaseGates | gates/Gates_block.cpp:86-200 | no gates left, both counters zero |
| GatesBlocks.GatesBlock.SetQbitNum | gates/Gates_block.cpp:2071-2160 | the block and every gate in it take the new qubit count; counters unchanged |
| GatesBlocks.GatesBlock.ReorderQubits | gates/Gates_block.cpp:1788-1874 | every gate at every depth is relabelled by the list; qubit count and counters unchanged |
| GatesBlocks.GatesBlock.GetInvolvedQubits | gates/Gates_block.cpp:1882-1907 | the loop returns the distinct involved qubits in first-occurrence order (InvolvedQubitsSpec) |
| GatesBlocks.GatesBlock.Combine | gates/Gates_block.cpp:1937-2064 | a clone of each of the other block's gates, given this block's qubit count, appended in order, with both counters grown by the clones' counts |
| GatesBlocks.GatesBlock.ExtractGates | gates/Gates_block.cpp:2190-2318 | the target is emptied and receives a clone of every gate in order on its own qubit count, its counters exact; returns 0 |
| GatesBlocks.GatesBlock.Clone | gates/Gates_block.cpp:2167-2182 | a fresh block equal to the clone of this block as a tree value |
| GatesBlocks.GatesBlock.ApplyToWalk | gates/Gates_block.cpp:271-281 | apply_to visits the gates from the last to the first, each receiving its own slice of the layout, and the walking offset ends at 0 |
| GatesBlocks.GatesBlock.ApplyFromRightWalk | gates/Gates_block.cpp:384-491 | apply_from_right visits the gates from the first, each receiving its own slice of the same layout |
| GatesBlocks.GatesBlock.DerivParameterIdx | gates/Gates_block.cpp:518-521 | deriv_parameter_idx is gate deriv_idx's offset in the layout |
| GatesBlocks.CloneOfCanonicalBlock | gates/Gates_block.cpp:2167-2182 | cloning a block whose counters are exact gives the same block |
| Codec.TagKindOfType | gates/Gates_block.cpp:3268-3503 | every leaf kind other than U3 written under its gate-type tag is read back as that kind |
| Codec.ReadLeafWords | gates/Gates_block.cpp:3268-3503 | the record the exporter writes for a leaf (type, target, control if it has one, U3 flags, parameters) reads back as that leaf with its parameters, ending just after it |
| Codec.ReadBlockWords | gates/Gates_block.cpp:3465-3485 | a BLOCK record reads back as its qubit count, parameter count and gate count, four words long |
| Codec.DblsAtWords | gates/Gates_block.cpp:3344 | the doubles written for a gate's parameters read back as the same values |
| Codec.ReadRecord | gates/Gates_block.cpp:3268-3508 | a record that is read always moves the file position forward |
| Codec.Run | gates/Gates_block.cpp:3265-3522 | the loop stops with at most iter_max iterations, either because the outermost level expects no more records or because iter_max was reached |
| Codec.Sized | gates/Gates_block.cpp:3248 | the parameter vector has the header's length and starts with the parameters read; more parameters than the header declares is an error |
| Codec.ExportHeader | gates/Gates_block.cpp:3109-3121 | the exported file starts with qbit_num, parameter_num and the gate count, and the importer reads them back |
| Codec.ListDeltaIs | gates/Gates_block.cpp:3265-3522 | reading the records of a list adds to the current level the leaf parameters, the block count and the decoded gates, uses one iteration per record and appends the list's parameters in forward order |
| Codec.ExportRun | gates/Gates_block.cpp:3265-3522 | the import loop over an exported block ends exactly at the end of the file, one iteration per record, with every gate read back into the outermost level |
| Codec.ImportAsWritten | gates/Gates_block.cpp:3234-3536 | a successful import read a well-formed header and returns a parameter vector as long as the header says |
| Codec.Import | gates/Gates_block.cpp:3234-3536 | the importer as intended: a successful import returns a block whose counters are exact and a parameter vector of the header's length |
| Codec.RoundTripAsWritten | gates/Gates_block.cpp:3234-3536 | export then import as written gives back the tree with only each block's own leaf parameters counted, and the block's parameters in order, when fewer than iter_max records were written |
| Codec.ExactLimitRejected | gates/Gates_block.cpp:3529-3532 | a file of exactly iter_max records is refused as corrupted although the loop read all of it |
| Codec.CloneOfDecoded | gates/Gates_block.cpp:2167-2182 | cloning the tree the importer rebuilds recomputes the counters it left short and gives the original tree |
| Codec.RoundTrip | gates/Gates_block.cpp:3234-3536 | export then import as intended gives back the same block, qubit counts, kinds, targets, controls and U3 flags, and its parameter vector, up to and including iter_max records |
| Codec.StepStack | gates/Gates_block.cpp:3268-3518 | one record on the two level stacks: a BLOCK adds the new block to the current level and pushes a level for it, a leaf is added to the current level; then one level may close; the same outcome as the value-level step, errors included |
| Codec.CloseStack | gates/Gates_block.cpp:3512-3518 | a level that expects no more records is popped and its parent expects one fewer; popping the outermost level is an error |
| Codec.ImportTurn | gates/Gates_block.cpp:3266-3521 | one turn of the while loop: read a record, change the level stacks, append the parameters read, with the same result or error as one step of the value-level loop |
| Codec.ImportLoop | gates/Gates_block.cpp:3255-3522 | the while loop ends as the value-level loop ends from the header's start state |
| Codec.ImportFile | gates/Gates_block.cpp:3234-3536 | the whole import over the words of a file: header, loop, iteration check and parameter vector, equal to the value-level importer as written |
| Codec.LimitBlockExportable | gates/Gates_block.cpp:3263 | a block holding one nested block of iter_max - 1 X gates is exportable and writes exactly iter_max records |
| Codec.ExactLimitExample | gates/Gates_block.cpp:3529-3532 | that block's file is refused as written and read back whole as intended |
| Codec.CountersAsWritten | gates/Gates_block.cpp:3465-3485 | read back as written, the top block's parameter counter holds only its own leaves' parameters, while the parameter vector holds them all |
| Codec.NestedParamsLost | gates/Gates_block.cpp:3465-3485 | a block nested two deep has one parameter while its own leaves carry none, so by CountersAsWritten it is read back with a parameter counter of 0 instead of 1 |
| AdaptiveLayers.PairLayerShape | decomposition/N_Qubit_Decomposition_adaptive.cpp:1390-1397 | the sub-block of one qubit pair is a canonical block of two 3-parameter U3 gates and one adaptive gate: 7 parameters and no nested block |
| AdaptiveLayers.BuildPairLayer | decomposition/N_Qubit_Decomposition_adaptive.cpp:1370-1377 | building the sub-block through add_u3, add_u3 and add_adaptive gives the adaptive gate first, then the control's U3, then the target's U3 |
| AdaptiveLayers.Row | decomposition/N_Qubit_Decomposition_adaptive.cpp:1388 | the inner loop for target t visits n - t - 1 controls |
| AdaptiveLayers.PairsFromMembers | decomposition/N_Qubit_Decomposition_adaptive.cpp:1387-1401 | the nested loops from target t on visit exactly the pairs t <= target < control < n |
| AdaptiveLayers.PairsFromDistinct | decomposition/N_Qubit_Decomposition_adaptive.cpp:1387-1401 | the nested loops visit no pair twice |
| AdaptiveLayers.PairsFromCount | decomposition/N_Qubit_Decomposition_adaptive.cpp:1387-1401 | the nested loops from target t on visit (n - t)(n - t - 1)/2 pairs |
| AdaptiveLayers.AllPairsMeaning | decomposition/N_Qubit_Decomposition_adaptive.cpp:1384-1403 | without a topology there is one layer for each pair target < control, each once, n(n - 1)/2 of them |
| AdaptiveLayers.CheckTopologyOk | decomposition/N_Qubit_Decomposition_adaptive.cpp:1349-1383 | the topology is accepted if and only if every edge has two entries, both below the qubit count; then each edge [control, target] gives one (target, control) pair, in order |
| AdaptiveLayers.CheckTopologyFirstBad | decomposition/N_Qubit_Decomposition_adaptive.cpp:1352-1368 | the first bad edge stops the construction, with the message for a wrong size or for a label too large |
| AdaptiveLayers.CheckTopologyErrorSticks | decomposition/N_Qubit_Decomposition_adaptive.cpp:1350-1382 | once an edge stopped the loop, the later edges do not matter |
| AdaptiveLayers.LayersOfAppend | decomposition/N_Qubit_Decomposition_adaptive.cpp:1379 | the layers of two runs of pairs are the layers of the first followed by those of the second |
| AdaptiveLayers.LayersOfShape | decomposition/N_Qubit_Decomposition_adaptive.cpp:1370-1379 | every layer pushed is a 7-parameter pair sub-block on the register |
| AdaptiveLayers.ShapedCounts | decomposition/N_Qubit_Decomposition_adaptive.cpp:1414-1435 | a list of pair sub-blocks carries 7 parameters and one nested block per layer |
| AdaptiveLayers.TopologyLayers | decomposition/N_Qubit_Decomposition_adaptive.cpp:1349-1383 | the topology loop pushes one sub-block per edge in edge order, or ends with the first bad edge's message |
| AdaptiveLayers.RowLayers | decomposition/N_Qubit_Decomposition_adaptive.cpp:1388-1400 | the inner loop pushes one sub-block per control, from target + 1 up |
| AdaptiveLayers.AllPairLayers | decomposition/N_Qubit_Decomposition_adaptive.cpp:1387-1401 | the nested loops push one sub-block per pair target < control, target-major |
| AdaptiveLayers.CollectLayers | decomposition/N_Qubit_Decomposition_adaptive.cpp:1346-1403 | the layers come from the topology's edges when it has any and from every pair otherwise |
| AdaptiveLayers.FrontInOrder | decomposition/N_Qubit_Decomposition_adaptive.cpp:1429-1435 | taking always the first remaining layer and adding it in front leaves the block holding the layers reversed, 7 parameters each |
| AdaptiveLayers.FrontRandomized | decomposition/N_Qubit_Decomposition_adaptive.cpp:1414-1428 | taking the layer a draw picks leaves the block holding a permutation of the layers, each a pair sub-block, 7 parameters each |
| AdaptiveLayers.RemoveStep | decomposition/N_Qubit_Decomposition_adaptive.cpp:1424-1425 | erasing the layer picked from the remaining ones keeps the multiset of added and remaining layers |
| AdaptiveLayers.ReverseShape | decomposition/N_Qubit_Decomposition_adaptive.cpp:1429-1435 | the reversed layers are a permutation of the layers |
| AdaptiveLayers.ConstructAdaptiveGateLayers | decomposition/N_Qubit_Decomposition_adaptive.cpp:1337-1441 | a new block on the register holding one 7-parameter sub-block per pair: a permutation of the layers, reversed when not randomized; a bad edge gives that edge's message |
| AdaptiveLayers.AddAdaptiveLayers | decomposition/N_Qubit_Decomposition_adaptive.cpp:1320-1328 | the layers are appended after the existing gates and their parameters added; the structure is unchanged when the construction stops on a bad edge |
| AdaptiveLayers.FinalGatesCounts | decomposition/N_Qubit_Decomposition_adaptive.cpp:1467-1473 | the finalising layer's U3 gates carry three parameters each and no nested block |
| AdaptiveLayers.FinalGatesShifted | decomposition/N_Qubit_Decomposition_adaptive.cpp:1467-1473 | any list of all-angle U3 leaves carries three parameters per gate |
| AdaptiveLayers.FinalLayerOwn | decomposition/N_Qubit_Decomposition_adaptive.cpp:1462-1481 | setting the register size of the finalising layer to its own size changes nothing |
| AdaptiveLayers.FinalLayerShape | decomposition/N_Qubit_Decomposition_adaptive.cpp:1462-1473 | the finalising layer is canonical, has three parameters per qubit and holds qubit n - 1's U3 first, down to qubit 0's |
| AdaptiveLayers.BuildFinalizingLayer | decomposition/N_Qubit_Decomposition_adaptive.cpp:1462-1473 | the loop of add_u3 from qubit 0 up builds that finalising layer |
| AdaptiveLayers.AddFinalyzingLayer | decomposition/N_Qubit_Decomposition_adaptive.cpp:1458-1485 | the finalising layer is put in front of the structure with its parameters added; a null structure throws the source's message |
| AdaptiveLayers.BuildLevelStructure | decomposition/N_Qubit_Decomposition_adaptive.cpp:495-513 | `level` rounds of adaptive layers and then the finalising layer in front: 3n + level · 7p parameters and 1 + level · p gates for p pairs; without randomization the rounds are each the reversed layers; a bad edge stops it when level > 0 |
| AdaptiveLayers.AdaptiveParameterCount | decomposition/N_Qubit_Decomposition_adaptive.cpp:495-513 | without a topology a level-l structure has 3n + 7 l n(n - 1)/2 parameters |
| AdaptiveCompress.Remove | gates/Gates_block.cpp:207-217 | release_gate(idx) keeps the gates before idx and shifts those after it down by one |
| AdaptiveCompress.OffsetBeforeRemoval | decomposition/N_Qubit_Decomposition_adaptive.cpp:1278-1298 | before the removed layer, parameter offsets are unchanged |
| AdaptiveCompress.OffsetAfterRemoval | decomposition/N_Qubit_Decomposition_adaptive.cpp:1278-1298 | from the removed layer on, offsets drop by that layer's parameter count |
| AdaptiveCompress.ReducedParametersLayout | decomposition/N_Qubit_Decomposition_adaptive.cpp:1278-1298 | create_reduced_parameters gives a vector one slice shorter in which every remaining layer finds exactly the parameters it had |
| AdaptiveCompress.RemoveSum | decomposition/N_Qubit_Decomposition_adaptive.cpp:1278-1298 | removing a layer takes its parameter count off the total |
| AdaptiveCompress.ReducedSliceBefore | decomposition/N_Qubit_Decomposition_adaptive.cpp:1292-1293 | a layer before the removed one reads the same slice in the reduced vector |
| AdaptiveCompress.ReducedSliceAfter | decomposition/N_Qubit_Decomposition_adaptive.cpp:1292-1294 | a layer after the removed one reads in the reduced vector the slice it read one place further on |
| AdaptiveCompress.GetPanelty | decomposition/N_Qubit_Decomposition_adaptive.cpp:923-956 | the penalty of a structure is its number of gates |
| AdaptiveCompress.CompressOneMeaning | decomposition/N_Qubit_Decomposition_adaptive.cpp:864-916 | a trial either removes exactly the chosen layer and takes the run's parameters and minimum, when the run reached the tolerance, or returns a clone of the structure with the parameters and minimum passed in |
| AdaptiveCompress.PruneCandidates | decomposition/N_Qubit_Decomposition_adaptive.cpp:719-741 | the candidates are a strictly increasing list of layers from 1 on, never layer 0, as many as the cap (10 below 50 layers, 4 below 60, 2 otherwise) allows |
| AdaptiveCompress.SelectLeast | decomposition/N_Qubit_Decomposition_adaptive.cpp:800-816 | the chosen candidate has the least penalty, whichever way the ties were broken |
| AdaptiveCompress.TriedNeverGrows | decomposition/N_Qubit_Decomposition_adaptive.cpp:764-790 | a trial never leaves more layers than the structure had |
| AdaptiveCompress.TryCandidates | decomposition/N_Qubit_Decomposition_adaptive.cpp:750-796 | each candidate is tried in turn and its penalty is the gate count of what the trial left |
| AdaptiveCompress.CandidateFits | decomposition/N_Qubit_Decomposition_adaptive.cpp:728-768 | each candidate's parameter slice lies inside the parameter vector |
| AdaptiveCompress.CompressGateStructure | decomposition/N_Qubit_Decomposition_adaptive.cpp:718-858 | the structure kept is the trial of one candidate, and no other candidate's trial left fewer layers |
| AdaptiveCompress.CompressionLoop | decomposition/N_Qubit_Decomposition_adaptive.cpp:260-296 | the compression loop runs at least once, never leaves more layers than it started with, and stops only after more than 10 rounds without shrinking, or at least 25 rounds with more than 5 of them |
| AdaptiveCompress.FirstMinimum | decomposition/N_Qubit_Decomposition_adaptive.cpp:674-681 | the level chosen has the least minimum, and no earlier level had the same one |
| AdaptiveCompress.LevelSearch | decomposition/N_Qubit_Decomposition_adaptive.cpp:495-681 | levels are tried from level_limit_min up until one reaches the tolerance or level_limit is passed, and the level with the first least minimum is chosen |
| AdaptiveCompress.RelaxedTolerance | decomposition/N_Qubit_Decomposition_adaptive.cpp:696-701 | when the tolerance was missed it becomes 1.5 times the minimum, capped at 0.01; otherwise it stays |
| CryReplacement.SubBlocksMoved | decomposition/N_Qubit_Decomposition_adaptive.cpp:1007-1016 | setting the register size of a CZ or CNOT sub-block gives the sub-block built on that size |
| CryReplacement.BuildCzBlock | decomposition/N_Qubit_Decomposition_adaptive.cpp:1007-1016 | four add_gate calls build the CZ sub-block with the RZ on the control first, then RX, CZ, RX |
| CryReplacement.BuildCnotBlock | decomposition/N_Qubit_Decomposition_adaptive.cpp:1054-1063 | four add_gate calls build the CNOT sub-block: CNOT, RY, CNOT, RY |
| CryReplacement.Replacement | decomposition/N_Qubit_Decomposition_adaptive.cpp:1000-1080 | what one gate becomes owns exactly the parameters given with it, and is at most one gate |
| CryReplacement.ReplacementCases | decomposition/N_Qubit_Decomposition_adaptive.cpp:1000-1080 | a gate that is not adaptive stays with its parameters; an adaptive gate near CZ becomes the CZ sub-block with two more parameters, near identity disappears with its parameter, and otherwise becomes the CNOT sub-block with one more parameter |
| CryReplacement.ReplaceGates | decomposition/N_Qubit_Decomposition_adaptive.cpp:989-1084 | the walk over a layer gives gates that own exactly the parameters it wrote and leaves the parameters after the layer's unread |
| CryReplacement.ReplaceGatesLeft | decomposition/N_Qubit_Decomposition_adaptive.cpp:989-1084 | the walk over a layer reads exactly that layer's parameter count |
| CryReplacement.ReplaceGatesWithoutAdaptive | decomposition/N_Qubit_Decomposition_adaptive.cpp:1077-1080 | a layer without adaptive gates keeps its gates and its parameters |
| CryReplacement.ReplaceCry | decomposition/N_Qubit_Decomposition_adaptive.cpp:963-1097 | the result keeps one layer per top-level gate and a parameter vector as long as the new gates need plus whatever followed the layers' parameters; its only error is the non-block message |
| CryReplacement.ReplaceCryFails | decomposition/N_Qubit_Decomposition_adaptive.cpp:974-979 | the replacement fails if and only if some top-level gate is not a block |
| CryReplacement.LayerInputCanonical | decomposition/N_Qubit_Decomposition_adaptive.cpp:987-989 | the clone of a canonical layer holds exactly the layer's parameter count |
| CryReplacement.ConsumedCanonical | decomposition/N_Qubit_Decomposition_adaptive.cpp:970-1092 | over canonical layers that are all blocks the loop reads exactly the structure's parameter count |
| CryReplacement.ReplaceCryExact | decomposition/N_Qubit_Decomposition_adaptive.cpp:963-1097 | with as many parameters as the structure needs, the replacement succeeds and its new vector is exactly as long as the new structure needs |
| CryReplacement.CloneLayer | decomposition/N_Qubit_Decomposition_adaptive.cpp:987 | the clone of a layer holds its children with its block counter exact |
| CryReplacement.SpliceIn | decomposition/N_Qubit_Decomposition_adaptive.cpp:1005-1018 | release_gate then insert_gate puts the sub-block in the leaf's place and nowhere else |
| CryReplacement.Drop | decomposition/N_Qubit_Decomposition_adaptive.cpp:1038-1039 | release_gate on a leaf removes just that gate |
| CryReplacement.ReplaceTrivialCryGates | decomposition/N_Qubit_Decomposition_adaptive.cpp:963-1097 | the method gives a new structure on the register holding exactly the replaced layers and the rewritten parameter vector, or the non-block error |
| AdaptiveDecomposition.Decomposition.constructor | decomposition/N_Qubit_Decomposition_adaptive.cpp:131-167 | a new decomposition holds no gates and no parameters, keeps the unitary, level limits and topology given, uses BFGS with 4 iterations up to five qubits and ADAM with 1 above, and has no randomized layers |
| AdaptiveDecomposition.Decomposition.AddAdaptiveGateStructure | decomposition/N_Qubit_Decomposition_adaptive.cpp:1557-1581 | with gates present, the imported gates come first and the present ones after, and the imported parameters before the present ones; with no gates the imported structure and parameters are taken over; parameters stay aligned with the structure |
| AdaptiveDecomposition.Decomposition.PrependImported | decomposition/N_Qubit_Decomposition_adaptive.cpp:1564-1575 | the branch with gates present: imported gates then clones of the present ones, parameters likewise |
| AdaptiveDecomposition.Decomposition.AdoptImported | decomposition/N_Qubit_Decomposition_adaptive.cpp:1576-1579 | the branch with no gates: the structure becomes clones of the imported gates and the parameters the imported ones |
| AdaptiveDecomposition.Decomposition.Replace | decomposition/N_Qubit_Decomposition_adaptive.cpp:309-310 | release_gates then combine leaves the structure holding clones of the source block's gates |
| AdaptiveDecomposition.Decomposition.ApplyImportedGateStructure | decomposition/N_Qubit_Decomposition_adaptive.cpp:1589-1605 | with no gates nothing changes; otherwise the unitary becomes the transformed one and the gates and parameters are released |
| AdaptiveDecomposition.Decomposition.AddLayerToImportedGateStructure | decomposition/N_Qubit_Decomposition_adaptive.cpp:1613-1631 | the adaptive layers are appended and the parameter vector grows by seven zeros per layer, keeping it aligned; a bad topology edge changes nothing |
| AdaptiveDecomposition.Decomposition.StoreCompressed | decomposition/N_Qubit_Decomposition_adaptive.cpp:306-311 | the compressed structure and its parameters become the decomposition's, aligned |
| AdaptiveDecomposition.Decomposition.StoreReplaced | decomposition/N_Qubit_Decomposition_adaptive.cpp:318-338 | the rewritten structure replaces the stored one and the final optimisation sets the parameters |
| AdaptiveDecomposition.Decomposition.StartDecomposition | decomposition/N_Qubit_Decomposition_adaptive.cpp:186-395 | a level limit of 0 ends it with nothing changed; otherwise the compressed structure never has more layers than the start, and the structure ends as the CRY replacement of it with the final parameters, or as the compressed one when the replacement exits |
| AdaptiveDecomposition.Gathered | decomposition/N_Qubit_Decomposition_adaptive.cpp:683 | canonical gates on the register, gathered into a block, form a canonical tree |
| AdaptiveDecomposition.Cloned | gates/Gates_block.cpp:1937-2064 | clones combined into a block are canonical on its register, keep the parameter count and are the gates themselves when already on it |
| AdaptiveDecomposition.PrependedClones | decomposition/N_Qubit_Decomposition_adaptive.cpp:1564-1568 | the imported gates followed by the present ones, combined twice, are canonical, carry both parameter counts and are the plain concatenation when the register sizes agree |
| AdaptiveDecomposition.Gather | decomposition/N_Qubit_Decomposition_adaptive.cpp:683 | a fresh block on the register holding the compressed gates in order |
| AdaptiveDecomposition.AllWithOwnQbitNum | gates/Gates_block.cpp:2071-2160 | set_qbit_num to the register's own size leaves canonical gates unchanged |
| SubMatrix.Touch | decomposition/Sub_Matrix_Decomposition.cpp:155 | reading a key with operator[] inserts it with 0 when missing, leaves the value read as before and keeps every other entry |
| SubMatrix.FillDefaults | decomposition/Sub_Matrix_Decomposition.cpp:84-89 | the maximal layer numbers get every default key the given map lacks, and keep the given values |
| SubMatrix.OverwriteEach | decomposition/Sub_Matrix_Decomposition.cpp:707-715 | setting every given entry leaves those values on their keys and keeps the other keys' values |
| SubMatrix.FillThenOverwrite | decomposition/Sub_Matrix_Decomposition.cpp:84-89 | filling defaults into the given map and overwriting the defaults with the given entries give the same map |
| SubMatrix.DefaultLayerShape | decomposition/Sub_Matrix_Decomposition.cpp:342-384 | a default layer (CNOT and two U3 with theta and lambda free) is a canonical block with four parameters, already on its register |
| SubMatrix.BuildDefaultLayer | decomposition/Sub_Matrix_Decomposition.cpp:364-375 | the calls of the loop body build that default layer |
| SubMatrix.DefaultLayersShape | decomposition/Sub_Matrix_Decomposition.cpp:342-384 | the default layers number targets times repetitions, the run of each target being that many copies of its layer with the top qubit as control |
| SubMatrix.CustomLayersLength | decomposition/Sub_Matrix_Decomposition.cpp:253-330 | the custom layers number the unit's gates times the repetitions |
| SubMatrix.CustomLayersRun | decomposition/Sub_Matrix_Decomposition.cpp:253-330 | the run of each unit gate among the custom layers is that many copies of it |
| SubMatrix.CustomLayersMembers | decomposition/Sub_Matrix_Decomposition.cpp:253-330 | every custom layer is one of the unit's gates |
| SubMatrix.CustomLayersParams | decomposition/Sub_Matrix_Decomposition.cpp:253-330 | the custom layers carry the unit's parameter count times the repetitions |
| SubMatrix.GrowNLength | decomposition/Sub_Matrix_Decomposition.cpp:164-190 | each round adds the same number of gates, so r rounds add r times that many |
| SubMatrix.PrependDefaultLayers | decomposition/Sub_Matrix_Decomposition.cpp:361-380 | the inner loop puts that many default layers first, four parameters and one layer each |
| SubMatrix.AppendClones | decomposition/Sub_Matrix_Decomposition.cpp:258-328 | the inner loop adds that many clones of the unit gate at the end |
| SubMatrix.PrependAllDefaultLayers | decomposition/Sub_Matrix_Decomposition.cpp:342-384 | the loops put the default layers, in reverse order of addition, in front of the existing gates, with their parameters and layers counted |
| SubMatrix.AppendUnitLayers | decomposition/Sub_Matrix_Decomposition.cpp:251-330 | the loops add clones of the custom layers at the end, with their parameters counted |
| SubMatrix.RoundsNeverWorse | decomposition/Sub_Matrix_Decomposition.cpp:407-512 | over the rounds the best cost never increases, stays with its parameters when it does not fall, and a lower one is a minimiser result |
| SubMatrix.CombinedGradient | decomposition/Sub_Matrix_Decomposition.cpp:609-670 | the cost at x and, for every parameter, the forward difference of the cost with step 1e-8 |
| SubMatrix.ForwardDifferenceExact | decomposition/Sub_Matrix_Decomposition.cpp:609-670 | the forward difference is the slope for a cost linear in that parameter and 0 for a parameter the cost ignores |
| SubMatrix.SubMatrixDecomposition.constructor | decomposition/Sub_Matrix_Decomposition.cpp:66-94 | a new decomposer has no gates and no custom structure, a target minimum of 0, three iteration loops for two qubits and the default maximal layer numbers filled in |
| SubMatrix.SubMatrixDecomposition.SetIdenticalBlocks | decomposition/Sub_Matrix_Decomposition.cpp:687-699 | the entry for the qubit count becomes the given number, and 0 is returned |
| SubMatrix.SubMatrixDecomposition.SetIdenticalBlocksAll | decomposition/Sub_Matrix_Decomposition.cpp:707-715 | every given entry is set, other keys keep their values, and 0 is returned |
| SubMatrix.SubMatrixDecomposition.SetCustomGateLayers | decomposition/Sub_Matrix_Decomposition.cpp:392-396 | the unit structure becomes a clone of the block |
| SubMatrix.SubMatrixDecomposition.AddDefaultGateLayers | decomposition/Sub_Matrix_Decomposition.cpp:342-384 | for every target below the top qubit the repetition count of default layers is put first; reading the count inserts a missing entry |
| SubMatrix.SubMatrixDecomposition.IdenticalBlocksLoc | decomposition/Sub_Matrix_Decomposition.cpp:239-248 | the repetition count is the stored one, a missing or 0 entry read as 1, and reading inserts a missing key |
| SubMatrix.SubMatrixDecomposition.AddCustomGateLayers | decomposition/Sub_Matrix_Decomposition.cpp:235-330 | each unit gate in turn is cloned and added at the end the repetition count of times, its parameters counted |
| SubMatrix.SubMatrixDecomposition.AddGateLayers | decomposition/Sub_Matrix_Decomposition.cpp:227-335 | the default layers while there is no custom structure, the repeated unit gates otherwise |
| SubMatrix.SubMatrixDecomposition.DisentangleSubmatrices | decomposition/Sub_Matrix_Decomposition.cpp:117-222 | done once and then nothing; the present gates within tolerance leave the matrix as it is; otherwise rounds of layers are added until the maximal layer number is reached or an optimisation is within tolerance, and the sub-decomposed matrix is the transformed one |
| SubMatrix.SubMatrixDecomposition.Disentangle | decomposition/Sub_Matrix_Decomposition.cpp:146-220 | the search once the present gates are not within tolerance: the maximal layer number is read (inserting a missing entry), layers are added round by round, and the result is the transformed matrix |
| SubMatrix.SubMatrixDecomposition.AddLayersUntil | decomposition/Sub_Matrix_Decomposition.cpp:164-190 | the gates are those of the rounds run; the loop ends within tolerance or with the layer count at the maximum; a round that adds no gate, where the source loops for ever, ends it with Stalled, the layer count below the maximum |
| SubMatrix.RoundsAddNothing | decomposition/Sub_Matrix_Decomposition.cpp:164-190 | with a negative repetition count or an empty custom unit a round adds no gate, so any number of rounds leaves the gate count, and with it the loop condition, as it was |
| SubMatrix.SubMatrixDecomposition.LayerRound | decomposition/Sub_Matrix_Decomposition.cpp:166-188 | a round adds layers, sets the layer counter to the gate count and optimises when layers are minimised or the maximum is reached, reporting whether that reached the tolerance |
| SubMatrix.SubMatrixDecomposition.SolveLayerOptimizationProblem | decomposition/Sub_Matrix_Decomposition.cpp:407-512 | nothing without gates; otherwise at least one round, iteration_loops rounds, runs the minimiser from the guess and keeps a strictly better result |
| SubMatrix.SubMatrixDecomposition.Clone | decomposition/Sub_Matrix_Decomposition.cpp:722-743 | a new decomposer on the same matrix and qubit count with the identical blocks, maximal layer numbers and iteration loops given and clones of the gates |
| SubMatrix.PrependDefaultLayer | decomposition/Sub_Matrix_Decomposition.cpp:363-377 | one pass of the inner loop puts one default layer in front, adding four parameters and one layer and keeping the qubit count |
| CircuitImport.Drain | qgd_python/decomposition/qgd_N_Qubit_Decomposition_adaptive.py:312-321 | add_U3 for a waiting u3 puts a U3 leaf on the register and collects exactly its three parameters |
| CircuitImport.ImportLayerCount | qgd_python/decomposition/qgd_N_Qubit_Decomposition_adaptive.py:285-368 | the imported structure has one layer per cz (and, for the custom class, per cx) plus the final layer, every one of them a block |
| CircuitImport.ScanSize | qgd_python/decomposition/qgd_N_Qubit_Decomposition_adaptive.py:285-348 | after any prefix of the circuit, the parameters collected plus three per waiting u3 are three per u3 seen and four per adaptive layer |
| CircuitImport.ImportParameterCount | qgd_python/decomposition/qgd_N_Qubit_Decomposition_adaptive.py:274-374 | the vector handed over holds three entries per u3 and, for the adaptive class, four per cz; the custom class adds none for cz or cx |
| CircuitImport.ScanFifo | qgd_python/decomposition/qgd_N_Qubit_Decomposition_adaptive.py:293-334 | after any prefix of the circuit, the u3 gates of each qubit already called, then those still waiting, are that qubit's u3 gates in circuit order |
| CircuitImport.ImportFifo | qgd_python/decomposition/qgd_N_Qubit_Decomposition_adaptive.py:274-368 | per qubit, the U3 calls of the import are made for that qubit's u3 gates in circuit order, each exactly once |
| CircuitImport.U3OriginsMeaning | qgd_python/decomposition/qgd_N_Qubit_Decomposition_adaptive.py:285-293 | the u3 indices recorded for a qubit are exactly its u3 gates, increasing |
| CircuitImport.ImportCallsFromCircuit | qgd_python/decomposition/qgd_N_Qubit_Decomposition_adaptive.py:312-366 | every U3 call is made for one u3 of the circuit, on its qubit, collecting [lambda, phi, theta/2] |
| CircuitImport.ImportLayout | qgd_python/decomposition/qgd_N_Qubit_Decomposition_adaptive.py:347-374 | the structure is canonical on the register and owns exactly as many parameters as the flipped vector holds; its i-th leaf is the gate of the i-th call from the end, whose slice is that call's collected parameters reversed |
| CircuitImport.ImportU3Slices | qgd_python/decomposition/qgd_N_Qubit_Decomposition_adaptive.py:312-374 | every leaf made for a u3 is an all-angle U3 on that u3's qubit whose slice of the vector is [theta/2, phi, lambda] of that u3 |
| CircuitImport.AdaptiveConstants | qgd_python/decomposition/qgd_N_Qubit_Decomposition_adaptive.py:344 | the adaptive two-qubit part collects pi/4, pi/2, -pi/2, -pi/4 |
| CircuitImport.CustomPartStep | qgd_python/decomposition/qgd_N_Qubit_Decomposition_custom.py:320-323 | the custom class's two-qubit part puts one CZ or CNOT with target q1 and control q0 in front and collects nothing |
| CircuitImport.AddDrain | qgd_python/decomposition/qgd_N_Qubit_Decomposition_adaptive.py:316-321 | add_U3 puts the U3 in front of the layer and its angles at the end of the list |
| CircuitImport.PopU3 | qgd_python/decomposition/qgd_N_Qubit_Decomposition_adaptive.py:310-334 | the oldest waiting u3 of the qubit, if any, leaves its queue for the layer |
| CircuitImport.AddAdaptivePart | qgd_python/decomposition/qgd_N_Qubit_Decomposition_adaptive.py:340-344 | add_RX, add_adaptive, add_RZ, add_RX put their gates in front and the four constants are collected |
| CircuitImport.AddCustomPart | qgd_python/decomposition/qgd_N_Qubit_Decomposition_custom.py:320-323 | add_CZ or add_CNOT puts its gate in front and collects nothing |
| CircuitImport.OpenLayer | qgd_python/decomposition/qgd_N_Qubit_Decomposition_adaptive.py:308-344 | a two-qubit instruction builds a layer from the pops of its two qubits and the two-qubit part |
| CircuitImport.CloseLayer | qgd_python/decomposition/qgd_N_Qubit_Decomposition_adaptive.py:353-366 | the final layer takes every waiting u3, qubit by qubit, each queue in order |
| CircuitImport.AddLayerStep | qgd_python/decomposition/qgd_N_Qubit_Decomposition_adaptive.py:347 | add_Gates_Block stores a clone of the layer in front of the structure |
| CircuitImport.ImportStep | qgd_python/decomposition/qgd_N_Qubit_Decomposition_adaptive.py:285-348 | one instruction: a u3 waits in its qubit's queue, a layered gate adds a layer, anything else is skipped |
| CircuitImport.FinishImport | qgd_python/decomposition/qgd_N_Qubit_Decomposition_adaptive.py:353-374 | the final layer goes in front of the structure and the collected list is flipped |
| CircuitImport.ImportQiskitCircuit | qgd_python/decomposition/qgd_N_Qubit_Decomposition_adaptive.py:274-374 | import_Qiskit_Circuit builds exactly the specified gate structure and parameter vector, for either class |
| CircuitExport.Actions | qgd_python/decomposition/qgd_N_Qubit_Decomposition_adaptive.py:111-166 | each record is turned into its action, in record order |
| CircuitExport.RunNoneIff | qgd_python/decomposition/qgd_N_Qubit_Decomposition_adaptive.py:111-168 | the walk over the records returns None exactly when some record stops it |
| CircuitExport.RunAppend | qgd_python/decomposition/qgd_N_Qubit_Decomposition_adaptive.py:111-168 | walking from the last record, the operations of later records come before those of earlier ones |
| CircuitExport.AbortsOnName | qgd_python/decomposition/qgd_N_Qubit_Decomposition_adaptive.py:130-133 | a record stops the export exactly when its type is SYC for Qiskit or U3 for Cirq |
| CircuitExport.ExportNoneIff | qgd_python/decomposition/qgd_N_Qubit_Decomposition_adaptive.py:99-249 | an export returns None exactly when some record is a SYC (Qiskit) or a U3 (Cirq) |
| CircuitExport.ExportAppend | qgd_python/decomposition/qgd_N_Qubit_Decomposition_adaptive.py:111-168 | exporting two lists of records puts the operations of the second first |
| CircuitExport.QiskitOfGate | qgd_python/decomposition/qgd_N_Qubit_Decomposition_adaptive.py:113-166 | the Qiskit operation for each leaf kind: cx, cry, cz, ch on [control, target], u, rx, ry, rz with their angles, x for X, Y and Z, sx; SYC stops the export |
| CircuitExport.QiskitYExportedAsX | qgd_python/decomposition/qgd_N_Qubit_Decomposition_adaptive.py:155-161 | as written, Y and Z are exported as x, the same operation as X |
| CircuitExport.QiskitIntendedPaulis | qgd_python/decomposition/qgd_N_Qubit_Decomposition_adaptive.py:151-162 | with the intended branches X, Y and Z are exported as x, y and z and every other kind as before |
| CircuitExport.CirqOfGate | qgd_python/decomposition/qgd_N_Qubit_Decomposition_adaptive.py:192-247 | the Cirq operation for each leaf kind on line qubits counted from the other end; CRY is skipped and U3 stops the export |
| CircuitExport.ExportCircuit | qgd_python/decomposition/qgd_N_Qubit_Decomposition_adaptive.py:111-168 | the loop over the records from the last builds exactly the specified circuit, or None at the first record that stops it |
| CircuitExport.GetQuantumCircuit | qgd_python/decomposition/qgd_N_Qubit_Decomposition_adaptive.py:99-168 | get_Quantum_Circuit returns None exactly when a SYC gate is present, and the specified circuit otherwise |
| CircuitExport.GetCirqCircuit | qgd_python/decomposition/qgd_N_Qubit_Decomposition_adaptive.py:176-249 | get_Cirq_Circuit returns None exactly when a U3 gate is present, and the specified circuit otherwise |
| CircuitImport.AddLeaf | qgd_python/decomposition/qgd_N_Qubit_Decomposition_adaptive.py:316 | an add_U3 on a layer puts the gate in front, so the layer holds the added gates last to first |
| Wrappers.ToInt32 | qgd_python/decomposition/qgd_N_Qubit_Decomposition_adaptive_Wrapper.cpp:214-215 | the int cast of a long lies in the 32-bit range, agrees with the long modulo 2^32 and leaves in-range values unchanged |
| Wrappers.AsLong | qgd_python/decomposition/qgd_N_Qubit_Decomposition_adaptive_Wrapper.cpp:214-215 | PyLong_AsLong gives the value of an int that fits in 64 bits and -1 for an object that is not an int |
| Wrappers.ParseOptimizer | qgd_python/decomposition/qgd_N_Qubit_Decomposition_adaptive_Wrapper.cpp:1666-1703 | set_Optimizer fails with "optimizer argument not set" exactly when no argument is given; the lower- or upper-case name of an optimiser selects it; any other string selects BFGS |
| Wrappers.OptimizerSpellingsDisjoint | qgd_python/decomposition/qgd_N_Qubit_Decomposition_adaptive_Wrapper.cpp:1688-1699 | no name is accepted for two different optimisers, so the selection is unambiguous |
| Wrappers.ParseGuess | qgd_python/decomposition/qgd_N_Qubit_Decomposition_Wrapper.cpp:176-194 | the lower- or upper-case name of an initial-guess kind selects it; any other string selects ZEROS |
| Wrappers.CostVariantAsWritten | qgd_python/decomposition/qgd_N_Qubit_Decomposition_adaptive_Wrapper.cpp:1739-1755 | the integer argument, 0 when absent, is stored as the cost-function variant without a range check |
| Wrappers.CostVariantAsWrittenStoresNonVariant | qgd_python/decomposition/qgd_N_Qubit_Decomposition_adaptive_Wrapper.cpp:1751 | the codes 6 and -1, which name no cost function, are stored as they are |
| Wrappers.SetCostVariant | qgd_python/decomposition/qgd_N_Qubit_Decomposition_adaptive_Wrapper.cpp:1733-1771 | with the range check: accepted exactly when absent or one of the six codes, the stored variant then being the code given (0 when absent); otherwise refused |
| Wrappers.EdgeOf | qgd_python/decomposition/qgd_N_Qubit_Decomposition_adaptive_Wrapper.cpp:204-217 | a topology entry is converted exactly when it is a tuple, into the int casts of PyLong_AsLong of its items 0 and 1 |
| Wrappers.EdgesOf | qgd_python/decomposition/qgd_N_Qubit_Decomposition_adaptive_Wrapper.cpp:204-218 | the entries are refused with "Elements of topology must be a tuple!" exactly when one of them is not a tuple; otherwise each converted entry is the conversion of the entry at its place |
| Wrappers.TopologyOf | qgd_python/decomposition/qgd_N_Qubit_Decomposition_adaptive_Wrapper.cpp:186-219 | None gives no edges, a list is converted entry by entry, and any other object is refused with "Input topology must be a list!" |
| Wrappers.ConvertTopology | qgd_python/decomposition/qgd_N_Qubit_Decomposition_adaptive_Wrapper.cpp:186-219 | the conversion loop yields what the topology conversion specifies |
| Wrappers.EdgesErrExtends | qgd_python/decomposition/qgd_N_Qubit_Decomposition_adaptive_Wrapper.cpp:204-211 | once an entry is refused, the whole topology is refused whatever follows |
| Wrappers.IntLiteral | qgd_python/decomposition/qgd_N_Qubit_Decomposition_adaptive.py:55 | a string spells an int exactly when it is decimal digits with at most one leading sign, and a string of digits spells their value |
| Wrappers.Intc | qgd_python/decomposition/qgd_N_Qubit_Decomposition_adaptive.py:55 | np.intc converts an int exactly when it fits in 32 bits, to itself; any converted value fits in 32 bits; an object that is neither an int nor a string raises |
| Wrappers.DecimalValue | qgd_python/decomposition/qgd_N_Qubit_Decomposition_adaptive.py:55 | the decimal spelling of a number reads back as that number |
| Wrappers.IntcOfSpelledInt | qgd_python/decomposition/qgd_N_Qubit_Decomposition_adaptive.py:55 | a string spelling a 32-bit int converts to the same value as the int |
| Wrappers.PairOf | qgd_python/decomposition/qgd_N_Qubit_Decomposition_adaptive.py:54-58 | an entry is refused exactly when it is not a two-element tuple; a two-element tuple becomes a pair exactly when both items convert, and the pair is their values; otherwise np.intc raises |
| Wrappers.FirstNonPair | qgd_python/decomposition/qgd_N_Qubit_Decomposition_adaptive.py:53-59 | the loop's first entry that does not become a pair: every entry before it does, and it does not |
| Wrappers.PairsOf | qgd_python/decomposition/qgd_N_Qubit_Decomposition_adaptive.py:52-59 | the entries are accepted exactly when every one becomes a pair, and then each pair is that of the entry at its place; otherwise the first entry that does not decides: a refusal when it is not a two-element tuple, the exception when it is |
| Wrappers.ValidateTopology | qgd_python/decomposition/qgd_N_Qubit_Decomposition_adaptive.py:51-64 | None is accepted as no pairs; a list or tuple is validated entry by entry; any other object is refused |
| Wrappers.PairsAsList | qgd_python/decomposition/qgd_N_Qubit_Decomposition_adaptive.py:68 | the validated pairs are passed on as a list with one tuple per pair |
| Wrappers.PairEdges | qgd_python/decomposition/qgd_N_Qubit_Decomposition_adaptive_Wrapper.cpp:213-217 | the edges the engine receives for a list of pairs number the pairs |
| Wrappers.ValidatedTopologyConverts | qgd_python/decomposition/qgd_N_Qubit_Decomposition_adaptive.py:51-68 | a topology the Python class accepts is never refused by the extension and reaches the engine with every pair's values unchanged |
| Wrappers.ConvertPairs | qgd_python/decomposition/qgd_N_Qubit_Decomposition_adaptive_Wrapper.cpp:204-218 | tuples of in-range ints convert to exactly their own values |
| Wrappers.InitAdaptive | qgd_python/decomposition/qgd_N_Qubit_Decomposition_adaptive_Wrapper.cpp:155-240 | the constructor succeeds (0) exactly when Umtx is given, the topology is accepted and qbit_num is positive, and then builds an empty decomposition with the given matrix, limits and converted topology; otherwise it returns -1 and builds nothing |
| Wrappers.InitPlain | qgd_python/decomposition/qgd_N_Qubit_Decomposition_Wrapper.cpp:146-211 | the plain constructor succeeds exactly when Umtx is given and qbit_num is positive, and then passes the matrix, qubit count, layer-number flag and parsed initial guess |
| Wrappers.StartDecompositionArgs | qgd_python/decomposition/qgd_N_Qubit_Decomposition_Wrapper.cpp:220-241 | finalize_decomp is always true and prepare_export is true unless given false |
| Wrappers.AdaptiveRecord | qgd_python/decomposition/qgd_N_Qubit_Decomposition_adaptive_Wrapper.cpp:317-571 | a block gives an empty record; a leaf gives its type (CRY for the adaptive gate), its target, its control exactly for two-qubit kinds, and exactly the angles its kind stores (Theta, Phi, Lambda for U3; Theta for RX, RY, CRY and the adaptive gate; Phi for RZ) |
| Wrappers.PlainRecord | qgd_python/decomposition/qgd_N_Qubit_Decomposition_Wrapper.cpp:272-487 | the plain extension's record is empty exactly for blocks and for Y, Z, CRY and the adaptive gate, and otherwise equals the adaptive extension's record |
| Wrappers.GetGates | qgd_python/decomposition/qgd_N_Qubit_Decomposition_adaptive_Wrapper.cpp:610-635 | the tuple has one record per gate, the record of the gate at its place |
| Wrappers.ReversedParameters | qgd_python/decomposition/qgd_N_Qubit_Decomposition_Wrapper.cpp:564-584 | the returned array holds the optimised parameters last to first |
| Wrappers.ForwardPairs | qgd_python/decomposition/qgd_N_Qubit_Decomposition_Wrapper.cpp:596-631 | a non-dictionary is refused with -1 and nothing is forwarded; otherwise every key/value pair, both cast to int, is forwarded in the dictionary's order |
| Wrappers.Overwrite | decomposition/Sub_Matrix_Decomposition.cpp:687-699 | after the forwarded calls the setting map has the old keys and every key a call names |
| Wrappers.OverwriteLast | decomposition/Sub_Matrix_Decomposition.cpp:687-699 | a key holds the value of the last call naming it, and a key no call names keeps its old value |
| Wrappers.GateStructureMap | qgd_python/decomposition/qgd_N_Qubit_Decomposition_Wrapper.cpp:880-898 | the map has the int cast of every key, and a key holds the block given with its first occurrence, since insert keeps the first value |

## Left out

- Floating point. Doubles are Dafny reals, so there is no rounding; pi and pi/2 appear as decimal constants. The U3, RX, RY and RZ trigonometric kernels are a function the caller supplies. The sin and cos tests of replace_trivial_CRY_gates are a `Numerics` predicate. The atan2-based U3 merging of remove_trivial_gates is an oracle (`trim`).
- Optimisation. The cost functions, the optimisers (BFGS, ADAM and their variants), get_transformed_matrix and the tolerance checks are oracles passed as parameters. The model fixes what the decomposers do with the oracles' answers, not the answers themselves.
- Randomness. The random candidate choices and random perturbations are modelled as draw and coin functions passed in.
- Concurrency. tbb::parallel_for, MPI broadcasts and the thread-count toggles of the BLAS libraries are not modelled; every loop is sequential.
- I/O. Logging, printing and list_gates are left out. fopen, fwrite and fread are modelled as a sequence of words: the model has no file.
- Codec.ImportAsWritten: an fread that comes up short yields Err(Truncated), whereas the source does not check the count fread returns and goes on with whatever the buffers hold.
- Errors. Every throw and exit(-1) in the source becomes an error value (Err, false or a null result), and every printed message becomes a message string.
- Gate kinds. The "unimplemented gate" throws in gates/Gates_block.cpp at lines 191, 2058 and 2310 cannot be reached, because `GateKind` is a closed datatype. The integer codes of gate_type are replaced by datatype tags (gates/Gate.h is not part of this model), so the binary format stores a tag per kind.
- FixedGates.New: the target is a `nat`. The source only rejects target >= qbit_num, so it also admits negative targets. The headers document targets as 0 <= target < qbit_num.
- RotationZ.RZ.New: the target is a `nat`, for the same reason as FixedGates.New.
- RotationZ.RZ.Init: the source leaves the one parameter slot uninitialised until set_optimized_parameters; the model holds 0.0 there.
- CompositeGate.ParameterCountIsPairs: counts are unbounded ints, so the 32-bit overflow of h * (h - 1) for qbit_num >= 17 is not modelled. Only the unsigned return of get_parameter_num is modelled (CompositeGate.AsUnsigned32). For qbit_num <= 2 the formula is negative and get_parameter_num returns it as an unsigned value near 2^32 (CompositeGate.NegativeCountForSmallGates); what count was intended for such registers is not evident, so the formula is kept as written.
- Composite's apply_to, get_matrix and its matrix kernel are not modelled. Only the size checks and the counters are.
- GateTree.RelabelGate: Gate::reorder_qubits (gates/Gate.cpp) is not part of this model. Leaves are relabelled with the same rule as Composite::reorder_qubits.
- GateTree.GateNumsCountLeaves: the y and z counters of get_gate_nums are never initialised and are not summed over nested blocks. The model keeps no y or z counter; Y and Z gates add to the total only.
- AdaptiveCompress.GetPanelty: requires every gate's first parameter to lie inside the vector (`ReadsInRange`); otherwise the source reads out of bounds.
- AdaptiveCompress.CompressGateStructure: requires at least two layers, since the source reads the first penalty of a candidate list that is empty otherwise.
- AdaptiveCompress.LevelSearch: requires levelMin <= levelLimit and currentMinimum > tol, since the source reads the first entry of the minimum vector, which is empty when no level runs, and no level runs once the current minimum is within tolerance (for instance on a second start_decomposition after a successful one). The level_limit == 0 exit of start_decomposition is modelled separately (AdaptiveDecomposition.Decomposition.StartDecomposition).
- AdaptiveCompress.TriedNeverGrows: holds only for a `trim` oracle that never adds layers, which is what remove_trivial_gates does in the source.
- CryReplacement.ReplaceTrivialCryGates: requires the vector to cover what the loop reads. The source also reads optimized_parameters at the current index for gates without parameters, and that read is not modelled.
- Codec.RoundTrip: holds for blocks the decoder can close (`Exportable`). The decoder closes at most one level per record, so a top level ending with a leaf, or a nested block ending with a block, is not rebuilt. For the first case the source even indexes an empty level stack.
- DFE encoding. The fixed-point scaling and the metadata bits of the DFE gate records are not modelled; only the sizing arithmetic is (module Dfe).
- Python C-API. Reference counting, numpy conversion and the gate wrapper classes (qgd_Gates_Block and the per-gate wrappers) are not modelled. Python objects are a small value type (`Wrappers.PyObj`).
- Wrappers.PairOf: np.intc is modelled for ints and for strings of decimal digits with an optional sign (Wrappers.Intc). Floats and bools fall under `PyOther`, which is modelled as raising, though np.intc truncates a float. Strings with surrounding blanks or digit-group underscores are modelled as raising. An out-of-range int is modelled as raising, as current NumPy does; older NumPy wrapped it to 32 bits.
- Wrappers.GateStructureMap: takes the dictionary's entries; the refusal of a non-dictionary with -1, as in Wrappers.ForwardPairs, is not repeated here.
- SubMatrix.SubMatrixDecomposition.AddLayersUntil: a round that adds no gate (a negative identical_blocks entry or an empty custom unit, SubMatrix.RoundsAddNothing) leaves the loop condition unchanged, and the source repeats the round for ever, re-optimising each time when layers are being minimised. The model stops after that round with `Stalled`, so it does not capture the non-termination, nor a later repeated optimisation that falls within tolerance.
- SubMatrix.SubMatrixDecomposition.Disentangle: inherits the `Stalled` exit of AddLayersUntil where the source does not return.
- SubMatrix.SubMatrixDecomposition.DisentangleSubmatrices: inherits the `Stalled` exit of AddLayersUntil where the source does not return.
- Wrappers.ForwardPairs: requires every key and value to be an int. The source checks this with assert, which is compiled out in release builds, and then converts through PyLong_AsLong.
- Wrappers.InitAdaptive: a string exception raised by the engine's constructor is not modelled, since the constructor is pure bookkeeping here.
- CircuitExport.ExportCircuit: qiskit, cirq and transpile are foreign libraries, so the exporters produce a list of named operations instead of a circuit. A record without the key the exporter reads, and Cirq's wrap-around of a negative qubit index, are not modelled.
- CircuitImport.ImportQiskitCircuit: the circuit is taken as given, without transpilation into u3 and cz gates. The reversal of each u3's parameter list in place, which mutates the caller's circuit, is not modelled; its reversed copy is.
- Memory. Deleting gates, the ownership of cloned structures and the leaks in set_custom_gate_layers are not modelled.
- Tests, examples and the headers' declarations are not modelled.

## Findings

| source | as written | input that shows it | evidently intended | confidence | as-written member | corrected member |
|---|---|---|---|---|---|---|
| gates/Gates_block.cpp:3529-3532 | after the record loop, the check `iter == iter_max` reports a corrupted file | a structure of exactly iter_max (100000) records, which the loop reads completely | refuse only a file whose outermost level still expects records | not executed | Codec.ExactLimitRejected | Codec.RoundTrip |
| gates/Gates_block.cpp:3465-3485 | a nested block is added to its parent while still empty, so the parent's parameter counter misses the nested block's parameters | a block holding a block that holds a block with one RZ | every block's counters are the sums over its children, as clone recomputes them | not executed | Codec.NestedParamsLost | Codec.Import |
| gates/Gates_block.cpp:1180-1187 | add_gates starts its reverse iteration at end() and stops before the first element, so it inserts gates 1..n-1 and then reads past the end | any non-empty gate list | add every gate of the list, in front, keeping the list's order | not executed | GatesBlocks.AddGatesAsWrittenMissesFirst | GatesBlocks.GatesBlock.AddGates |
| gates/Gates_block.cpp:1923-1930 | get_gate refuses only idx > gate count, so the count itself and every negative idx read outside the list | idx equal to the gate count, or -1 | refuse every idx >= gate count | not executed | GatesBlocks.GetGateAsWrittenPassesEnd | GatesBlocks.GetGate |
| gates/Composite.cpp:152-163 | apply_from_right checks the input's rows against the matrix size | a non-square input whose rows match and whose columns do not | check the columns, as input * gate needs | not executed | CompositeGate.FromRightCheckDisagrees | CompositeGate.FromRightChecksAgreeOnSquare |
| qgd_python/decomposition/qgd_N_Qubit_Decomposition_adaptive.py:155-161 | the Y and Z branches of the Qiskit exporter append x | a structure holding one Y gate | append y for Y and z for Z | not executed | CircuitExport.QiskitYExportedAsX | CircuitExport.QiskitIntendedPaulis |
| decomposition/Sub_Matrix_Decomposition.cpp:164-190 | the loop re-tests layer_num < max_layer_num_loc after layer_num = gates.size(), which a round adding no gate leaves unchanged, so the loop never ends | optimize_layer_num false (the default), max_layer_num above the present gate count, and identical_blocks set to -1 for the qubit count, or an empty custom unit | leave the loop once a round adds no gate | not executed | SubMatrix.RoundsAddNothing | SubMatrix.SubMatrixDecomposition.AddLayersUntil |
| qgd_python/decomposition/qgd_N_Qubit_Decomposition_adaptive_Wrapper.cpp:1751 | set_Cost_Function_Variant stores any int as a cost_function_type | costfnc = 6 or -1 | accept only the six codes of cost_function_type | not executed | Wrappers.CostVariantAsWrittenStoresNonVariant | Wrappers.SetCostVariant |
