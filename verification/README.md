# A verified model of the NPU emulator, its firmware, its trace analysis and its C kernels

The repository emulates a small neural accelerator, drives it from bare-metal firmware, analyses the
instruction traces that result, and carries C kernels that serve as an algorithmic reference. This
project models those four parts in Dafny and proves that they compute what they are for.

* **Device.** `Device` gives the accelerator's state as a value (pipeline, saved operand, vector banks,
  matrix register, row buffer, scalars, registers, traffic counters) and one function per instruction
  handler; `NpuDevice` is the object whose methods change that state in place and are proved against those
  functions. One configuration flag selects the rounding, masking `NpuDeviceMini` or its subclass `NpuFP32`.
* **Firmware.** `AdderFirmware`/`AdderPhase1` run the three-pass tiled softmax attention of `adder_140p.c`, `AdderPhase2` its
  gated feed-forward block;
  `TiledMvm`, `LayernormTiles`, `Transpose` and `HeadAttention` run the routines of the baseline BERT firmware,
  `BertAttention` and `BertLayer` compose them into `bert_encoder_layer`, `BertLayout` says which memory layouts it can be
  compiled for. Each sends the source's instruction stream to the device object, and each main method states the
  mathematical result it leaves in memory. `AttentionReference` compares the attention with the NumPy reference, `BertReals`
  the stages behind it with their formulas.
  `CacheRewrite` proves the newer firmware's softmax cache equivalent to the DRAM scratch it replaces, and `RunInvariant`
  holds for every run of the device.
* **Trace analysis.** `EventTrace`, `Dag`, `MicroOps`, `MicroOpDag` and `Clusters` follow a run from flat events to a
  def-use graph, to grouped micro-operations, to clusters. `TraceTable` and `DagDevice` tie table and graph back to the device,
  `GroupShapes` and `Groupings` say what the groups are in terms of the trace, `ClusterTraffic` what the byte counts are.
* **Kernels and host.** `VectorKernels`/`Encoder` model the arena-reusing encoder layer, `Bfp` block floating point,
  `TraceRecorder` the MMIO recorder with the driver that feeds it, `Iss` the instruction-set simulator's registers and immediates, and
  `IssAssembly` its instructions by mnemonic.

Numbers: `Numbers.Num` is an exact real, an infinity or not-a-number, with the IEEE rules for special values. FP16 rounding,
`exp`, `gelu`, `sigmoid`, `tanh`, `sqrt`, and the device's softmax and layer normalisation kernels are parameters; a theorem
that needs a law of one of them (rounding is idempotent, `exp(a-b) * exp(b) == exp(a)`) takes it as a named predicate.
The C encoder and block floating point run over exact reals.

Where the code and its description differ, the model follows the code:

* The simulator's store immediate drops bit 11, so a store with a negative offset goes 2048 bytes too high
  (`Iss.DecodesSIffNotNegative`). SRL and SRLI shift the low 32 bits only (`Iss.ValueCongruentIff`, `Iss.ShiftLosesHighHalf`).
* `extract_batches` sees a batch boundary exactly where two status reads are recorded in a row, so anything else recorded
  between a wait and the next send hides it unless a further poll follows or precedes
  (`TraceRecorder.ExtractedIffAllSeen`, `ExtractedIffPolledTwice`; `WindowWriteMergesBatches`, `PollRestoresBoundary`).
* The micro-op pass numbers a matrix load only when the next event is M_WR, so the product of a bare M_RD_DRAM is linked to an
  earlier load or to none (`MicroOpDag.MatrixEdgeExactly`, `MicroOpDag.BareLoadLinksEarlier`, `MicroOpDag.BareLoadIsUnlinked`).
* The tracer's def-use table is not the whole truth about the device. Its uses leave out the old pipeline that a load moves to
  the saved operand (`TraceTable.LoadMovesPipe`), the row buffer that M_RD reads and V_WR adds to (`MatrixTakesRows`,
  `RowsAccumulate`), the scalar a reduction adds to, the rest of a matrix tile (`TileTakesMore`), and the mask and size
  registers; its definitions leave out the saved operand that products clear (`ProductClearsOperand`), the emptied row buffer
  and, for the scalar functions, the scalar they write: source and target are exchanged (`ScalarTargetExchanged`). With exactly
  these named, uses decide definitions and nothing else changes (`TraceTable.UsesSuffice`, `TraceTable.DefsCover`), so the
  edges carry every used value that no such change disturbs (`TraceTable.EdgesCarryValues`).
* The accumulation pattern of the micro-op pass asks M_WR for a definition the tracer never gives it, so it never matches
  (`GroupShapes.NoAccumulation`). The pipeline pass takes row-buffer reads and bank stores for producers although they define no
  pipeline, and does not count a load in front of a DRAM store (`Groupings.ProducersExactly`, `ConsumersExactly`).
* The DRAM-read test that is meant to stop two clusters from merging never does (`Clusters.CanMerge`; in
  `Clusters.LoadDoesNotSplit` a store, a load and a store of the same row end as one cluster).
* A zero tile-row count makes V_WR raise (`RunInvariant.ZeroTileRowsFaults`). That and stores shorter than a number are exactly
  what can make a run fault (`RunInvariant.SafeExactlyWhenAdmissible`).
* The matrix kernel takes the number of columns it multiplies as the distance between rows, so a pipeline narrower than the
  matrix reads across row ends. It is right for all inputs if and only if the pipeline is as wide as the matrix or empty
  (`Device.KernelStrideIff`; `Device.NarrowPipelineReadsAcross`, and `RunInvariant.NarrowProductReadsAcross` on a whole run).
* The baseline BERT firmware's attention differs from the reference's in two ways. Its softmax runs over the whole tile, the
  zero scores of padding rows included, where the reference masks those positions. And it applies no head mask: with more than
  one head a tile every head computes the same context from all lanes, and lanes beyond the head size stay zero, where the
  reference computes each head from its own lanes. Over exact reals it computes the reference's attention for every input
  of a given length if and only if one head fills the tile and the sequence fills it too, or there is nothing to compute: no
  position, or a head wider than the tile (`AttentionReference.AttentionAgreesIff`). With one head a tile the context is the
  reference's times the share of the softmax mass that falls on the sequence (`AttentionReference.ContextIsDiluted`,
  `ContextAgreesIff`); `AttentionReference.PaddingHalves` and `AttentionReference.NarrowHeadDiffers` are inputs for each.
* V^T is extracted by products with unit vectors, so a value beside an infinity or not-a-number in its row comes out as
  not-a-number. The result is the transpose if and only if no value to extract has such a neighbour (`Transpose.TransposedIff`).
* The firmware's regions for saved rows sit at fixed addresses. The test's layout puts the weights in front of
  them, and they stay out of the work area if and only if the projections end by 0x200 (`BertLayout.ProjectionsFreeIff`). The sizes of the end-to-end test do; the two tiles of
  eight that the firmware's comments take as their example never do (`BertLayout.SixteenNeverFits`): there the first saved
  key lands on the value weights, which survive only if they equal it (`BertLayout.KeysOverwriteValues`).
* The firmware's ADDSUB_VRF_2 is bank 9, the emulator's is bank 19; bank 9 comes into being at its first store.
* With 33 to 35 tokens the last lane of the score buffer is the first of the probability buffer. `AdderPhase1.Phase1` covers those lengths.

## Model

| member | source | states |
|---|---|---|
| Numbers.FillPatterns | emulator/npu_device_mini.py:425-452 | the fill immediates the firmwares use decode to zero and to minus infinity |
| Numbers.KnownHalves | emulator/npu_device_mini.py:425-452 | known half-precision patterns decode to their numbers |
| Numbers.SignBitNegates | emulator/npu_device_mini.py:425-452 | the sign bit negates the decoded number |
| Numbers.ReciprocalAndSize | emulator/npu_device_mini.py:699-722 | a number times its reciprocal is one, the reciprocal of zero is infinite; absolute values |
| NpuDevice.NpuDeviceMini.VRdDram | emulator/npu_device_mini.py:532-550 | masked DRAM load, short reads at the end of memory and traffic counters |
| NpuDevice.NpuDeviceMini.VWrBank | emulator/npu_device_mini.py:479-489 | masked store under the bank's length, the bank created on first use; a pipeline narrower than the store leaves its lanes behind and raises at the first selected lane it lacks |
| NpuDevice.NpuDeviceMini.MRd | emulator/npu_device_mini.py:491-518 | the row buffer padded to a square, or a square tile from DRAM with one side for both dimensions |
| NpuDevice.NpuDeviceMini.MvMulKernel | kernels/mv_mul.c:6-16 | the two loops give every row's sum with the column count as the distance between rows |
| Device.KernelStrideIff | kernels/mv_mul.c:6-16 | for matrices of n rows and any pipeline with at least cols elements the kernel's sums are the rows' inner products if and only if cols is n or 0 |
| Device.NarrowPipelineReadsAcross | kernels/mv_mul.c:6-16 | counterexample: [[1, 2], [3, 4]] times [1] gives 2 in row 1, the row product is 3 |
| Device.KernelDotIsDot | kernels/mv_mul.c:6-16 | with a pipeline at least as wide as the matrix those sums are the rows' inner products |
| NpuDevice.NpuDeviceMini.MvMul | emulator/npu_device_mini.py:581-607 | row masking, product (also of a pipeline narrower than the matrix, which reads across row ends) and the cleared second operand |
| NpuDevice.NpuDeviceMini.Execute | emulator/npu_device_mini.py:329-412 | dispatch, and an increment variant as its base opcode at count addresses, stopping at a fault |
| Device.DecodeSI | emulator/npu_fp32.py:26-30 | decoding inverts the short encoding for every opcode and operand |
| Device.DecodeLO | emulator/npu_fp32.py:31-34 | decoding inverts the 24-bit address encoding |
| Firmware.StoreThenWindow | emulator/npu_device_mini.py:425-490 | a full-mask store at offset 0 is read back rounded twice |
| Firmware.NothingMasked | emulator/npu_device_mini.py:581-607 | a full matrix mask blanks no row whatever the dimension |
| Attention.ShiftScalesMass | adderboard/firmware/adder_140p.c:148-159 | subtracting any shift scales the softmax mass by one factor; masked lanes add nothing |
| Attention.ShiftedWeight | adderboard/golden/golden_140p.py:142-158 | weights from shifted exponentials are the textbook softmax weights |
| Attention.ShiftedMixIsMix | adderboard/firmware/adder_140p.c:161-193 | the padded, shifted mixture over all lanes is the causal context over the live ones |
| Attention.GoldenIsCausalAttention | adderboard/golden/golden_140p.py:142-158 | the NumPy reference (masked scores, stable softmax, residual) equals the textbook causal attention |
| AdderFirmware.LoadKeyTile | adderboard/firmware/adder_140p.c:113-130 | the row-buffer path leaves the live key rows and zero rows in the matrix register |
| AdderFirmware.ScoreLane | adderboard/firmware/adder_140p.c:113-147 | each lane of a tile is the scaled masked score of its own position, minus infinity for masked and padding lanes |
| AdderFirmware.TileMaximum | adderboard/firmware/adder_140p.c:141-143 | folding a tile's lane maximum into the scalar gives the maximum over all live scores so far |
| AdderFirmware.ScorePass | adderboard/firmware/adder_140p.c:109-147 | after pass 1 the score buffer holds every lane and scalar 0 the largest live score |
| AdderFirmware.SumPass | adderboard/firmware/adder_140p.c:145-159 | after pass 2 the scalars hold the shifted softmax mass and its reciprocal |
| AdderFirmware.MixTile | adderboard/firmware/adder_140p.c:161-193 | a zero value column silences its lane, so a tile adds exactly the live terms, the aliased lane included |
| AdderFirmware.ContextPass | adderboard/firmware/adder_140p.c:161-193 | after pass 3 the context row is the mixture over all tiles although probabilities overwrite the last score lane |
| AdderFirmware.MixedIsContext | adderboard/firmware/adder_140p.c:161-193 | that mixture is the textbook context row |
| AdderFirmware.Query | adderboard/firmware/adder_140p.c:109-193 | one query's three passes leave its textbook context row and touch no other row |
| AdderPhase1.ClearContexts | adderboard/firmware/adder_140p.c:104-107 | all context rows start at zero, nothing else changes |
| AdderPhase1.Attend | adderboard/firmware/adder_140p.c:109-193 | every query row, with earlier rows surviving later queries |
| AdderPhase1.ProjectRow | adderboard/firmware/adder_140p.c:195-199 | the projected row is W_q^T times the context |
| AdderPhase1.ServedLength | adderboard/firmware/adder_140p.c:93-94 | the two corrections give the number of positions in 1 .. MAX_SEQ nearest to the one asked for |
| AdderPhase1.Phase1 | adderboard/firmware/adder_140p.c:91-208 | main result: row i of the residuals is exactly X[i] + W_q^T * sum of softmax weight times value over positions up to i, for every i below the sequence length asked for and below MAX_SEQ, and for i = 0 always; DRAM changes only in the scratch range |

| AdderPhase1.ResidualIsGolden | adderboard/golden/golden_140p.py:142-161 | those rows equal the NumPy reference element by element |
| AdderPhase2.GateRow | adderboard/firmware/adder_140p.c:217-228 | gate * sigmoid(gate) * up of a position is in memory |
| AdderPhase2.DownRow | adderboard/firmware/adder_140p.c:230-231 | the down weights times the gated row |
| AdderPhase2.BlockRow | adderboard/firmware/adder_140p.c:216-237 | one position: gated row and new residual stream in place, earlier positions untouched |
| AdderPhase2.Phase2 | adderboard/firmware/adder_140p.c:211-243 | main result: every position asked for ends with x + W_down (gate * sigmoid(gate) * up), the last row is copied to where the host reads it, and nothing else changes outside the scratch range |
| AdderPhase2.SigmoidsAgree | adderboard/golden/golden_140p.py:57-67 | the reference's sigmoid, written in two forms by sign, is 1 / (1 + exp(-x)) |
| AdderPhase2.HiddenIsGolden | adderboard/golden/golden_140p.py:160-169 | the rows phase 2 leaves equal the reference's SwiGLU block with its residual, element by element |
| AdderPhase2.PhasesMeet | adderboard/firmware/adder_140p.c:91-243 | what phase 1 leaves is what phase 2 expects to add to |
| TiledMvm.DotSplit | tests/gen_golden_bert.py:130-174 | an inner product splits at a tile boundary |
| TiledMvm.GoldenTileIsProduct | tests/gen_golden_bert.py:130-174 | when rounding is the identity the tiled reference is W x + b, element by element |
| TiledMvm.TileProduct | jimu-dse/baseline/bert_layer.c:146-156 | MV_MUL of a stored tile with a chunk is the reference's partial product |
| TiledMvm.TileStep | jimu-dse/baseline/bert_layer.c:145-172 | one inner iteration folds one tile into its own accumulator; banks in use elsewhere survive |
| TiledMvm.FoldTile | jimu-dse/baseline/bert_layer.c:157-161 | the save, load, load, add, store shuffle adds the new product to the old accumulator |
| TiledMvm.MvmTiledQ | jimu-dse/baseline/bert_layer.c:110-190 | main result: banks 7 and 8 hold the row tiles of round(tiled W x + b) for any idempotent rounding; DRAM is untouched |
| LayernormTiles.LayernormTile | jimu-dse/baseline/bert_layer.c:229-252 | one tile is normalised with its own gamma and beta while bank 7 is overwritten |
| LayernormTiles.ApplyLayernorm | jimu-dse/baseline/bert_layer.c:222-264 | main result: each tile ends normalised with its own parameters, the first one restored; DRAM changes only in the scratch range |
| Transpose.UnitPicks | jimu-dse/baseline/bert_layer.c:393-400 | the inner product with a unit vector picks one entry, or is not-a-number as soon as another entry is infinite or not-a-number |
| Transpose.LoadPositions | jimu-dse/baseline/bert_layer.c:374-386 | the matrix register holds V position-major, zero rows below, whatever numbers V holds |
| Transpose.TransposedIff | jimu-dse/baseline/bert_layer.c:374-408 | what the extraction leaves is the transpose if and only if every value to extract has no infinity or not-a-number beside it, or is itself what rounding makes of not-a-number |
| Transpose.BuildVT | jimu-dse/baseline/bert_layer.c:374-408 | main result: the matrix register holds the head's values as extracted, zeros elsewhere, the transpose exactly under that condition; the row buffer is empty again |
| HeadAttention.ScoreKeys | jimu-dse/baseline/bert_layer.c:343-364 | the pipeline holds the rounded products of the query with every stored key, and with the zero rows behind them |
| HeadAttention.SaveProbabilities | jimu-dse/baseline/bert_layer.c:366-370 | the rounded softmax of those scores is in scratch memory, nothing else in DRAM changed |
| HeadAttention.Mix | jimu-dse/baseline/bert_layer.c:372-419 | the rebuilt V^T times the saved probabilities is in the accumulator |
| HeadAttention.Head | jimu-dse/baseline/bert_layer.c:340-420 | main result: one head leaves its context, a function of stored keys, values and query, although the V^T build overwrites pipeline, operand bank and matrix; keys, values, query and unit vectors stay |
| AttentionReference.WeightShrinks | tests/gen_golden_bert.py:351-357 | zero scores behind the sequence shrink every softmax weight by one factor |
| AttentionReference.TileIsDiluted | jimu-dse/baseline/bert_layer.c:340-420 | over exact reals a lane of the firmware's context is attention over all lanes of the tile times the share of softmax mass on the sequence, and zero beyond the head |
| AttentionReference.ZOfHead | tests/gen_golden_bert.py:325-388 | of the reference's heads, each adding to Z on its own masked lanes, exactly one decides a lane |
| AttentionReference.WholeHead | tests/gen_golden_bert.py:325-388 | the reference's masks leave a head as wide as the tile unmasked |
| AttentionReference.ContextIsDiluted | tests/gen_golden_bert.py:320-388 | with one head a tile that lane is the reference's Z times the share; with a narrower head the firmware still computes what the reference computes for the wide one, cut to the head |
| AttentionReference.ContextAgreesIff | tests/gen_golden_bert.py:320-388 | with one head a tile an element equals the reference's if and only if the sequence fills the tile or the reference's element is zero |
| AttentionReference.AttentionAgreesIff | tests/gen_golden_bert.py:320-388 | main result: for all keys, values and queries of a length, every lane equals the reference's Z if and only if the head and the sequence fill the tile, or there is no position, or no head fits the tile |
| AttentionReference.LaterHeadsAgreeIff | tests/gen_golden_bert.py:325-388 | a lane behind the first head that a head of the reference fills is right for all inputs of a length if and only if there is no position |
| AttentionReference.FirstHeadAgreesIff | tests/gen_golden_bert.py:325-388 | so is, up to dimension eight, where the reference's mask has a bit for each lane, a lane of a first head narrower than the tile: its scores count lanes that the reference masks |
| AttentionReference.NarrowHeadDiffers | tests/gen_golden_bert.py:325-388 | counterexample: two heads of one lane, two positions: e / (e + 1) against a half, and zero against e / (e + 1) |
| AttentionReference.PaddingHalves | tests/gen_golden_bert.py:351-357 | counterexample: one position in a tile of two comes out as half of the reference's one |
| BertAttention.SaveRowTiles | jimu-dse/baseline/bert_layer.c:192-201 | row tiles held in the two banks are stored at the given distance; nothing outside, and no gap between tiles at the stride of eight, changes |
| BertAttention.ComputePositions | jimu-dse/baseline/bert_layer.c:272-301 | every position's row tiles of one projection are saved, earlier positions surviving later ones |
| BertAttention.KeysAndValues | jimu-dse/baseline/bert_layer.c:459-463 | keys and values of all positions are saved and the query weights are still in place |
| BertAttention.TileHeads | jimu-dse/baseline/bert_layer.c:340-421 | however many heads a tile has, its bank ends with the context of one; with a head wider than the tile it stays zero |
| BertAttention.DotProductAttention | jimu-dse/baseline/bert_layer.c:316-422 | main result: the two context banks hold each tile row's attention of the reference's projections of query, keys and values; DRAM changes only in the query region and the scratch vector, and the next query finds all it needs |
| BertLayer.LoadAndAdd | jimu-dse/baseline/bert_layer.c:203-214 | held plus stored row tiles, rounded |
| BertLayer.NormaliseTiles | jimu-dse/baseline/bert_layer.c:222-264 | held row tiles are normalised one by one with the stored parameters |
| BertLayer.SelfOutput | jimu-dse/baseline/bert_layer.c:474-491 | the reference's self-output projection of a held context, stored |
| BertLayer.AddInput | jimu-dse/baseline/bert_layer.c:493-507 | the input row is saved for later and added to the stored self-output |
| BertLayer.AttentionOutput | jimu-dse/baseline/bert_layer.c:474-514 | from a held context to the reference's layer_norm_output, stored |
| BertLayer.FeedForward | jimu-dse/baseline/bert_layer.c:516-535 | both feed-forward products with round(gelu(lane)) between them, although GELU also runs over a bank that may hold no tile |
| BertLayer.FinishRow | jimu-dse/baseline/bert_layer.c:536-540 | second residual and normalisation, stored as the position's output |
| BertLayer.OneMoreOutput | jimu-dse/baseline/bert_layer.c:465-541 | a position's work leaves the output rows of earlier positions alone |
| BertLayer.Position | jimu-dse/baseline/bert_layer.c:465-541 | one more output row, with weights, parameters, inputs, keys and values still in place |
| BertLayer.EncoderLayer | jimu-dse/baseline/bert_layer.c:434-546 | main result: for any idempotent rounding and any kernels the output region ends with every position's row of the reference's stages after attention applied to the firmware's attention; DRAM changes only in the work area |
| BertLayer.OutputLane | jimu-dse/baseline/bert_layer.c:536-540 | where in memory each number of a finished position's output stands |
| BertReals.GelusReals | kernels/activation.c:6-17 | without rounding and with the C kernel, a feed-forward lane is the tanh form of GELU of the lane |
| BertReals.NormalisedReals | kernels/layernorm.c:6-30 | and a normalised row tile is (x - mean) / sqrt(variance + eps) * gamma + beta |
| BertReals.AttendedReals | tests/gen_golden_bert.py:390-412 | so the first half of the layer, from the attention context on, is the norm of W z + b + x, tile by tile |
| BertReals.LayerOutReals | tests/gen_golden_bert.py:414-442 | main result: and its output is the norm of W_o gelu(W_i a + b_i) + b_o + x over the reals |
| BertLayout.ProjectionsFreeIff | tests/integration/test_bert_e2e.py:146-168 | the generated layout keeps all matrices and biases out of the work area if and only if the projections end at 0x200 |
| BertLayout.TestedLayouts | tests/integration/test_bert_e2e.py:476-490 | every configuration of the end-to-end test satisfies the address conditions of the layer, one of them with parameters in the gaps between saved row tiles |
| BertLayout.SixteenNeverFits | jimu-dse/baseline/bert_layer.c:43-59 | two tiles of eight do not fit for any sequence length: already with one position the saved keys lie inside the value weights |
| BertLayout.KeysOverwriteValues | jimu-dse/baseline/bert_layer.c:43-59 | at that layout, memory that holds the first saved key tile and the last tile of the value weights has the key equal to eight of those weights |
| RunInvariant.BaseKeeps | emulator/npu_device_mini.py:329-412 | every handler keeps banks exact, lengths fixed and the pipeline wide enough |
| RunInvariant.ExecuteKeeps | emulator/npu_device_mini.py:329-412 | so does every instruction, increment variants included |
| RunInvariant.ResetKeeps | emulator/npu_device_mini.py:294-306 | a reset gives every bank back at its allocated length and keeps the invariant |
| RunInvariant.ResetClears | emulator/npu_device_mini.py:294-306 | which banks a reset empties, at which length, and which it keeps |
| RunInvariant.EveryRunKeeps | emulator/npu_device_mini.py:259-306 | main result: after any instructions, CPU stores and resets, as long as the tile-row count is never set to zero and no store is shorter than a number, no fault has happened, every bank but DRAM is FP16-exact, lengths are as allocated, and the pipeline spans a vector |
| RunInvariant.ZeroTileRowsFaults | emulator/npu_device_mini.py:453-518 | counterexample at every dimension: five instructions with a zero tile-row count make V_WR raise |
| RunInvariant.SafeExactlyWhenAdmissible | emulator/npu_device_mini.py:259-286 | main result: after every admissible run, an event leaves all admissible continuations free of faults if and only if it is admissible, that is, neither clears the tile-row count nor stores less than a number |
| RunInvariant.NarrowProductReadsAcross | emulator/npu_device_mini.py:581-607 | counterexample on a whole run: a tile of side two under a pipeline of one gives the product that crosses row ends |
| RunInvariant.Serve | emulator/npu_device_mini.py:259-306 | the device object, serving any port events, resets included, reaches the state of the run |
| RunInvariant.TileRowsSafeIff | emulator/npu_device_mini.py:414-424 | writing v to the tile-row register is safe for every admissible program if and only if v is at least one |
| EventTrace.EventTracer.Execute | emulator/npu_event_trace.py:252-271 | tracing changes nothing on the device and records one event per dispatcher call, an increment variant's own call first, each with the definitions and uses of the table |
| EventTrace.EventTracer.ExecuteIncrements | emulator/npu_device_mini.py:329-412 | the expansion of an increment variant records the calls really made, up to a fault |
| EventTrace.EventTracer.RunProgram | emulator/npu_event_trace.py:247-274 | a whole traced program leaves the device as untraced and lists exactly the events of the calls made, each with its own word, up to an exception |
| EventTrace.NamesTell | emulator/npu_event_trace.py:54-92 | an event's name tells its opcode, and for a vector function which one |
| EventTrace.NamesUsed | emulator/npu_event_trace.py:54-92 | every opcode that has a name is traced under it |
| EventTrace.IncrementsByName | emulator/npu_device_mini.py:329-412 | the device expands exactly the increment variants, each to the instruction its name repeats |
| TraceTable.UsesSuffice | emulator/npu_event_trace.py:95-218 | main result: on either device, two states that agree on what the table lists as used and on the named omissions agree, after the call, on all it lists as defined |
| TraceTable.DefsCover | emulator/npu_event_trace.py:95-218 | main result: a resource the table does not list as defined keeps its contents, but for the named ones and windows the write runs across |
| TraceTable.NothingListedTwice | emulator/npu_event_trace.py:95-218 | no omission named there is a use of the table, and nothing named undeclared one of its definitions, but for the scalar functions |
| TraceTable.EdgesCarryValues | emulator/npu_dag.py:15-46 | main result: whatever resource a call uses holds what the source of its edge left in it, or the initial contents when it has no edge, unless something disturbs it unlisted |
| TraceTable.LayernormFollowsEdges | emulator/npu_device_mini.py:682-697 | main result: a layer normalisation takes its gamma and its beta from the stores at the sources of its two edges, or from the initial banks |
| TraceTable.NormaliseEdges | jimu-dse/baseline/bert_layer.c:238-250 | in the stream of apply_layernorm the V_FUNC has its edges from both parameter stores and from the tile's load |
| TraceTable.LoadMovesPipe | emulator/npu_event_trace.py:113-125 | counterexample: a load's saved operand depends on the old pipeline, which the table does not list |
| TraceTable.RowsAccumulate | emulator/npu_event_trace.py:136-145 | counterexample: so does the row buffer on its old rows |
| TraceTable.MatrixTakesRows | emulator/npu_event_trace.py:127-134 | counterexample: and the matrix M_RD builds on the row buffer |
| TraceTable.TileTakesMore | emulator/npu_event_trace.py:190-192 | counterexample: and a matrix tile on more of DRAM than its first vector |
| TraceTable.ScalarTargetExchanged | emulator/npu_event_trace.py:205-211 | counterexample: S_RECIP writes the scalar the table lists as used and leaves the one it lists as defined |
| TraceTable.ProductClearsOperand | emulator/npu_event_trace.py:150-153 | counterexample: a product clears the saved operand, which the table does not list as defined |
| Dag.BuildDag | emulator/npu_dag.py:32-46 | an edge is listed exactly when its source is the reaching definition of a resource its target uses; none twice |
| Dag.DagGivesSequentialValues | emulator/npu_dag.py:15-46 | for any per-event function, evaluating each event from its edges and the initial store alone gives the sequential values |
| DagDevice.WindowHistory | emulator/npu_fp32.py:46-125 | along a run an accessed window holds what its last store stored, or the initial contents |
| DagDevice.LoadsFollowEdges | emulator/npu_event_trace.py:95-218 | main result: every vector load delivers the vector stored by the source of its edge, or the initial contents when it has none |
| DagDevice.CallsReplay | emulator/npu_event_trace.py:252-271 | replaying the traced calls of an instruction reproduces the instruction |
| DagDevice.ProgramReplays | emulator/npu_event_trace.py:252-271 | replaying all traced calls of a program reproduces the program, although the replay never moves the auto-increment address |
| DagDevice.ProgramLoadsFollowEdges | emulator/npu_event_trace.py:95-218 | main result: for every program, the DAG of the events it traces is true of every vector load it makes |
| MicroOps.TracedIsShaped | emulator/npu_event_trace.py:95-218 | which kinds of resource an event of each name can define and use, for every trace |
| MicroOps.GroupCovers | emulator/npu_micro_op_dag.py:128-549 | whichever pattern matches, the group's definitions and uses cover those of its events for every tracked resource |
| MicroOps.OperationsByCode | emulator/npu_micro_op_dag.py:44-52 | which opcodes count as binary and as unary |
| MicroOps.ClassesByCode | emulator/npu_micro_op_dag.py:410-430 | which opcodes a vector function absorbs |
| MicroOps.ClassesAgree | emulator/npu_micro_op_dag.py:44-52 | what the device runs as binary operation or activation is what the collapser takes for one |
| GroupShapes.GroupIff | emulator/npu_micro_op_dag.py:128-549 | main result: the group that begins at an event has a kind and an end if and only if the trace has that kind's shape there; the shapes exclude each other and cover every trace |
| GroupShapes.ProductMatched | emulator/npu_micro_op_dag.py:273-339 | a product's group runs from its first operand load to its last store |
| GroupShapes.NoAccumulation | emulator/npu_micro_op_dag.py:258-271 | the accumulation pattern never matches a traced event |
| MicroOpDag.CollapseToMicroOps | emulator/npu_micro_op_dag.py:85-549 | the groups partition the trace, and each has the operations and the end its kind calls for, stores behind a product included |
| MicroOpDag.BuildMicroOpDag | emulator/npu_micro_op_dag.py:564-671 | the edges are exactly the def-use pairs between micro-ops and, if asked for, the links to the last pipeline producer; none twice |
| MicroOpDag.EdgesGoForward | emulator/npu_micro_op_dag.py:590-671 | every edge of either phase goes from an earlier to a later micro-op |
| MicroOpDag.NoDependencyLost | emulator/npu_micro_op_dag.py:590-628 | main result: every event-level dependency between events of different groups is an edge between the groups |
| MicroOpDag.EdgesExactly | emulator/npu_micro_op_dag.py:590-628 | an edge between groups exists if and only if a definition in one reaches a use in the other with none between |
| MicroOpDag.CoordinateDefinedOnce | emulator/npu_micro_op_dag.py:128-549 | no two micro-ops define the same matrix coordinate |
| MicroOpDag.MatrixEdgeMatches | emulator/npu_micro_op_dag.py:128-671 | a product is linked to the group of the load that reaches it exactly when that load is one the pass numbers |
| MicroOpDag.MatrixEdgeExactly | emulator/npu_micro_op_dag.py:128-671 | a product is linked to a group by a matrix coordinate if and only if that group opens with the last numbered load before it |
| MicroOpDag.MatrixEdgesAgreeIff | emulator/npu_micro_op_dag.py:128-671 | main result: a product's micro-op matrix edges are exactly its event-level one, none missing and none added, if and only if the load that reaches it is numbered |
| MicroOpDag.MatrixEdgesAgree | emulator/npu_micro_op_dag.py:128-671 | so they are on every product of a trace whose loads are all numbered |
| Groupings.ProductsWhole | emulator/npu_micro_op_dag.py:273-339 | main result: every product lies in a product group with all loads in front and all stores behind; a V_RD directly before it belongs to a vector function's group |
| Groupings.BinariesWhole | emulator/npu_micro_op_dag.py:341-375 | a binary operation between a load and a store lies in one group with both and with every further store, unless a vector function took the operation or the load |
| Groupings.UnariesWhole | emulator/npu_micro_op_dag.py:377-408 | a unary operation behind a load, with another or a store behind it, lies in one group with the load, the whole run and every store, unless a vector function took the load |
| Groupings.ProductFeeds | emulator/npu_micro_op_dag.py:590-628 | main result: a use of what a store directly behind a product defined is an edge from the product's own group |
| Groupings.ProducersExactly | emulator/npu_micro_op_dag.py:650-654 | exactly which groups the pipeline pass takes for producers, against what they define |
| Groupings.ConsumersExactly | emulator/npu_micro_op_dag.py:655-659 | exactly which groups it takes for consumers, against what they use |
| MicroOpDag.BareLoadIsUnlinked | emulator/npu_micro_op_dag.py:495-549 | counterexample: V_RD, M_RD_DRAM, V_RD, MV_MUL has a matrix edge between events and none between micro-ops |
| MicroOpDag.BareLoadLinksEarlier | emulator/npu_micro_op_dag.py:495-549 | counterexample: behind a numbered load the product of a bare one is linked to the earlier load |
| Clusters.ClassifyExactly | emulator/npu_micro_op_dag.py:907-946 | an address belongs to a tensor if and only if it lies between the tensor's base and its limit |
| Clusters.ClassifyInvertsLayout | emulator/npu_micro_op_dag.py:922-946 | classifying the address of row tile tr at position pos gives that tensor and that position back |
| Clusters.LastTargetCounts | emulator/npu_micro_op_dag.py:1166-1173 | the last known DRAM definition gives the place a store writes |
| ClusterTraffic.LoadBytes | emulator/npu_micro_op_dag.py:1135-1141 | the load bytes of a vector load inside DRAM are those the FP16 device counts |
| ClusterTraffic.TileBytes | emulator/npu_micro_op_dag.py:1159-1163 | so are those of a weight tile |
| ClusterTraffic.StoreBytes | emulator/npu_micro_op_dag.py:1166-1173 | and the store bytes of a store to a known tensor; a store elsewhere counts none |
| ClusterTraffic.ProductFlops | emulator/npu_micro_op_dag.py:1176-1177 | a product counts a multiplication and an addition for every element of the matrix |
| Clusters.MembersConcat | emulator/npu_micro_op_dag.py:1117-1120 | connected micro-ops of adjacent ranges concatenate in order |
| Clusters.MergeExact | emulator/npu_micro_op_dag.py:1252-1260 | merging neighbours with one producer gives exactly the cluster of the joint range, members, producer and totals |
| Clusters.GapIsUnconnected | emulator/npu_micro_op_dag.py:1237-1251 | between neighbours with members there is no connected micro-op |
| Clusters.CanMerge | emulator/npu_micro_op_dag.py:1234-1252 | the merge test reduces to the same producer: the DRAM-read guard never blocks |
| Clusters.LoadDoesNotSplit | emulator/npu_micro_op_dag.py:1078-1263 | counterexample: a scratch store, a DRAM load and a second store of that row come out as one cluster |
| Clusters.TensorCluster.Absorb | emulator/npu_micro_op_dag.py:1252-1260 | extending and sorting the member list is plain concatenation, and totals add |
| Clusters.BuildCluster | emulator/npu_micro_op_dag.py:1117-1208 | a new cluster carries the connected micro-ops of its range, their totals and the place its store writes |
| Clusters.CutAtStores | emulator/npu_micro_op_dag.py:1098-1226 | one cluster a store, then the tail if it has a member |
| Clusters.MergeNeighbours | emulator/npu_micro_op_dag.py:1228-1263 | merging in place over the object list gives the left-to-right merge of their values |
| Clusters.MergeAllKeeps | emulator/npu_micro_op_dag.py:1228-1263 | merging keeps every cluster exact and the ranges gapless, and leaves no two neighbours with one producer |
| Clusters.TilingConserves | emulator/npu_micro_op_dag.py:1104-1226 | member lists of a gapless tiling concatenate to the connected micro-ops, and their totals are the totals over those |
| Clusters.ClustersConserve | emulator/npu_micro_op_dag.py:1096-1263 | main result: members, ranges, bytes and FLOPs are conserved from the graph through cutting and merging |
| Clusters.ExtractClusters | emulator/npu_micro_op_dag.py:1078-1263 | the whole extraction returns those clusters |
| VectorKernels.ShiftedSoftmax | kernels/softmax.c:6-26 | exp(x - shift) over its sum is the plain softmax for any shift |
| VectorKernels.SoftmaxIsDistribution | kernels/softmax.c:6-26 | the weights are positive and sum to one |
| VectorKernels.Softmax | kernels/softmax.c:6-26 | the three loops leave the plain softmax, no maximum in its definition |
| VectorKernels.VecAdd | kernels/elementwise.c:6-11 | the sum of the old operands, also when the target is one of them; nothing else changes |
| VectorKernels.MvMul | kernels/mv_mul.c:6-16 | the matrix-vector product into an array segment |
| VectorKernels.Layernorm | kernels/layernorm.c:6-30 | (x - mean) / sqrt(variance + eps) * gamma + beta of the old contents, in place or not; the variance is never negative, so the root is taken of a positive number |
| VectorKernels.NormalisedSum | kernels/layernorm.c:6-30 | before gamma and beta a normalised row sums to zero |
| VectorKernels.NormalisedSquares | kernels/layernorm.c:6-30 | and its squares sum to the variance times the length over the squared divisor |
| VectorKernels.Gelu | kernels/activation.c:6-17 | the tanh form of GELU of the old contents, in place or not |
| Encoder.ProjectRows | kernels/bert_encoder.c:61-66 | every row projected into another segment; all other rows of the buffer kept |
| Encoder.MixHead | kernels/bert_encoder.c:104-112 | one head's columns of one query's row become the softmax-weighted sum of the values; other columns stay |
| Encoder.AttendHead | kernels/bert_encoder.c:87-114 | one head for every query, with queries, keys and values intact |
| Encoder.AttendAll | kernels/bert_encoder.c:82-114 | all heads; columns beyond the last whole head stay zero |
| Encoder.FeedForwardRows | kernels/bert_encoder.c:136-144 | project, add and activate in place equals the activation of the projection |
| Encoder.NormRows | kernels/bert_encoder.c:126-134 | residual and normalisation in place; the target may be the residual input itself |
| Encoder.AfterAttention | kernels/bert_encoder.c:116-161 | the second half over the reused segments is the pure composition |
| Encoder.BertEncoderLayer | kernels/bert_encoder.c:21-166 | main result: output is the pure composition of the eight stages for every size and head count, weights unchanged, input unchanged unless it is the output |
| Bfp.CeilLog2Unique | kernels/bfp.c:36-44 | the least exponent whose power of two reaches a number is the only one that does so minimally |
| Bfp.ExponentFits | kernels/bfp.c:36-44 | the chosen exponent is the least at which the block's largest magnitude fits the mantissa |
| Bfp.MantissaIsClose | kernels/bfp.c:50-59 | at a fitting exponent the clamp does nothing and the decoded number is within half a unit |
| Bfp.RoundIsOdd | kernels/bfp.c:50-59 | rounding takes ties away from zero, alike for both signs |
| Bfp.LargestFills | kernels/bfp.c:36-59 | the largest number of a block gets at least half the mantissa range |
| Bfp.BlockOf | kernels/bfp.c:20-29 | an index lies in exactly one block, the last one possibly partial |
| Bfp.FloatToBfp | kernels/bfp.c:17-61 | the block loop leaves the encoding of the input and nothing else |
| Bfp.BfpToFloat | kernels/bfp.c:63-81 | the decoding, block by block |
| Bfp.HalfUnitError | kernels/bfp.c:17-81 | main result: every element of every block decodes within half a unit of its input, unclamped |
| Bfp.EncodingProjects | kernels/bfp.c:17-81 | main result: encoding the decoded vector returns the same mantissas and exponents |
| Bfp.EncodingUnique | kernels/bfp.c:17-61 | a vector has one encoding |
| Bfp.EncodingNegates | kernels/bfp.c:17-61 | negating a vector negates its mantissas and keeps its exponents |
| Bfp.ProductOfDecoded | kernels/bfp.c:212-220 | scaling an integer product once by the sum of the exponents multiplies the decoded numbers |
| Bfp.QuotientRounds | kernels/bfp.c:223-236 | the unclamped mantissa is already in range and within half a unit |
| Bfp.MvMulBfp | kernels/bfp.c:202-238 | main result: every row's result is the exact product of decoded row and vector, within half its unit, in range, at the least exponent that fits, zero for a zero sum |
| TraceRecorder.TraceRecorder.Load | emulator/trace_recorder.py:60-69 | what a load records, and that instruction words stay those of the full trace |
| TraceRecorder.TraceRecorder.Store | emulator/trace_recorder.py:71-109 | what a store records in every address range, the clearing reset included |
| TraceRecorder.TraceRecorder.ExtractBatches | emulator/trace_recorder.py:120-159 | the loop returns the batches of the trace, and they flatten to the recorded instruction words |
| TraceRecorder.BatchesKeepWords | emulator/trace_recorder.py:120-159 | for any trace no word is lost or moved and no batch is empty |
| TraceRecorder.GapDecides | emulator/trace_recorder.py:120-159 | on any trace a stretch without instructions ends the current batch if and only if it holds two status reads in a row |
| TraceRecorder.ExtractedIsMerged | emulator/trace_recorder.py:120-159 | what extraction gives on every driver trace, empty batches and anything but instructions between batches allowed |
| TraceRecorder.ExtractedIffAllSeen | emulator/trace_recorder.py:120-159 | main result: the non-empty batches come back if and only if two status reads follow each other somewhere between each of them and the next non-empty one |
| TraceRecorder.ExtractedIffPolledTwice | emulator/trace_recorder.py:120-159 | so for non-empty batches: if and only if the wait, what is recorded behind it, and the next send's poll hold two status reads in a row |
| TraceRecorder.ExtractInvertsDriver | firmware/lib/npu_driver.c:14-42 | main result: batches sent back to back come out as they went in, empty ones dropped |
| TraceRecorder.ExtractedIffNoGaps | emulator/trace_recorder.py:120-159 | the case without further polls: non-empty batches come back if and only if nothing else is recorded between a wait and the next send |
| TraceRecorder.PollRestoresBoundary | emulator/trace_recorder.py:120-159 | with a status poll behind such a write the boundary is seen again |
| TraceRecorder.WindowWriteMergesBatches | emulator/trace_recorder.py:120-159 | counterexample: one DRAM window write merges two batches |
| TraceRecorder.NpuSendInst | firmware/lib/npu_driver.c:14-21 | one status read and one write, since the emulated device is never full |
| TraceRecorder.NpuWaitDone | firmware/lib/npu_driver.c:38-42 | one status read, since the emulated device is done after an instruction |
| TraceRecorder.ReplayBatches | emulator/trace_recorder.py:171-190 | replaying batches through the driver records a trace from which exactly those batches are extracted |
| TraceRecorder.OneEventEach | emulator/npu_event_trace.py:248-274 | without increment variants each word is one event that carries it |
| TraceRecorder.SplitEventsIntoBatches | emulator/npu_op_graph.py:185-221 | the slicing loop gives the split by sizes, a trailing batch included |
| TraceRecorder.SplitKeepsEvents | emulator/npu_op_graph.py:185-221 | for any sizes no event is lost, repeated or moved |
| TraceRecorder.EventsFollowBatches | emulator/npu_op_graph.py:185-221 | without increment variants the extracted sizes cut a run's events exactly at the driver's batches |
| CacheRewrite.BaseSim | emulator/npu_device_mini.py:329-412 | an instruction that leaves the slot alone keeps two agreeing devices in agreement |
| CacheRewrite.BaseKeepsSlot | emulator/npu_device_mini.py:329-412 | and leaves the scratch vector and the cache bank as they are |
| CacheRewrite.RunSim | emulator/npu_device_mini.py:259-412 | so does every run of instructions and CPU stores that leaves the slot alone, faults included |
| CacheRewrite.LoadsSameIff | emulator/npu_device_mini.py:532-550 | under a partial read mask the two loads agree exactly when every blanked lane rounds to zero |
| CacheRewrite.CacheReplacesScratch | firmware/bert/bert_layer.c:298-346 | main result: replacing the DRAM round trip by a bank leaves states equal but for the slot, the bank and one store's and one load's traffic |
| Iss.DecodesI | iss/mini_rv64.py:172-174 | decoding inverts the I encoding for every offset |
| Iss.DecodesB | iss/mini_rv64.py:149-154 | decoding inverts the B encoding for every even offset |
| Iss.DecodesJ | iss/mini_rv64.py:137-143 | decoding inverts the J encoding for every even offset |
| Iss.DecodesSIffNotNegative | iss/mini_rv64.py:189-192 | the S encoding is inverted if and only if the offset is not negative; a negative one comes out 2048 too high |
| Iss.NegativeStoreOffset | iss/mini_rv64.py:189-192 | counterexample: a store at -8 goes to 2040 |
| Iss.MiniRV64.Step | iss/mini_rv64.py:115-327 | one modelled instruction, right shifts included, changes rd, keeps x0 at zero and advances the counters; `IssAssembly.StepMeans` says to what, by operands |
| Iss.ValueCongruent | iss/mini_rv64.py:132-294 | each covered instruction's unbounded result is congruent modulo 2^64 to the one of sections 2.4, 5.2 and 7.1 of the RISC-V Unprivileged ISA (20191213) |
| Iss.ValueCongruentIff | iss/mini_rv64.py:132-294 | main result: every modelled instruction's result is congruent to the standard's if and only if it is not a right shift that moves one of the high 32 bits into its result |
| Iss.LogicCongruent | iss/mini_rv64.py:213-242 | XOR, OR and AND on unbounded integers agree with the bit-by-bit operators on any number of low bits |
| Iss.ShiftLosesHighHalf | iss/mini_rv64.py:215-220 | counterexample: SRLI by 4 of 2^32 gives 0 where the standard gives 2^28 |
| Iss.StepCongruentIff | iss/mini_rv64.py:115-327 | one step keeps all registers congruent if and only if its result is right or goes to x0 |
| Iss.RunCongruentIfRight | iss/mini_rv64.py:115-327 | main result: along every straight-line run without such a shift all registers stay congruent and x0 stays zero |
| Iss.RunCongruent | iss/mini_rv64.py:115-327 | in particular along every run of covered instructions, whatever the register contents |
| Iss.ShiftRightIff | iss/mini_rv64.py:215-238 | an executed SRL or SRLI is right if and only if no bit above the low 32 would have survived the shift |
| IssAssembly.FieldsOfR | iss/mini_rv64.py:119-127 | the field decoders invert the R format |
| IssAssembly.FieldsOfI | iss/mini_rv64.py:119-127 | and the I format |
| IssAssembly.FieldsOfShift | iss/mini_rv64.py:119-127 | and its form with a shift amount |
| IssAssembly.FieldsOfU | iss/mini_rv64.py:119-135 | and the U format |
| IssAssembly.RefMeans | iss/mini_rv64.py:132-294 | the reference step on the assembled word of each of 23 mnemonics gives its target register the value the standard says, from the operands named |
| IssAssembly.StepMeans | iss/mini_rv64.py:115-327 | main result: the simulator's target register holds that value modulo 2^64 if and only if no right shift moves a high bit into it; every other register is as it was |
| IssAssembly.ProgramRuns | iss/mini_rv64.py:115-327 | main result: so does every assembled straight-line program without such a shift |
| IssAssembly.KnownWords | iss/mini_rv64.py:119-127 | six words as an assembler encodes them |
| IssAssembly.LogicShares | iss/mini_rv64.py:213-242 | AND and OR of unbounded integers add up to the operands, XOR is their difference |

## Left out

- IEEE rounding of float and double, `log2f`, `expf`, `tanhf`: finite arithmetic is exact, FP16 rounding is any idempotent function, the exponent is the least one that fits.
- The mask constant -1e30 and the fill pattern 0xFC00 are minus infinity, whose exponential is zero.
- The device's softmax and layer normalisation kernels are parameters of the device model; their C code is proved in `VectorKernels` over exact reals.
- Fixed integer widths of the C kernels (`1 << frac_bits`, buffer sizes, mantissas) and the encoder's failure return when an allocation fails.
- TraceRecorder.NpuSendInst: a full FIFO is not modelled, because the emulated device never reports one.
- DagDevice.LoadsFollowEdges: stated for runs without M_WR_DRAM, CPU stores or V_RD and V_WR on bank 0, with accesses to a bank at equal offsets or a vector apart, without a write of zero to the tile-row count (after which V_WR can raise), and with a pipeline present at every store, because the trace table cannot tell these apart.
- MicroOpDag.NoDependencyLost: pipeline, saved operand and the unnumbered matrix register are not among its resources; matrix edges have their own statement.
- TiledMvm.MvmTiledQ: at most two tiles, and a dimension of at most 64 when there are two, which is all the two accumulators and the multiply bank hold; weights, input and bias are FP16-exact, as the reference generator rounds them.
- LayernormTiles.ApplyLayernorm: dimension at most 8, the firmware's constant stride.
- BertLayer.EncoderLayer: dimension at most 8 and at most two tiles, the firmware's stride and banks; input, weights, parameters and unit vectors are FP16-exact and stored outside the work area or, for the parameters, in the gaps between saved row tiles; the saved rows of all positions fit one region of 256 addresses; at least one head and no more than hidden elements, or the C code divides by zero. The final wait is a poll of the status and is not modelled.
- AttentionReference.AttentionAgreesIff: finite keys, values and queries, no rounding, the proved C softmax as the device's kernel, and an exponential that tells one from zero.
- TraceRecorder.ExtractedIsMerged: what is recorded between batches holds no instruction write; one would belong to a batch.
- Iss.MiniRV64.Step: takes the fetched word of a modelled instruction; fetching, memory and control transfer are not modelled.
- Iss.RunCongruentIfRight: models LUI, AUIPC, ADDI, XORI, ORI, ANDI, SLLI, SRLI, ADD, SUB, XOR, OR, AND, SLL, SRL, ADDIW, SLLIW, SRLIW, ADDW, SUBW, SLLW, SRLW, MULW; the compare, arithmetic right shift, branch, load, store, divide and 64-bit multiply instructions are not run.
- Cluster identifiers and labels, operator naming and colours: cosmetic.
- AdderPhase2.Phase2: the sigmoid kernel is taken as its C code computes it; the tile registers are those phase 1 or the device's defaults leave. The phase flag that selects between the two phases is not modelled.
- BertReals.LayerOutReals: finite parameters, no rounding, and the C kernels of GELU and layer normalisation as the device's.
- TraceTable.LayernormFollowsEdges: for a pipeline of exactly one vector; with a longer one the parameters beyond the first vector are among the table's omissions.
- Groupings.ProductFeeds: pipeline, saved operand and matrix register are not among its resources, as in `MicroOpDag.NoDependencyLost`.
- Clusters.ClustersConserve: FLOPs are the source's estimate, so many a lane or matrix element by kind (`ClusterTraffic.ProductFlops`, `LaneFlops`); they are tied to no count of what a kernel executes.
- The BERT firmware's main function, and its newer variant beyond the softmax cache.
- HDL-format block floating point, ELF loading, HDL replay, cycle timing, text and DOT rendering, reports, training, sweep and translation scripts.
