# Verified model of the PCC-guided HEVC CU decision

This project models, in Dafny, the coding-unit (CU) decision engine of the
HM-16.20+SCM-8.8 encoder as it is modified in two branches of the MPEG
point-cloud test model (TMC2): the `netTest` branch and the
`featuresExtracting` branch. The model also covers the loaders that read
each video's occupancy map from disk before encoding starts.

The encoder searches one coding tree unit (CTU) at a time. In `xCompressCU`
it tries the candidate CU modes, keeping the cheaper one by rate-distortion
(RD) cost (`xCheckBestMode`). It then recurses into the four child CUs and
keeps the split only when the split is cheaper. `xEncodeCU` later writes the
chosen tree as a sequence of syntax elements. Around this core the branches
add:

- the occupancy map of the point-cloud frame, which classifies each CU as
  empty, full or mixed (`CUClassify`);
- a per-picture activity measure (`CalculateMinimumHVLumaActivity`);
- an 8x8 Hadamard complexity of intra CTUs (`updateCtuDataISlice`);
- a neural-network split veto in P slices, which can stop a CU from being
  split.

## How the model is built

- RD costs are `Cost = Finite(real) | MaxDouble`. `MaxDouble` stands for the
  MAX_DOUBLE sentinel, the cost of a candidate nothing has been chosen for.
- Each RD check whose insides are out of scope is an oracle parameter:
  motion search, transform, quantisation and entropy coding. The oracle
  returns a `Candidate`: partition, mode, bits, distortion, cost and flags.
  The decision logic built on the candidates follows the source's branches
  with `MCTS_ENC_CHECK` enabled (the tile-constraint tests of the intra gate
  and of the merge search are modelled). The exceptions are listed under
  "## Left out".
- The data of a CU is a value (`Candidate`). The pointer swap of
  `xCheckBestMode` becomes a swap of the returned best and temporary CU. The
  per-depth YUV buffers and the entropy-coder context snapshot become arrays
  of handles in the `BestMode.DepthBuffers` class.
- The recursive search is a function (`CuSearch.Compress`) paired with
  methods that compute it (`CuSearch.CompressCU`, `SplitCU`,
  `SearchChildren`).
- The syntax writer is the `EncodeCu.CuEncoder` class. Its `trace` field
  records the syntax elements written. Its two pending flags are the
  delta-QP and chroma-QP-adjustment flags that `xEncodeCU` sets and clears.
- The occupancy loaders' globals (`occupancyData`, `occupancyWidth`,
  `occupancyHeight`, `occupancyFrameNumber`, `QPr5`, `OorGorA`) are the
  `Occupancy.OccupancyGlobals` class. The file system is a parameter of type
  `map<string, seq<Byte>>`: a missing name is a failed `fopen`.
- Pictures are functions `(x, y) -> sample`, or byte sequences read with a
  stride.

## Model

| member | source | states |
|---|---|---|
| CuTypes.Clip3 | mpeg-pcc-tmc2-netTest/dependencies/HM-16.20+SCM-8.8_/source/Lib/TLibEncoder/TEncCu.cpp:1219-1220 | the result lies in [lo, hi]; it equals v when v is in range, and the violated bound otherwise |
| CuTypes.RdCost | mpeg-pcc-tmc2-netTest/dependencies/HM-16.20+SCM-8.8_/source/Lib/TLibEncoder/TEncCu.cpp:2428-2435 | the RD cost of a coded candidate is finite and at least its distortion |
| CuTypes.PartOrdinal | mpeg-pcc-tmc2-netTest/dependencies/HM-16.20+SCM-8.8_/source/Lib/TLibEncoder/TEncCu.cpp:1096-1102 | part-size ordinals are at most 8, and 8 exactly for NUMBER_OF_PART_SIZES (the "no parent shape" value) |
| CuTypes.AmpPartsAreTheFourAsymmetricShapes | mpeg-pcc-tmc2-netTest/dependencies/HM-16.20+SCM-8.8_/source/Lib/TLibEncoder/TEncCu.cpp:1096-1102 | the ordinal range test picks exactly 2NxnU, 2NxnD, nLx2N and nRx2N |
| CuTypes.LessIsStrictTotalOrder | mpeg-pcc-tmc2-netTest/dependencies/HM-16.20+SCM-8.8_/source/Lib/TLibEncoder/TEncCu.cpp:3473 | the cost comparison is irreflexive, transitive, total and asymmetric, with MAX_DOUBLE above every finite cost |
| CuTypes.Unset | mpeg-pcc-tmc2-netTest/dependencies/HM-16.20+SCM-8.8_/source/Lib/TLibEncoder/TEncCu.cpp:938-939 | a fresh CU has cost MAX_DOUBLE, no mode and no part size |
| BestMode.Keep | mpeg-pcc-tmc2-netTest/dependencies/HM-16.20+SCM-8.8_/source/Lib/TLibEncoder/TEncCu.cpp:3471-3509 | the kept CU is one of the two and costs no more than either; the temporary CU replaces the best only when strictly cheaper |
| BestMode.SweepBestIsMinimum | mpeg-pcc-tmc2-netTest/dependencies/HM-16.20+SCM-8.8_/source/Lib/TLibEncoder/TEncCu.cpp:1303-1377 | after a sweep of RD checks, the best CU is the initial one or one of the offers, and costs no more than any of them |
| BestMode.SweepBestIsFirstMinimum | mpeg-pcc-tmc2-netTest/dependencies/HM-16.20+SCM-8.8_/source/Lib/TLibEncoder/TEncCu.cpp:3471-3509 | the sweep keeps the first of the cheapest offers; a later offer of equal cost does not displace it |
| BestMode.DepthBuffers.constructor | mpeg-pcc-tmc2-netTest/dependencies/HM-16.20+SCM-8.8_/source/Lib/TLibEncoder/TEncCu.cpp:3471-3509 | the per-depth buffer arrays are allocated fresh for every depth |
| BestMode.DepthBuffers.CheckBestMode | mpeg-pcc-tmc2-netTest/dependencies/HM-16.20+SCM-8.8_/source/Lib/TLibEncoder/TEncCu.cpp:3471-3509 | when the temporary CU is strictly cheaper, the best and temporary CU swap, and the prediction and reconstruction buffers of that depth swap; the context snapshot is saved. Otherwise nothing changes. The two CUs are a permutation of the inputs |
| BlockMetrics.CUClassify | mpeg-pcc-tmc2-netTest/dependencies/HM-16.20+SCM-8.8_/source/Lib/TLibEncoder/TEncCu.cpp:111-136 | the class is that of the occupancy window under the CU, shrunk by 2 or by 4 as QPr5 says, of the frame nowPoc/2 |
| BlockMetrics.WindowOccupancy | mpeg-pcc-tmc2-netTest/dependencies/HM-16.20+SCM-8.8_/source/Lib/TLibEncoder/TEncCu.cpp:121-127 | the count is the sum of the bytes in the window |
| BlockMetrics.RowOccupancy | mpeg-pcc-tmc2-netTest/dependencies/HM-16.20+SCM-8.8_/source/Lib/TLibEncoder/TEncCu.cpp:124-126 | the count is the sum of one window row |
| BlockMetrics.SumAppend | mpeg-pcc-tmc2-netTest/dependencies/HM-16.20+SCM-8.8_/source/Lib/TLibEncoder/TEncCu.cpp:121-127 | counts add over concatenated rows |
| BlockMetrics.SumOfBytes | mpeg-pcc-tmc2-netTest/dependencies/HM-16.20+SCM-8.8_/source/Lib/TLibEncoder/TEncCu.cpp:121-127 | an occupancy count is non-negative, and zero exactly when every byte is zero |
| BlockMetrics.SumOfBits | mpeg-pcc-tmc2-netTest/dependencies/HM-16.20+SCM-8.8_/source/Lib/TLibEncoder/TEncCu.cpp:121-127 | over a 0/1 map, the count is at most the area, and equals it exactly when every byte is one |
| BlockMetrics.FreeBlockIsUnoccupied | mpeg-pcc-tmc2-netTest/dependencies/HM-16.20+SCM-8.8_/source/Lib/TLibEncoder/TEncCu.cpp:128-135 | the class is 0, 1 or 2, and 0 exactly when the window holds no occupied sample |
| BlockMetrics.BinaryWindowClasses | mpeg-pcc-tmc2-netTest/dependencies/HM-16.20+SCM-8.8_/source/Lib/TLibEncoder/TEncCu.cpp:128-135 | on a 0/1 map: class 0 means all zero, class 1 means all one over a non-empty window, class 2 means mixed |
| BlockMetrics.CalculateMinimumHVLumaActivity | mpeg-pcc-tmc2-netTest/dependencies/HM-16.20+SCM-8.8_/source/Lib/TLibEncoder/TEncCu.cpp:3688-3719 | the activity is the smaller of the horizontal and the vertical activity |
| BlockMetrics.HorizontalActivity | mpeg-pcc-tmc2-netTest/dependencies/HM-16.20+SCM-8.8_/source/Lib/TLibEncoder/TEncCu.cpp:3697-3706 | the loop computes the sum of absolute horizontal neighbour differences |
| BlockMetrics.VerticalActivity | mpeg-pcc-tmc2-netTest/dependencies/HM-16.20+SCM-8.8_/source/Lib/TLibEncoder/TEncCu.cpp:3708-3717 | the loop computes the sum of absolute vertical neighbour differences, from row 1 |
| BlockMetrics.FlatRowsHaveNoHorizontalActivity | mpeg-pcc-tmc2-netTest/dependencies/HM-16.20+SCM-8.8_/source/Lib/TLibEncoder/TEncCu.cpp:3697-3706 | rows that are constant give zero horizontal activity |
| BlockMetrics.FlatColumnsHaveNoVerticalActivity | mpeg-pcc-tmc2-netTest/dependencies/HM-16.20+SCM-8.8_/source/Lib/TLibEncoder/TEncCu.cpp:3708-3717 | columns that are constant give zero vertical activity |
| BlockMetrics.MinimumActivityOfFlatBlocks | mpeg-pcc-tmc2-netTest/dependencies/HM-16.20+SCM-8.8_/source/Lib/TLibEncoder/TEncCu.cpp:3688-3719 | the activity is non-negative, and zero for a block that is constant along rows, along columns, or everywhere |
| BlockMetrics.ActivityIgnoresOffset | mpeg-pcc-tmc2-netTest/dependencies/HM-16.20+SCM-8.8_/source/Lib/TLibEncoder/TEncCu.cpp:3688-3719 | adding a constant to every sample changes neither activity |
| Hadamard.Butterfly8 | mpeg-pcc-tmc2-netTest/dependencies/HM-16.20+SCM-8.8_/source/Lib/TLibEncoder/TEncCu.cpp:2720-2751 | the first output of the 8-point butterfly is the sum of its inputs |
| Hadamard.Had8x8IsSatdOfTransform | mpeg-pcc-tmc2-netTest/dependencies/HM-16.20+SCM-8.8_/source/Lib/TLibEncoder/TEncCu.cpp:2701-2793 | the measure is the SATD (DC excluded, rounded to a quarter) of the two-pass Hadamard transform |
| Hadamard.Had8x8IsNonNegative | mpeg-pcc-tmc2-netTest/dependencies/HM-16.20+SCM-8.8_/source/Lib/TLibEncoder/TEncCu.cpp:2783-2791 | the 8x8 measure is never negative |
| Hadamard.DcIsBlockSum | mpeg-pcc-tmc2-netTest/dependencies/HM-16.20+SCM-8.8_/source/Lib/TLibEncoder/TEncCu.cpp:2720-2781 | the DC coefficient of the transform is the sum of the 64 samples |
| Hadamard.FlatBlockMeasuresZero | mpeg-pcc-tmc2-netTest/dependencies/HM-16.20+SCM-8.8_/source/Lib/TLibEncoder/TEncCu.cpp:2701-2793 | a constant block transforms to DC only and measures zero |
| Hadamard.RowAbsSum | mpeg-pcc-tmc2-netTest/dependencies/HM-16.20+SCM-8.8_/source/Lib/TLibEncoder/TEncCu.cpp:2783-2789 | the loop computes the sum of absolute values of a coefficient row |
| Hadamard.CoefficientSatd | mpeg-pcc-tmc2-netTest/dependencies/HM-16.20+SCM-8.8_/source/Lib/TLibEncoder/TEncCu.cpp:2783-2792 | the loop computes the SATD of a coefficient block |
| Hadamard.CalcHads8x8 | mpeg-pcc-tmc2-netTest/dependencies/HM-16.20+SCM-8.8_/source/Lib/TLibEncoder/TEncCu.cpp:2701-2793 | the method computes the 8x8 Hadamard measure of the block |
| Hadamard.TileRowHad | mpeg-pcc-tmc2-netTest/dependencies/HM-16.20+SCM-8.8_/source/Lib/TLibEncoder/TEncCu.cpp:2807-2811 | the inner loop sums the measure over the whole 8x8 tiles of one tile row |
| Hadamard.UpdateCtuDataISlice | mpeg-pcc-tmc2-netTest/dependencies/HM-16.20+SCM-8.8_/source/Lib/TLibEncoder/TEncCu.cpp:2795-2814 | the method computes the sum of the measure over the whole 8x8 tiles of the CTU |
| Hadamard.CtuHadIsNonNegative | mpeg-pcc-tmc2-netTest/dependencies/HM-16.20+SCM-8.8_/source/Lib/TLibEncoder/TEncCu.cpp:2795-2814 | the CTU measure is never negative |
| Hadamard.CtuHadReadsOnlyWholeTiles | mpeg-pcc-tmc2-netTest/dependencies/HM-16.20+SCM-8.8_/source/Lib/TLibEncoder/TEncCu.cpp:2805-2811 | samples outside the whole 8x8 tiles do not affect the CTU measure |
| Hadamard.FlatCtuMeasuresZero | mpeg-pcc-tmc2-netTest/dependencies/HM-16.20+SCM-8.8_/source/Lib/TLibEncoder/TEncCu.cpp:2795-2814 | a constant CTU measures zero |
| QpWindow.ComputeQP | mpeg-pcc-tmc2-netTest/dependencies/HM-16.20+SCM-8.8_/source/Lib/TLibEncoder/TEncCu.cpp:2552-2575 | the QP lies in [-QpBdOffset, 51]; it is the slice QP, plus the adaptive offset when adaptive QP is on, whenever that is in range |
| QpWindow.LumaOffsetAt | mpeg-pcc-tmc2-netTest/dependencies/HM-16.20+SCM-8.8_/source/Lib/TLibEncoder/TEncCu.cpp:1228-1236 | the luma offset is recomputed at the delta-QP depths when luma mapping is on, and kept otherwise |
| QpWindow.HeadWindowShape | mpeg-pcc-tmc2-netTest/dependencies/HM-16.20+SCM-8.8_/source/Lib/TLibEncoder/TEncCu.cpp:1214-1243 | luma mapping or rate control collapses the window to one QP. Below the delta-QP depth the window is the temporary CU's QP. Otherwise it lies in the legal range, spans at most twice MaxDeltaQP and holds the base QP |
| QpWindow.PostWindowShape | mpeg-pcc-tmc2-netTest/dependencies/HM-16.20+SCM-8.8_/source/Lib/TLibEncoder/TEncCu.cpp:1937-1971 | a window of more than one QP occurs only at the delta-QP depth without mapping, rate control or forced bypass. Above that depth it is the base QP. A forced bypass collapses it |
| QpWindow.TqbSetup | mpeg-pcc-tmc2-netTest/dependencies/HM-16.20+SCM-8.8_/source/Lib/TLibEncoder/TEncCu.cpp:1245-1257 | lowestQP is the window minimum; bypass adds a lossless visit first; a forced bypass limits the loop to that one QP |
| QpWindow.LossyRun | mpeg-pcc-tmc2-netTest/dependencies/HM-16.20+SCM-8.8_/source/Lib/TLibEncoder/TEncCu.cpp:1303-1306 | the visits are the QPs a..b in increasing order, none lossless |
| QpWindow.FirstQpSweep | mpeg-pcc-tmc2-netTest/dependencies/HM-16.20+SCM-8.8_/source/Lib/TLibEncoder/TEncCu.cpp:1303-1377 | the loop visits exactly the QPs of the specification of the first sweep |
| QpWindow.SecondQpSweep | mpeg-pcc-tmc2-netTest/dependencies/HM-16.20+SCM-8.8_/source/Lib/TLibEncoder/TEncCu.cpp:1379-1790 | the loop visits exactly the QPs of the second sweep, which skips the lowest QP after a skipped lossless CU |
| QpWindow.LeadThenLossy | mpeg-pcc-tmc2-netTest/dependencies/HM-16.20+SCM-8.8_/source/Lib/TLibEncoder/TEncCu.cpp:1303-1306 | only the first visit can be lossless, and then at lowestQP |
| QpWindow.LosslessVisitedOnceFirst | mpeg-pcc-tmc2-netTest/dependencies/HM-16.20+SCM-8.8_/source/Lib/TLibEncoder/TEncCu.cpp:1303-1790 | in both sweeps the lossless visit, if any, is the first one and is at lowestQP |
| QpWindow.FirstSweepCoversWindow | mpeg-pcc-tmc2-netTest/dependencies/HM-16.20+SCM-8.8_/source/Lib/TLibEncoder/TEncCu.cpp:1303-1306 | a lossy visit of q occurs exactly when lowestQP <= q <= maxQP, and QPs increase strictly |
| QpWindow.SecondSweepSkipsLowestQp | mpeg-pcc-tmc2-netTest/dependencies/HM-16.20+SCM-8.8_/source/Lib/TLibEncoder/TEncCu.cpp:1781-1784 | after a skipped lossless CU the second sweep omits the lossy lowest QP and is otherwise the first sweep |
| QpWindow.ForcedBypassCostsOnlyLossless | mpeg-pcc-tmc2-netTest/dependencies/HM-16.20+SCM-8.8_/source/Lib/TLibEncoder/TEncCu.cpp:1245-1257 | with forced bypass both sweeps cost only the lossless mode at the window minimum |
| QpWindow.SingleQpWindowWithBypass | mpeg-pcc-tmc2-netTest/dependencies/HM-16.20+SCM-8.8_/source/Lib/TLibEncoder/TEncCu.cpp:1214-1257 | under mapping or rate control, bypass gives a lossless visit then the one QP, and no bypass gives the one QP alone |
| ModeGating.AmpFlagsOnlyRaised | mpeg-pcc-tmc2-netTest/dependencies/HM-16.20+SCM-8.8_/source/Lib/TLibEncoder/TEncCu.cpp:1075-1139 | AMP test flags are only raised, except that a 64-wide CU never runs the full AMP search |
| ModeGating.AmpFullSearchCause | mpeg-pcc-tmc2-netTest/dependencies/HM-16.20+SCM-8.8_/source/Lib/TLibEncoder/TEncCu.cpp:1079-1100 | from cleared flags, the full AMP search in a direction runs exactly when the best shape splits that way, or is a non-merge non-skip 2Nx2N, and the CU is not 64 wide |
| ModeGating.AmpMergeSearchCause | mpeg-pcc-tmc2-netTest/dependencies/HM-16.20+SCM-8.8_/source/Lib/TLibEncoder/TEncCu.cpp:1101-1123 | from cleared flags, merge-only AMP runs exactly when the parent chose AMP, or the parent was not inter and the best splits that way, or the best is a non-skip 2Nx2N |
| ModeGating.AmpShapesForSkipAndWide | mpeg-pcc-tmc2-netTest/dependencies/HM-16.20+SCM-8.8_/source/Lib/TLibEncoder/TEncCu.cpp:1075-1139 | a skipped 2Nx2N best under a non-AMP parent tries no AMP shape; a 64-wide CU tries merge-only AMP shapes only |
| ModeGating.GatesCoverUnsetCu | mpeg-pcc-tmc2-netTest/dependencies/HM-16.20+SCM-8.8_/source/Lib/TLibEncoder/TEncCu.cpp:1334-1545 | for an unset best CU, intra is always tried; inter is off in an I slice without IntraBC and with current-picture-only references; at least one of the two runs |
| ModeGating.PcmGateFacts | mpeg-pcc-tmc2-netTest/dependencies/HM-16.20+SCM-8.8_/source/Lib/TLibEncoder/TEncCu.cpp:1685-1696 | a MAX_DOUBLE best never blocks PCM on cost; in fast delta-QP mode PCM runs only up to 32 wide or at the minimum PCM size |
| ModeGating.SubBranchCases | mpeg-pcc-tmc2-netTest/dependencies/HM-16.20+SCM-8.8_/source/Lib/TLibEncoder/TEncCu.cpp:1973-1976 | without the network, the split is skipped exactly for an IntraBC CU without residual, or an early-CU skip on a CU inside the picture |
| ModeGating.NeuralVetoBlocksBoundarySplit | mpeg-pcc-tmc2-netTest/dependencies/HM-16.20+SCM-8.8_/source/Lib/TLibEncoder/TEncCu.cpp:1980-2125 | as written, the network can veto the split of a boundary CU with nothing chosen |
| ModeGating.BoundaryCuAlwaysSplits | mpeg-pcc-tmc2-netTest/dependencies/HM-16.20+SCM-8.8_/source/Lib/TLibEncoder/TEncCu.cpp:1973-1976 | in the corrected decision a boundary CU with nothing chosen always splits |
| ModeGating.FastDeltaQpCuMaxSize | mpeg-pcc-tmc2-netTest/dependencies/HM-16.20+SCM-8.8_/source/Lib/TLibEncoder/TEncCu.cpp:1191 | the fast delta-QP size lies between the minimum CU size and the CTU height |
| ModeGating.ChildParentHint | mpeg-pcc-tmc2-netTest/dependencies/HM-16.20+SCM-8.8_/source/Lib/TLibEncoder/TEncCu.cpp:2360-2368 | children see the parent's part size only when the parent's best is a chosen inter CU, and NUMBER_OF_PART_SIZES otherwise |
| ModeGating.ApplySentinel | mpeg-pcc-tmc2-netTest/dependencies/HM-16.20+SCM-8.8_/source/Lib/TLibEncoder/TEncCu.cpp:2477-2490 | the sentinel either keeps the best CU or sets its cost to MAX_DOUBLE |
| ModeGating.SentinelForcesSplit | mpeg-pcc-tmc2-netTest/dependencies/HM-16.20+SCM-8.8_/source/Lib/TLibEncoder/TEncCu.cpp:2477-2492 | a best CU that would overflow the slice or slice segment loses to any chosen split. At the segment's first CTU, or within the byte budgets, the best is kept |
| MergeSearch.Temp | mpeg-pcc-tmc2-netTest/dependencies/HM-16.20+SCM-8.8_/source/Lib/TLibEncoder/TEncCu.cpp:2884-2972 | every merge trial is an inter 2Nx2N merge CU; it is skipped exactly when it has no residual, and a forced no-residual trial has none |
| MergeSearch.Temps | mpeg-pcc-tmc2-netTest/dependencies/HM-16.20+SCM-8.8_/source/Lib/TLibEncoder/TEncCu.cpp:2876-3000 | one candidate per trial |
| MergeSearch.Pass0Len | mpeg-pcc-tmc2-netTest/dependencies/HM-16.20+SCM-8.8_/source/Lib/TLibEncoder/TEncCu.cpp:2876-2877 | the residual-allowed trials form a prefix of the trace |
| MergeSearch.SearchFacts | mpeg-pcc-tmc2-netTest/dependencies/HM-16.20+SCM-8.8_/source/Lib/TLibEncoder/TEncCu.cpp:2853-3055 | trials run only for candidates below the candidate count (the spatial ones alone in the last CTU column of a constrained tile) that neither predict from the current picture nor, under the tile constraint, point outside the tile set. The best CU is the sweep minimum of the trials, which run in pass/candidate order. A no-residual trial runs exactly for unmarked candidates. A residual-allowed trial is skipped only under fast merge decision after a skip best. Under fast decision every later residual-allowed trial ran while the best had residual |
| MergeSearch.DetectEarlySkip | mpeg-pcc-tmc2-netTest/dependencies/HM-16.20+SCM-8.8_/source/Lib/TLibEncoder/TEncCu.cpp:3060-3087 | early skip is declared exactly when the best is a skip 2Nx2N merge CU whose motion-vector differences sum to zero |
| MergeSearch.MergePass | mpeg-pcc-tmc2-netTest/dependencies/HM-16.20+SCM-8.8_/source/Lib/TLibEncoder/TEncCu.cpp:2878-3056 | one pass of the candidate loop, over the candidate count it is given and passing over excluded candidates, computes the specification's state: the mark buffer, the trials, the best CU and the skip flag |
| MergeSearch.CheckMerge2Nx2N | mpeg-pcc-tmc2-netTest/dependencies/HM-16.20+SCM-8.8_/source/Lib/TLibEncoder/TEncCu.cpp:2821-3091 | fast delta-QP mode returns at once. Otherwise the candidate count is cut to the spatial candidates in the last CTU column of a constrained tile, the trials and best CU are those of the search, and early skip is judged on the best after the residual-allowed pass |
| LumaDqp.Covered | mpeg-pcc-tmc2-netTest/dependencies/HM-16.20+SCM-8.8_/source/Lib/TLibEncoder/TEncCu.cpp:1001-1011 | the count of mapping entries passed is at most the mapping length |
| LumaDqp.CoveredIsLongestPrefix | mpeg-pcc-tmc2-netTest/dependencies/HM-16.20+SCM-8.8_/source/Lib/TLibEncoder/TEncCu.cpp:1003-1011 | the count is the longest prefix of the mapping whose levels are at most the index |
| LumaDqp.CoveredMonotone | mpeg-pcc-tmc2-netTest/dependencies/HM-16.20+SCM-8.8_/source/Lib/TLibEncoder/TEncCu.cpp:1003-1011 | the count grows with the index |
| LumaDqp.LutEntryOfSortedMapping | mpeg-pcc-tmc2-netTest/dependencies/HM-16.20+SCM-8.8_/source/Lib/TLibEncoder/TEncCu.cpp:990-1012 | with sorted levels, an entry is 0 below the first level, and otherwise the delta of the last level not above it |
| LumaDqp.LumaDeltaQpLut.constructor | mpeg-pcc-tmc2-netTest/dependencies/HM-16.20+SCM-8.8_/source/Lib/TLibEncoder/TEncCu.cpp:990-1012 | the table starts at zero |
| LumaDqp.LumaDeltaQpLut.InitLumaDeltaQpLut | mpeg-pcc-tmc2-netTest/dependencies/HM-16.20+SCM-8.8_/source/Lib/TLibEncoder/TEncCu.cpp:990-1012 | when mapping is on, every table entry is the entry of the mapping; otherwise the table is unchanged |
| LumaDqp.LumaDeltaQpLut.LumaDqp | mpeg-pcc-tmc2-netTest/dependencies/HM-16.20+SCM-8.8_/source/Lib/TLibEncoder/TEncCu.cpp:1067-1069 | the delta QP is the table entry at the level clipped to the table |
| LumaDqp.LumaIndex | mpeg-pcc-tmc2-netTest/dependencies/HM-16.20+SCM-8.8_/source/Lib/TLibEncoder/TEncCu.cpp:1067-1068 | the index is the level clipped to [0, 1023] |
| LumaDqp.ClipBlock | mpeg-pcc-tmc2-netTest/dependencies/HM-16.20+SCM-8.8_/source/Lib/TLibEncoder/TEncCu.cpp:1022-1030 | the block is clipped to the picture: full size inside, ending at the picture edge otherwise |
| ArlStats.TuCollectArlStats | mpeg-pcc-tmc2-netTest/dependencies/HM-16.20+SCM-8.8_/source/Lib/TLibEncoder/TEncCu.cpp:3612-3635 | every bucket's count and sum grow by exactly the contributions of the TU's coefficients |
| ArlStats.UnusedBuckets | mpeg-pcc-tmc2-netTest/dependencies/HM-16.20+SCM-8.8_/source/Lib/TLibEncoder/TEncCu.cpp:3612-3635 | bucket 0 and buckets above LEVEL_RANGE receive nothing |
| ArlStats.CountsGrowByNonZeroCoefficients | mpeg-pcc-tmc2-netTest/dependencies/HM-16.20+SCM-8.8_/source/Lib/TLibEncoder/TEncCu.cpp:3612-3635 | over all buckets the counts grow by exactly the number of non-zero coefficients |
| ArlStats.OneCoefficientOneBucket | mpeg-pcc-tmc2-netTest/dependencies/HM-16.20+SCM-8.8_/source/Lib/TLibEncoder/TEncCu.cpp:3615-3631 | a non-zero coefficient counts once, in bucket min(abs, LEVEL_RANGE); zero counts nowhere |
| ArlStats.CtuCollectArlStats | mpeg-pcc-tmc2-netTest/dependencies/HM-16.20+SCM-8.8_/source/Lib/TLibEncoder/TEncCu.cpp:3638-3674 | the slice statistics of buckets 1..LEVEL_RANGE grow by the CTU's collected counts and sums; bucket 0 is untouched |
| ArlStats.GatherCtuStats | mpeg-pcc-tmc2-netTest/dependencies/HM-16.20+SCM-8.8_/source/Lib/TLibEncoder/TEncCu.cpp:3647-3665 | the CTU buffers hold the counts and sums over the minimum CUs that are inter luma CUs |
| ArlStats.AddToSlice | mpeg-pcc-tmc2-netTest/dependencies/HM-16.20+SCM-8.8_/source/Lib/TLibEncoder/TEncCu.cpp:3667-3673 | the loop up to LEVEL_RANGE-1 and the final statement together add buckets 1..LEVEL_RANGE |
| ArlStats.CtuCountsGrowByNonZeroCoefficients | mpeg-pcc-tmc2-netTest/dependencies/HM-16.20+SCM-8.8_/source/Lib/TLibEncoder/TEncCu.cpp:3638-3674 | the CTU counts grow by the number of non-zero coefficients collected |
| PcmBuffer.CopyRow | mpeg-pcc-tmc2-netTest/dependencies/HM-16.20+SCM-8.8_/source/Lib/TLibEncoder/TEncCu.cpp:3597-3602 | one row is copied; the rest of the destination is unchanged |
| PcmBuffer.PackedSampleAt | mpeg-pcc-tmc2-netTest/dependencies/HM-16.20+SCM-8.8_/source/Lib/TLibEncoder/TEncCu.cpp:3596-3605 | sample (line, column) of the packed buffer is sample (line, column) of the strided source |
| PcmBuffer.FillLine | mpeg-pcc-tmc2-netTest/dependencies/HM-16.20+SCM-8.8_/source/Lib/TLibEncoder/TEncCu.cpp:3596-3605 | one more line is packed and the rest of the buffer is kept |
| PcmBuffer.FillComponent | mpeg-pcc-tmc2-netTest/dependencies/HM-16.20+SCM-8.8_/source/Lib/TLibEncoder/TEncCu.cpp:3596-3605 | the component is packed row by row, without stride, and nothing after it changes |
| PcmBuffer.FillPcmBuffer | mpeg-pcc-tmc2-netTest/dependencies/HM-16.20+SCM-8.8_/source/Lib/TLibEncoder/TEncCu.cpp:3580-3607 | every valid component is packed at its subsampled size; the absent chroma buffers of 4:0:0 are unchanged |
| EncodeCu.LeafEndsWithFinishCu | mpeg-pcc-tmc2-netTest/dependencies/HM-16.20+SCM-8.8_/source/Lib/TLibEncoder/TEncCu.cpp:2653-2698 | a leaf's syntax ends with finishCU, and finishCU appears only there |
| EncodeCu.SkippedCuCodesOnlyMergeIndex | mpeg-pcc-tmc2-netTest/dependencies/HM-16.20+SCM-8.8_/source/Lib/TLibEncoder/TEncCu.cpp:2653-2658 | a skipped CU codes its merge index and no mode, partition, PCM, prediction or coefficient element, and its raised delta-QP flag stays pending |
| EncodeCu.LeafHeadElements | mpeg-pcc-tmc2-netTest/dependencies/HM-16.20+SCM-8.8_/source/Lib/TLibEncoder/TEncCu.cpp:2633-2651 | the head has a skip flag exactly outside I slices and a bypass flag exactly when bypass is enabled |
| EncodeCu.LeafBodyElements | mpeg-pcc-tmc2-netTest/dependencies/HM-16.20+SCM-8.8_/source/Lib/TLibEncoder/TEncCu.cpp:2653-2698 | merge index for skip CUs; part size unless skip or palette; IPCM flag when signalled; prediction and coefficients unless IPCM is used |
| EncodeCu.LeafElements | mpeg-pcc-tmc2-netTest/dependencies/HM-16.20+SCM-8.8_/source/Lib/TLibEncoder/TEncCu.cpp:2633-2698 | the full leaf: which CU codes which syntax element, each as an if-and-only-if |
| EncodeCu.LeafFlagsPending | mpeg-pcc-tmc2-netTest/dependencies/HM-16.20+SCM-8.8_/source/Lib/TLibEncoder/TEncCu.cpp:2633-2696 | a QP flag is pending after a leaf exactly when it was pending or raised there and the leaf did not code it |
| EncodeCu.QNumPartsIsQuarter | mpeg-pcc-tmc2-netTest/dependencies/HM-16.20+SCM-8.8_/source/Lib/TLibEncoder/TEncCu.cpp:2610 | each child covers a quarter of the parent's partitions |
| EncodeCu.SplitIsAboveMinimum | mpeg-pcc-tmc2-netTest/dependencies/HM-16.20+SCM-8.8_/source/Lib/TLibEncoder/TEncCu.cpp:2608 | a CU is split only above the minimum CU size |
| EncodeCu.SyntaxStaysInsideCu | mpeg-pcc-tmc2-netTest/dependencies/HM-16.20+SCM-8.8_/source/Lib/TLibEncoder/TEncCu.cpp:2583-2699 | every element a CU writes lies within its partitions at its depth or below, and QP flags come only from the enabled tools |
| EncodeCu.SplitFlagIffInside | mpeg-pcc-tmc2-netTest/dependencies/HM-16.20+SCM-8.8_/source/Lib/TLibEncoder/TEncCu.cpp:2593-2606 | a split flag is coded exactly when the CU lies wholly inside the picture |
| EncodeCu.LeafIffNotSplit | mpeg-pcc-tmc2-netTest/dependencies/HM-16.20+SCM-8.8_/source/Lib/TLibEncoder/TEncCu.cpp:2593-2631 | a CU is coded as a leaf exactly when it is not split; a boundary CU codes nothing at its depth except flag raises |
| EncodeCu.CuEncoder.constructor | mpeg-pcc-tmc2-netTest/dependencies/HM-16.20+SCM-8.8_/source/Lib/TLibEncoder/TEncCu.cpp:970-984 | the encoder starts with an empty trace and no pending flags |
| EncodeCu.CuEncoder.LeafHeadSyntax | mpeg-pcc-tmc2-netTest/dependencies/HM-16.20+SCM-8.8_/source/Lib/TLibEncoder/TEncCu.cpp:2633-2651 | writes the leaf head and raises the flags at the delta-QP and chroma-adjust depths |
| EncodeCu.CuEncoder.LeafBodySyntax | mpeg-pcc-tmc2-netTest/dependencies/HM-16.20+SCM-8.8_/source/Lib/TLibEncoder/TEncCu.cpp:2653-2698 | writes the leaf body and clears the flags the coefficients coded |
| EncodeCu.CuEncoder.EncodeLeaf | mpeg-pcc-tmc2-netTest/dependencies/HM-16.20+SCM-8.8_/source/Lib/TLibEncoder/TEncCu.cpp:2633-2698 | the trace grows by exactly the leaf's elements and the flags become the leaf's |
| EncodeCu.CuEncoder.RaiseSplitFlags | mpeg-pcc-tmc2-netTest/dependencies/HM-16.20+SCM-8.8_/source/Lib/TLibEncoder/TEncCu.cpp:2611-2619 | a split raises the QP flags at its depth |
| EncodeCu.CuEncoder.EncodeCu | mpeg-pcc-tmc2-netTest/dependencies/HM-16.20+SCM-8.8_/source/Lib/TLibEncoder/TEncCu.cpp:2583-2699 | the trace grows by exactly the elements of the CU's coding tree |
| EncodeCu.CuEncoder.EncodeSplit | mpeg-pcc-tmc2-netTest/dependencies/HM-16.20+SCM-8.8_/source/Lib/TLibEncoder/TEncCu.cpp:2608-2631 | a split writes its flag raises and then its four children in order |
| EncodeCu.CuEncoder.EncodeChildren | mpeg-pcc-tmc2-netTest/dependencies/HM-16.20+SCM-8.8_/source/Lib/TLibEncoder/TEncCu.cpp:2621-2629 | the child loop writes the children's elements in z-order |
| EncodeCu.CuEncoder.EncodeChild | mpeg-pcc-tmc2-netTest/dependencies/HM-16.20+SCM-8.8_/source/Lib/TLibEncoder/TEncCu.cpp:2623-2628 | a child inside the picture is coded; one outside writes nothing |
| EncodeCu.CuEncoder.EncodeCtu | mpeg-pcc-tmc2-netTest/dependencies/HM-16.20+SCM-8.8_/source/Lib/TLibEncoder/TEncCu.cpp:970-984 | the CTU is coded from depth 0 with the QP flags raised by the enabled tools |
| CuSearch.SplitTemp | mpeg-pcc-tmc2-netTest/dependencies/HM-16.20+SCM-8.8_/source/Lib/TLibEncoder/TEncCu.cpp:2398-2435 | the split candidate takes the first child's part and mode; its bits are the children's plus the split flag; its distortion is the children's; its cost is finite |
| CuSearch.ChildCostFinite | mpeg-pcc-tmc2-netTest/dependencies/HM-16.20+SCM-8.8_/source/Lib/TLibEncoder/TEncCu.cpp:2398-2401 | the split total cost is finite when every searched child has a finite cost |
| CuSearch.Children | mpeg-pcc-tmc2-netTest/dependencies/HM-16.20+SCM-8.8_/source/Lib/TLibEncoder/TEncCu.cpp:2325-2409 | there are four children |
| CuSearch.ChildAt | mpeg-pcc-tmc2-netTest/dependencies/HM-16.20+SCM-8.8_/source/Lib/TLibEncoder/TEncCu.cpp:2325-2409 | a child is searched exactly when it lies inside the picture; a child outside stays unset |
| CuSearch.ChargeNoSplit | mpeg-pcc-tmc2-netTest/dependencies/HM-16.20+SCM-8.8_/source/Lib/TLibEncoder/TEncCu.cpp:1920-1928 | a chosen CU gains the split flag's 0 bits and its cost becomes the RD cost of its new totals; part, mode, distortion and flags are kept; a CU with nothing chosen is untouched |
| CuSearch.SplitChosenOnlyWhenCheaper | mpeg-pcc-tmc2-netTest/dependencies/HM-16.20+SCM-8.8_/source/Lib/TLibEncoder/TEncCu.cpp:1920-2492 | the unsplit best is the sweep's choice charged the split flag's 0 bits with its cost recomputed (MAX_DOUBLE when nothing was chosen); the result is that best, or the sentinel-applied best, or, when recursion is allowed, the split CU strictly cheaper than it |
| CuSearch.MinimumCuIsInside | mpeg-pcc-tmc2-netTest/dependencies/HM-16.20+SCM-8.8_/source/Lib/TLibEncoder/TEncCu.cpp:1301 | a minimum-size CU is never a boundary CU |
| CuSearch.SweepDecides | mpeg-pcc-tmc2-netTest/dependencies/HM-16.20+SCM-8.8_/source/Lib/TLibEncoder/TEncCu.cpp:1303-1377 | a sweep with a finite offer ends with a chosen CU |
| CuSearch.CompressDecides | mpeg-pcc-tmc2-netTest/dependencies/HM-16.20+SCM-8.8_/source/Lib/TLibEncoder/TEncCu.cpp:1152-2520 | in the corrected decision every CU ends with a chosen mode, and a boundary CU takes the split |
| CuSearch.SplitDecides | mpeg-pcc-tmc2-netTest/dependencies/HM-16.20+SCM-8.8_/source/Lib/TLibEncoder/TEncCu.cpp:2307-2491 | the split candidate of a decided tree is chosen |
| CuSearch.ChildDecided | mpeg-pcc-tmc2-netTest/dependencies/HM-16.20+SCM-8.8_/source/Lib/TLibEncoder/TEncCu.cpp:2325-2409 | the first child is always searched, and every searched child is decided |
| CuSearch.VetoLeavesBoundaryCuUndecided | mpeg-pcc-tmc2-netTest/dependencies/HM-16.20+SCM-8.8_/source/Lib/TLibEncoder/TEncCu.cpp:1973-2125 | as written, every CU crossing the picture edge that the network vetoes ends with nothing chosen; one the network lets through has the split gate open |
| CuSearch.VetoLeavesBoundaryCtuUndecided | mpeg-pcc-tmc2-netTest/dependencies/HM-16.20+SCM-8.8_/source/Lib/TLibEncoder/TEncCu.cpp:2511-2519 | as written, a 2-sample CTU crossing the picture edge under the network veto returns with cost MAX_DOUBLE |
| CuSearch.ModeSweep | mpeg-pcc-tmc2-netTest/dependencies/HM-16.20+SCM-8.8_/source/Lib/TLibEncoder/TEncCu.cpp:1303-1377 | the loop computes the sweep's best from an unset CU |
| CuSearch.CompressCU | mpeg-pcc-tmc2-netTest/dependencies/HM-16.20+SCM-8.8_/source/Lib/TLibEncoder/TEncCu.cpp:1152-2520 | the method computes the recursive decision function, including the split-flag charge of the unsplit best |
| CuSearch.SplitCU | mpeg-pcc-tmc2-netTest/dependencies/HM-16.20+SCM-8.8_/source/Lib/TLibEncoder/TEncCu.cpp:2307-2491 | the method computes the split candidate |
| CuSearch.SearchChildren | mpeg-pcc-tmc2-netTest/dependencies/HM-16.20+SCM-8.8_/source/Lib/TLibEncoder/TEncCu.cpp:2325-2409 | the child loop computes the four children and the summed bits, distortion and cost |
| CuSearch.SearchChild | mpeg-pcc-tmc2-netTest/dependencies/HM-16.20+SCM-8.8_/source/Lib/TLibEncoder/TEncCu.cpp:2327-2408 | one child is searched when inside the picture |
| Occupancy.FindFrom | mpeg-pcc-tmc2-netTest/dependencies/HM-16.20+SCM-8.8_/source/Lib/TLibEncoder/SDMManner.cpp:30 | the match found is the first from j; none is found only when there is none |
| Occupancy.Find | mpeg-pcc-tmc2-netTest/dependencies/HM-16.20+SCM-8.8_/source/Lib/TLibEncoder/SDMManner.cpp:30 | a position is found exactly when the name contains the pattern, and it is the first |
| Occupancy.ClassifyName | mpeg-pcc-tmc2-featuresExtracting/dependencies/HM-16.20+SCM-8.8/source/Lib/TLibEncoder/occupancyGuidDudge.cpp:16-21 | attribute gives 1, else geometry gives 0, else occupancy gives -1, else the previous value is kept |
| Occupancy.Decimal | mpeg-pcc-tmc2-netTest/dependencies/HM-16.20+SCM-8.8_/source/Lib/TLibEncoder/SDMManner.cpp:33 | the rendering is non-empty decimal digits without a leading zero |
| Occupancy.DecimalRoundTrip | mpeg-pcc-tmc2-netTest/dependencies/HM-16.20+SCM-8.8_/source/Lib/TLibEncoder/SDMManner.cpp:32-34 | parsing the decimal rendering gives back the number |
| Occupancy.LeadingDigitPositive | mpeg-pcc-tmc2-netTest/dependencies/HM-16.20+SCM-8.8_/source/Lib/TLibEncoder/SDMManner.cpp:32-34 | a digit string not starting with 0 parses to a positive number |
| Occupancy.ParseRoundTrip | mpeg-pcc-tmc2-netTest/dependencies/HM-16.20+SCM-8.8_/source/Lib/TLibEncoder/SDMManner.cpp:32-34 | rendering a parsed canonical digit string gives back the string |
| Occupancy.Prefix | mpeg-pcc-tmc2-netTest/dependencies/HM-16.20+SCM-8.8_/source/Lib/TLibEncoder/SDMManner.cpp:30-32 | the prefix is the name up to its first "_GOF0_", or the whole name when there is none |
| Occupancy.NameDeterminesDimensions | mpeg-pcc-tmc2-netTest/dependencies/HM-16.20+SCM-8.8_/source/Lib/TLibEncoder/SDMManner.cpp:32-34 | two map names with the same prefix are equal only for the same width and height |
| Occupancy.DerivedNameIsOccupancy | mpeg-pcc-tmc2-netTest/dependencies/HM-16.20+SCM-8.8_/source/Lib/TLibEncoder/SDMManner.cpp:14-34 | the derived map name classifies as occupancy (-1) |
| Occupancy.MapFitsShrunkPicture | mpeg-pcc-tmc2-netTest/dependencies/HM-16.20+SCM-8.8_/source/Lib/TLibEncoder/SDMManner.cpp:24-39 | the map side equals the shrunk picture side used by CUClassify when the side is a multiple of 4, and is at most one short otherwise |
| Occupancy.Chunk | mpeg-pcc-tmc2-netTest/dependencies/HM-16.20+SCM-8.8_/source/Lib/TLibEncoder/SDMManner.cpp:48-50 | each read yields exactly one frame's bytes |
| Occupancy.ChunkBytes | mpeg-pcc-tmc2-netTest/dependencies/HM-16.20+SCM-8.8_/source/Lib/TLibEncoder/SDMManner.cpp:48-50 | a frame's byte k is file byte i*size+k while the file lasts, and zero after the end |
| Occupancy.Frames | mpeg-pcc-tmc2-netTest/dependencies/HM-16.20+SCM-8.8_/source/Lib/TLibEncoder/SDMManner.cpp:44-50 | one frame per read |
| Occupancy.Unread | mpeg-pcc-tmc2-netTest/dependencies/HM-16.20+SCM-8.8_/source/Lib/TLibEncoder/SDMManner.cpp:44-46 | without a file, frameNum/2 frames are allocated and left unread |
| Occupancy.FramesTileFile | mpeg-pcc-tmc2-netTest/dependencies/HM-16.20+SCM-8.8_/source/Lib/TLibEncoder/SDMManner.cpp:48-50 | the frames read, laid end to end, are the file's first count*size bytes |
| Occupancy.ReadFrames | mpeg-pcc-tmc2-netTest/dependencies/HM-16.20+SCM-8.8_/source/Lib/TLibEncoder/SDMManner.cpp:48-50 | the read loop yields frame i as the i-th chunk of the file |
| Occupancy.OccupancyGlobals.constructor | mpeg-pcc-tmc2-netTest/dependencies/HM-16.20+SCM-8.8_/source/Lib/TLibEncoder/SDMManner.cpp:5-9 | the globals start empty, zero and false |
| Occupancy.OccupancyGlobals.ImgClassicate | mpeg-pcc-tmc2-netTest/dependencies/HM-16.20+SCM-8.8_/source/Lib/TLibEncoder/SDMManner.cpp:14-21 | OorGorA becomes the name's class; nothing else changes |
| Occupancy.OccupancyGlobals.OpenAndRead | mpeg-pcc-tmc2-netTest/dependencies/HM-16.20+SCM-8.8_/source/Lib/TLibEncoder/SDMManner.cpp:24-51 | QPr5 is set exactly when the quarter-size map is missing; the dimensions are those of the map tried; the data are the frames of that file, or unread frames |
| Occupancy.OccupancyGlobals.OccupancyDciInitNetTest | mpeg-pcc-tmc2-netTest/dependencies/HM-16.20+SCM-8.8_/source/Lib/TLibEncoder/SDMManner.cpp:23-52 | netTest loader: classifies the name, opens and reads frameNum/2 frames, and leaves the frame count untouched |
| Occupancy.OccupancyGlobals.OccupancyDciInit | mpeg-pcc-tmc2-featuresExtracting/dependencies/HM-16.20+SCM-8.8/source/Lib/TLibEncoder/occupancyGuidDudge.cpp:11-45 | features loader: the same, and it stores frameNum/2 as the frame count |
| Occupancy.ItoaBytesWritten | mpeg-pcc-tmc2-netTest/dependencies/HM-16.20+SCM-8.8_/source/Lib/TLibEncoder/SDMManner.cpp:31-33 | itoa writes the digits and a terminating NUL: at least two chars |
| Occupancy.TempBufferOverflows | mpeg-pcc-tmc2-netTest/dependencies/HM-16.20+SCM-8.8_/source/Lib/TLibEncoder/SDMManner.cpp:31-33 | every itoa call writes more bytes than the one-char buffer holds |
| Occupancy.SharedBufferNameIsSquare | mpeg-pcc-tmc2-netTest/dependencies/HM-16.20+SCM-8.8_/source/Lib/TLibEncoder/SDMManner.cpp:32-33 | if both itoa calls are evaluated before the string copies and the height call comes first, the name is WxW; it is the intended name exactly when W == H |

## Left out

- `checkData` prints the occupancy map and `occupancyDciDestroy` frees it. Printing and deallocation are not modelled.
- Occupancy.OccupancyGlobals.OpenAndRead: a frame the loader does not fill keeps whatever `malloc` returned. The model writes zeros there.
- Occupancy.OccupancyGlobals.OpenAndRead: C `int` overflow of the dimensions and negative arguments are not modelled (the arguments are `nat`).
- Occupancy.Prefix: `npos` converted to `int` and back gives the whole name. The model states that result directly and does not model the conversion.
- Occupancy.Decimal: the names are `seq<char>`. NUL bytes embedded in a name are not modelled.
- The `fopen` mode string and `fclose` are not modelled. A file opens exactly when its name is in the map.
- The netTest loader (`SDMManner.cpp`) declares no `occupancyFrameNumber`. Its model leaves that field unchanged.
- CuSearch.Compress: the split phase runs once per QP of the post window. The model runs it for one QP.
- CuSearch.SplitTemp: the delta-QP bits that `xCompressCU` adds to the split candidate at the delta-QP depth are not modelled (netTest `TEncCu.cpp`, lines 2437-2469).
- The rate-distortion checks are oracles. Not modelled:
  - motion estimation, transform, quantisation, the entropy coder's bit counts;
  - palette and IntraBC search.
- MergeSearch.SearchFacts: `checkTMctsMvp` is not modelled. Whether a candidate's motion leaves the tile set is a per-candidate flag of the setup, and so is the number of spatial candidates.
- CuSearch.SweepResult: which RD checks the mode sweep runs, and in what order, is an oracle (`offers`). The gates of `ModeGating` are proved on their own and are not tied to the offers. In particular the suppression of the second sweep by `earlyDetectionSkipMode || terminateAllFurtherRDO` (netTest `TEncCu.cpp`, line 1379) is not modelled.
- MergeSearch.SearchFacts: the colour-transform re-check inside the merge loop (ACT, screen-content colour transform) is not modelled.
- The entropy coder's context-state bookkeeping beyond the per-depth snapshot is not modelled: `m_pppcRDSbacCoder` loads and stores.
- The adaptive-QP offset, the luma mean and maximum and the lambda are floating point. They enter as parameters, and costs are `real`, so double rounding is not modelled.
- The neural network is a parameter of the split decision: its features, its inference and the feature logging are not modelled.
- The features branch differs from netTest in two ways:
  - it has no LFCNSWITCH guard on the network block (mpeg-pcc-tmc2-featuresExtracting/HM-16.20+SCM-8.8/source/Lib/TLibEncoder/TEncCu.cpp:1452);
  - it computes the CU class only when OorGorA >= 0 (mpeg-pcc-tmc2-featuresExtracting/HM-16.20+SCM-8.8/source/Lib/TLibEncoder/TEncCu.cpp:834-835).

  The model takes the netTest decision, where the network acts in P slices only. The other operations of the model have the same logic in both files, and the table cites netTest.
- `TEncCu::create`, `destroy` and `init` (buffer allocation and configuration) are not modelled beyond the buffers' initial state.
- Clip3, the part-size enum and the RD-cost formula come from files that are not part of this model: CommonDef.h, TypeDef.h and TComRdCost. Their rows cite their use sites.

## Findings

| source | as written | input that shows it | evidently intended | confidence | as-written member | corrected member |
|---|---|---|---|---|---|---|
| mpeg-pcc-tmc2-netTest/dependencies/HM-16.20+SCM-8.8_/source/Lib/TLibEncoder/TEncCu.cpp:1973-2125 | in a P slice the network can clear bSubBranch for a CU that crosses the picture edge, so the boundary CU is neither coded nor split | a geometry CTU of 2 samples in a 1x1 picture, network output 0 | a boundary CU always splits (no RD check runs on it) | not executed | ModeGating.NeuralVetoBlocksBoundarySplit | ModeGating.BoundaryCuAlwaysSplits |
| mpeg-pcc-tmc2-netTest/dependencies/HM-16.20+SCM-8.8_/source/Lib/TLibEncoder/SDMManner.cpp:31-34 | `itoa` renders the dimensions into `new char`, a one-byte buffer | any width, e.g. 480 (4 bytes written) | a buffer large enough for the digits and NUL | not executed | Occupancy.TempBufferOverflows | Occupancy.DecimalRoundTrip |
| mpeg-pcc-tmc2-netTest/dependencies/HM-16.20+SCM-8.8_/source/Lib/TLibEncoder/SDMManner.cpp:32-33 | both `itoa` calls share one buffer inside one expression | 1280x720 picture: map 320x180, name "..._320x320_..." when the height call is evaluated first | the name holds width and height | not executed; depends on the compiler's evaluation order | Occupancy.SharedBufferNameIsSquare | Occupancy.NameDeterminesDimensions |
