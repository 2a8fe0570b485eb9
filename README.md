# pixmask in Dafny

This project models the exact logic underneath pixmask, a CPU image sanitiser.

**Scope**
- The pixel-format and view descriptors.
- Buffer validation, strided row copies and u8 ↔ float conversion.
- The parallel-for chunking and the work-stealing queues of the thread pool, as a sequential state machine.
- The cubic resampler's weight tables and two passes.
- The Bayer ordered-dither quantiser.
- The quality table, tiling and write-back of the 8 × 8 DCT attenuator.
- The tridiagonal B-spline prefilter.
- The constant filter banks and the three-layer convolution network of the ×2 super-resolution stage, with its pixel shuffle.
- The orchestrator `sanitize`: its gate, dimension flow and clamped blends.
- The polyglot-signature scan and the pixel cap.

**Conventions**
- Pixel values are mathematical `real`s, not IEEE floats.
- Bytes are the subset type `byte` of `int`.
- Caller-owned memory behind a `CpuImage` view is an `array<byte>` or an `array<real>` (one element per float). So a float view's byte stride `S` is the float stride `S / 4`, which `validate_image` guarantees is whole.
- Each file of the core is one module:
  - `Images` (image.h)
  - `PixelOps` (pixel_ops.h)
  - `ChunkLoop` (thread_pool.h)
  - `Pool` (thread_pool.cpp)
  - `Resample` (the cubic resampler of resample.cpp)
  - `Resize` (the view-level entry points of resample.cpp)
  - `Bitdepth`
  - `Dct`
  - `BSpline`
  - `SrWeights`
  - `SrLite`
  - `Sanitize`
  - `Security`
- `Arith` and `Grid` hold shared rounding, remainder and flat-index facts.
- `SrReference` holds the upscaler the test suite uses as its reference.

**How each operation is modelled**
- Pure code is a function with a named result.
- Code that works by loops is a method with the source's loops and their invariants. Each such method's `ensures` ties the new state to a specification function, and lemmas state the properties of that function.
- `parallel_for` bodies are sequential `for` loops over the same indices. The visit-once property of `parallel_for` itself is proved in `Pool`.
- The thread pool is a class whose fields are the queue contents, the pending count, the round-robin cursor and a log of visited indices.

**Headline results**
- `SrReference.ForwardIsReference`: the network built from the constant filter banks computes the Python test suite's reference upscaler exactly, on every image without negative values.
- `Sanitize.Sanitize`:
  - Its gate is exact.
  - After the gate, no stage can fail.
  - The output view receives the composition `Sanitized` of all stages.
- `Pool.VisitedOnce` and `Pool.ThreadPool.Wait`: every index of a parallel-for range is visited exactly once, whatever order the workers take the tasks in.

## Model

| member | source | states |
|---|---|---|
| Images.FormatTable | include/pixmask/image.h:15-39 | 3, 4 and 3 channels; 1, 1 and 4 bytes per channel; hence 3, 4 and 12 bytes per pixel, and 0 for an unknown format |
| Images.BytesPerPixelFactors | include/pixmask/image.h:37-39 | bytes per pixel is channels times channel size, zero exactly for an unknown format, and a whole number of channels |
| Images.RowBytesTable | include/pixmask/image.h:71-77 | row payload is 3w, 4w or 12w, and a view is contiguous iff its stride equals its row payload |
| Images.DefaultCpuImage | include/pixmask/image.h:42-48 | the default view is U8_RGB, 0 × 0, stride 0, null data |
| PixelOps.ValidateImage | src/common/pixel_ops.h:14-33 | a valid view has a known format, non-zero size, a stride that holds a row and is a whole number of channels, and a pointer |
| PixelOps.ValidateImageExact | src/common/pixel_ops.h:14-33 | validate_image holds iff each of its five conditions holds |
| PixelOps.ShortStrideRejected | src/common/pixel_ops.h:22-24 | a 4 × 2 RGB view of stride 10 is rejected |
| PixelOps.CValidateImage | src/common/pixel_ops.h:160-165 | the C entry point is false for a null pointer and otherwise validate_image |
| PixelOps.U8ToFloat | src/common/pixel_ops.h:78-80 | an 8-bit channel b becomes b / 255, in [0, 1] |
| PixelOps.FloatToU8 | src/common/pixel_ops.h:35-40 | 0 at or below 0, 255 at or above 1, and within half a step of value × 255 in between |
| PixelOps.U8RoundTrip | src/common/pixel_ops.h:35-40 | float_to_u8(b / 255) == b for every byte |
| PixelOps.FloatToU8Monotone | src/common/pixel_ops.h:35-40 | float_to_u8 is monotone |
| PixelOps.CopiedRowsPayload | src/common/pixel_ops.h:42-49 | after the row copy, element j of row y of the destination is element j of row y of the source |
| PixelOps.CopiedRowsPadding | src/common/pixel_ops.h:42-49 | the padding of every destination row, and the memory past the last row, are untouched |
| PixelOps.CopyRows | src/common/pixel_ops.h:42-49 | the memcpy loop leaves the destination equal to CopiedRows of its old contents |
| PixelOps.ConvertedRowsPixel | src/common/pixel_ops.h:72-131 | channel c < 3 of each converted pixel is the converted source channel, and a fourth channel is the fill value |
| PixelOps.ConvertedRowsPadding | src/common/pixel_ops.h:72-131 | conversion leaves row padding and the memory past the last row untouched |
| PixelOps.ConvertRows | src/common/pixel_ops.h:72-131 | each conversion loop leaves the destination equal to ConvertedRows of its old contents |
| PixelOps.ConvertImage | src/common/pixel_ops.h:51-143 | succeeds iff both views are valid, equal in size and a supported format pair; on failure nothing is written; same format is a row copy; u8 → float is b / 255 with RGBA alpha dropped; float → u8 is float_to_u8 with alpha 255 |
| PixelOps.CConvertImage | src/common/pixel_ops.h:167-172 | the C entry point fails on a null pointer and otherwise is convert_image |
| PixelOps.U8FloatU8RoundTrip | src/common/pixel_ops.h:72-116 | converting 8-bit pixels to float and back restores every channel, whatever the three strides |
| ChunkLoop.Range | src/common/thread_pool.h:40-42 | the indices lo, lo + 1, …, hi - 1, empty when hi <= lo |
| ChunkLoop.RangeIncreasing | src/common/thread_pool.h:40-42 | a chunk's indices are strictly increasing |
| ChunkLoop.RangeSplit | src/common/thread_pool.h:40-42 | adjacent chunks concatenate into one range |
| ChunkLoop.RangeOnce | src/common/thread_pool.h:40-42 | every index in [lo, hi) occurs exactly once in the range and no other |
| ChunkLoop.RunChunk | src/common/thread_pool.h:39-43 | the chunk lambda calls the callable for cb, cb + 1, …, ce - 1 in order and nothing for an empty chunk |
| Pool.ConcatRangesPerm | src/common/thread_pool.cpp:180-186 | tasks run in any permuted order visit the same multiset of indices |
| Pool.FlattenUpdate | src/common/thread_pool.cpp:143-170 | replacing one queue changes the queued tasks by exactly that queue's difference |
| Pool.TakeAccount | src/common/thread_pool.cpp:153-165 | taking the front or back of a queue removes exactly that task from the queued tasks |
| Pool.PushAccount | src/common/thread_pool.cpp:90-94 | appending to a queue adds exactly that task to the queued tasks |
| Pool.FlattenEmpty | src/common/thread_pool.cpp:100-107 | nothing is queued exactly when every queue is empty |
| Pool.FirstNonEmpty | src/common/thread_pool.cpp:158-170 | the first non-empty queue among the later probes, or none |
| Pool.FirstNonEmptyOrder | src/common/thread_pool.cpp:158-170 | a steal takes from the first non-empty queue in the order (i+1) % n, …, (i+n-1) % n; every queue probed before it is empty and it is never the thief's own |
| Pool.ProbeReaches | src/common/thread_pool.cpp:158-170 | every queue other than the thief's own is probed |
| Pool.StealFails | src/common/thread_pool.cpp:158-170 | a steal fails only when every other queue is empty |
| Pool.ThreadPool.constructor | src/common/thread_pool.cpp:49-52 | max(1, hw_threads) empty queues, cursor 0, nothing pending |
| Pool.ThreadPool.StartWorkers | src/common/thread_pool.cpp:109-121 | the requested number of empty queues |
| Pool.ThreadPool.StopWorkers | src/common/thread_pool.cpp:123-141 | no queues and the cursor back at 0 |
| Pool.ThreadPool.TaskCompleted | src/common/thread_pool.cpp:172-178 | one fewer task pending, nothing else changed |
| Pool.ThreadPool.Enqueue | src/common/thread_pool.cpp:77-98 | an empty task is ignored; otherwise it is counted pending and either runs inline and completes (no queues) or goes to the back of queue next % n, the cursor advancing and every other queue unchanged |
| Pool.ThreadPool.TryPop | src/common/thread_pool.cpp:143-156 | succeeds iff the index is in range and its queue is non-empty, then removes and returns that queue's front and changes nothing else; on failure nothing changes |
| Pool.ThreadPool.TrySteal | src/common/thread_pool.cpp:158-170 | succeeds iff another queue is non-empty, then removes and returns the back of the first one in probe order and leaves every other queue unchanged |
| Pool.ThreadPool.WorkerStep | src/common/thread_pool.cpp:180-186 | a worker finds work iff some task is queued; then exactly one task leaves the queues, runs once and is retired |
| Pool.ThreadPool.Wait | src/common/thread_pool.cpp:100-107 | draining by any sequence of workers runs every queued task exactly once, leaves every queue empty and nothing pending, and logs exactly the indices of the tasks run |
| Pool.ThreadPool.Resize | src/common/thread_pool.cpp:59-75 | 0 means 1; the current size is a no-op; otherwise pending work finishes and the pool restarts with that many empty queues; afterwards size() is max(1, n) |
| Pool.ChunksCover | src/common/thread_pool.cpp:238-243 | the chunks' indices are exactly [cb, end) in order |
| Pool.ChunksShape | src/common/thread_pool.cpp:238-243 | every chunk is non-empty and at most the chunk size; the first starts at begin, each ends where the next starts, the last ends at end |
| Pool.ChunksDisjoint | src/common/thread_pool.cpp:238-243 | an earlier chunk ends before a later one starts |
| Pool.ChunksCount | src/common/thread_pool.cpp:238-243 | there are ceil((end - cb) / size) chunks |
| Pool.ChunkCountBound | src/common/thread_pool.cpp:234-243 | at most 4 × workers chunks |
| Pool.ChunkPlanCovers | src/common/thread_pool.cpp:217-246 | whatever the pool size, the plan visits every index of [begin, end) once, in increasing order |
| Pool.ChunkPlanShape | src/common/thread_pool.cpp:221-243 | nothing for an empty range; the single chunk (begin, end) for one worker or a short range; otherwise at most 4 × workers contiguous non-empty chunks from begin to end |
| Pool.ParallelForImpl | src/common/thread_pool.cpp:217-246 | the callable is called once for every index of [begin, end) and no other, in increasing order when run inline; the pool is idle again afterwards |
| Pool.EnqueueChunks | src/common/thread_pool.cpp:238-243 | the enqueue loop queues exactly the chunks of the plan, round-robin |
| Pool.ParallelFor | src/common/thread_pool.h:31-44 | nothing for end <= begin; otherwise every index of [begin, end) is visited exactly once |
| Pool.VisitedOnce | src/common/thread_pool.h:23-44 | the multiset of visited indices is exactly [begin, end), each once |
| Arith.Clamp | src/cpu/bitdepth.cpp:37-45 | the result lies in [lo, hi] and equals v when v is already there |
| Arith.RoundHalfAway | src/common/pixel_ops.h:37 | within half of x, and non-negative for non-negative x (std::round) |
| Arith.RoundHalfEven | src/cpu/dct8x8.cpp:211 | within half of x (nearbyint) |
| Arith.CRem | src/cpu/resample.cpp:38-46 | C's truncating remainder: same sign as the dividend, smaller than the divisor in magnitude |
| Arith.CRemFixup | src/cpu/sr_lite.cpp:30-33 | after `if (r < 0) r += period` the truncating remainder is the Euclidean one |
| Arith.CeilDiv | src/common/thread_pool.cpp:235 | (a + d - 1) / d is the ceiling of a / d |
| Resample.CubicKernelShape | src/cpu/resample.cpp:14-28 | the kernel is even, 1 at 0, 0 at ±1 and 0 for \|x\| >= 2 |
| Resample.CubicPartition | src/cpu/resample.cpp:14-28 | the four taps of any fractional offset weigh 1 together |
| Resample.MirrorIndex | src/cpu/resample.cpp:30-51 | 0 when length <= 1, otherwise an index below length |
| Resample.MirrorEuclid | src/cpu/resample.cpp:38-50 | mirroring is reflecting the Euclidean residue modulo 2 × length - 2 |
| Resample.MirrorIdentity | src/cpu/resample.cpp:30-51 | in-range indices are left alone |
| Resample.MirrorEdges | src/cpu/resample.cpp:30-51 | -1 maps to 1 and length to length - 2 |
| Resample.MirrorPeriodic | src/cpu/resample.cpp:30-51 | mirroring has period 2 × length - 2 |
| Resample.MirrorSymmetric | src/cpu/resample.cpp:30-51 | mirror(-i) == mirror(i) |
| Resample.ComputeChannels | src/cpu/resample.cpp:53-65 | a positive channel count means a non-empty image of exactly w × h × ch elements |
| Resample.ComputeChannelsExact | src/cpu/resample.cpp:53-65 | the channel count is the only positive c with w × h × c elements |
| Resample.DownPhaseShape | src/cpu/resample.cpp:194-224 | a downscale phase is usable, sums to 1 and has only positive weights |
| Resample.UpPhaseShape | src/cpu/resample.cpp:225-251 | an upscale phase is usable, sums to 1 and has at most four taps |
| Resample.CubicTableShape | src/cpu/resample.cpp:182-258 | empty for a zero size, otherwise dstSize phases with non-empty equal-length index and weight lists, every index below srcSize, weights summing to 1; positive weights when shrinking, at most four taps otherwise |
| Resample.IntegerPosPhase | src/cpu/resample.cpp:225-251 | the upscale phase at an integer position is the single tap (i, 1) |
| Resample.SameSizePhase | src/cpu/resample.cpp:225-251 | at unchanged size every phase is the single tap (i, 1) |
| Resample.ScaleWeights | src/cpu/resample.cpp:215-219 | every weight multiplied by k in place |
| Resample.NormalizePhase | src/cpu/resample.cpp:215-223 | divide by the weight sum, or fall back to a single tap of weight 1 when the sum is 0 |
| Resample.CoverageTaps | src/cpu/resample.cpp:195-214 | the coverage loop pushes exactly the overlap taps of [start, start + 1 / scale) |
| Resample.DownscalePhase | src/cpu/resample.cpp:194-224 | one downscale phase equals the table's phase |
| Resample.KernelTaps | src/cpu/resample.cpp:226-241 | the four-tap loop pushes the non-zero kernel weights with mirrored indices |
| Resample.UpscalePhase | src/cpu/resample.cpp:225-251 | one upscale phase equals the table's phase |
| Resample.BuildCubicWeightTable | src/cpu/resample.cpp:182-258 | the loop builds exactly CubicTable |
| Resample.CubicTableChar | src/cpu/resample.cpp:192-255 | a list of dstSize phases holding each index's phase is the table |
| Resample.HorizontalAt | src/cpu/resample.cpp:301-318 | intermediate sample (y, x, c) is the weighted sum of row y's taps |
| Resample.VerticalAt | src/cpu/resample.cpp:322-338 | output sample (y, x, c) is the clamped weighted sum of column x's taps |
| Resample.ResampledShape | src/cpu/resample.cpp:268-342 | the output has the requested size; its pixels are empty for a zero size or no inferable channel count, otherwise newWidth × newHeight × ch values, each in [0, 1] |
| Resample.ResampledConstant | src/cpu/resample.cpp:268-342 | a constant image of value v resamples to v clamped to [0, 1] everywhere |
| Resample.ResampledSameSize | src/cpu/resample.cpp:268-342 | resampling to the same size clamps every value and so is the identity on images with values in [0, 1] |
| Resample.HorizontalPass | src/cpu/resample.cpp:301-318 | the row loop fills the intermediate buffer with Horizontal |
| Resample.VerticalPass | src/cpu/resample.cpp:322-338 | the column loop fills the output with Vertical |
| Resample.ResampleCubic | src/cpu/resample.cpp:268-342 | resample_cubic returns Resampled |
| Resize.ViewImage | src/cpu/resample.cpp:67-121 | the packed image of a view has the view's size and three values per pixel |
| Resize.ViewImageAt | src/cpu/resample.cpp:67-121 | pixel (y, x) of a view's image holds the view's channels there |
| Resize.CopyCpuToImage | src/cpu/resample.cpp:67-121 | fails iff the view is invalid, leaving the image alone; otherwise gives ViewImage |
| Resize.CopyImageToCpu | src/cpu/resample.cpp:123-178 | fails, writing nothing, unless the view is valid and has the image's size; then every row receives the image's row in the view's format and padding is kept |
| Resize.FloatsBackRoundTrip | src/cpu/resample.cpp:123-178 | reading back a float view written from an image gives the image's pixels |
| Resize.BytesBackRoundTrip | src/cpu/resample.cpp:123-178 | reading back an 8-bit view written from an image gives each value within half a step of 1/255 |
| Resize.ResizeChecks | src/cpu/resample.cpp:348-381 | the checks pass iff both views are valid, both scales are positive, the mode is cubic and the destination is exactly the non-zero llround(src × scale) |
| Resize.ResizeView | src/cpu/resample.cpp:348-389 | fails iff the checks fail, writing nothing; otherwise the destination receives the resampled image of the source as it was before the call, in its format, even when the two views share memory |
| Bitdepth.BayerShape | src/cpu/bitdepth.cpp:11-20 | the matrix is 8 × 8 with entries in 0..63 |
| Bitdepth.Threshold | src/cpu/bitdepth.cpp:63-67 | the threshold (B + 0.5) / 64 lies strictly in (0, 1) |
| Bitdepth.ThresholdPeriodic | src/cpu/bitdepth.cpp:63-67 | the threshold depends only on x mod 8 and y mod 8 |
| Bitdepth.SanitizeBits | src/cpu/bitdepth.cpp:24-35 | 0 becomes 6, values above 8 become 8, others stay; the result is in [1, 8] |
| Bitdepth.LevelsBounds | src/cpu/bitdepth.cpp:56-59 | 2^bits levels, between 2 and 256, so max_level >= 1 |
| Bitdepth.QuantizeLevel | src/cpu/bitdepth.cpp:70-79 | every output is k / max_level for an integer k in [0, max_level], hence in [0, 1] |
| Bitdepth.QuantizeClamps | src/cpu/bitdepth.cpp:70-72 | the input is clamped to [0, 1] before scaling |
| Bitdepth.QuantizeEndpoints | src/cpu/bitdepth.cpp:70-79 | 0 stays 0 and 1 stays 1 at every pixel |
| Bitdepth.QuantizeMonotone | src/cpu/bitdepth.cpp:70-79 | a brighter input never gives a darker output |
| Bitdepth.QuantizePeriodic | src/cpu/bitdepth.cpp:61-81 | the output repeats every 8 pixels in each direction |
| Bitdepth.QuantizeInLevels | src/cpu/bitdepth.cpp:70-79 | every output is one of the 2^bits levels |
| Bitdepth.QuantizedAt | src/cpu/bitdepth.cpp:61-81 | element (y, x, c) becomes the quantized value of its own old value at (x, y), for any channel count |
| Bitdepth.QuantizedTail | src/cpu/bitdepth.cpp:61-81 | elements past the image are untouched |
| Bitdepth.QuantizeInPlace | src/cpu/bitdepth.cpp:47-83 | a null buffer or a zero dimension is a no-op; otherwise the buffer becomes Quantized |
| Bitdepth.InferChannels | src/cpu/bitdepth.cpp:85-97 | 0 for an empty image or a pixel count that is not a multiple of w × h, else the element count over w × h |
| Bitdepth.InferChannelsAgrees | src/cpu/bitdepth.cpp:85-97 | infer_channels agrees with the resampler's compute_channels |
| Bitdepth.QuantizedImageLevels | src/cpu/bitdepth.cpp:103-109 | a quantized image holds only the 2^bits levels, and an image without a channel count is unchanged |
| Bitdepth.QuantizedImageDistinct | src/cpu/bitdepth.cpp:103-109 | at most 2^bits distinct values remain |
| Bitdepth.QuantizeBitdepth | src/cpu/bitdepth.cpp:103-109 | the image becomes QuantizedImage |
| Dct.ClampQuality | src/cpu/dct8x8.cpp:117 | the quality clamped to [1, 100] |
| Dct.QualityScale | src/cpu/dct8x8.cpp:124-129 | 5000 / q below 50 and 200 - 2q from 50 on, positive |
| Dct.QualityTable | src/cpu/dct8x8.cpp:116-139 | all 1 at quality 100 and above; otherwise 64 steps (base × scale + 50) / 100 clamped to [1, 255], DC forced to 1 |
| Dct.QualityTable50 | src/cpu/dct8x8.cpp:124-138 | at quality 50 the table is the base table clamped to [1, 255], DC apart |
| Dct.QualityScaleAntitone | src/cpu/dct8x8.cpp:124-129 | the scale never grows with quality |
| Dct.QualityTableAntitone | src/cpu/dct8x8.cpp:116-139 | a higher quality never gives a coarser step |
| Dct.BuildQualityTable | src/cpu/dct8x8.cpp:116-139 | the loop computes QualityTable |
| Dct.ClampIndex | src/cpu/dct8x8.cpp:155-160 | min(v, limit - 1) for limit > 0, hence below the limit |
| Dct.TilesAlong | src/cpu/dct8x8.cpp:178-179 | (n + 7) / 8 is the fewest 8-sample tiles covering n |
| Dct.TileBijection | src/cpu/dct8x8.cpp:178-189 | tile index t is tile (t / tilesX, t % tilesX), and every tile of the grid has exactly one index |
| Dct.PixelTile | src/cpu/dct8x8.cpp:218-231 | every pixel lies in tile (y / 8, x / 8), at block slot (y % 8) × 8 + x % 8 |
| Dct.RequantizeError | src/cpu/dct8x8.cpp:209-212 | rounding moves a coefficient by at most half its step |
| Dct.RequantizeIdempotent | src/cpu/dct8x8.cpp:209-212 | a multiple of the step is left as it is |
| Dct.QuantizeCoefficientsFacts | src/cpu/dct8x8.cpp:204-214 | the DC coefficient passes through, the others move by at most half their step, and requantising changes nothing |
| Dct.ProcessBlockLossless | src/cpu/dct8x8.cpp:202-216 | from quality 100 on, a block is only transformed there and back |
| Dct.Attenuated | src/cpu/dct8x8.cpp:164-236 | a zero-size or channel-less image is returned unchanged; otherwise the same size and element count |
| Dct.AttenuatedPixel | src/cpu/dct8x8.cpp:218-231 | element (y, x, c) is slot (y % 8) × 8 + x % 8 of the processed block of channel c of tile (y / 8, x / 8) |
| Dct.ReadBlockOwnSample | src/cpu/dct8x8.cpp:193-200 | a pixel's own sample sits in its slot of its tile's block |
| Dct.ReadBlockInBounds | src/cpu/dct8x8.cpp:193-200 | every sample a block reads is inside the image |
| Dct.LosslessAtFullQuality | src/cpu/dct8x8.cpp:164-236 | from quality 100 on, inverse transforms leave the image unchanged |
| Dct.LoadBlock | src/cpu/dct8x8.cpp:192-200 | slot yy × 8 + xx receives the clamped sample at (y0 + yy, x0 + xx) |
| Dct.QuantizeBlock | src/cpu/dct8x8.cpp:204-214 | coefficient 0 is skipped, every other one is rounded to its step |
| Dct.StoreBlock | src/cpu/dct8x8.cpp:218-231 | only in-image elements of the tile are written, each from its slot, and nothing else changes |
| Dct.ProcessTile | src/cpu/dct8x8.cpp:185-233 | the tile's elements receive their processed values and every other element is unchanged |
| Dct.TileMembership | src/cpu/dct8x8.cpp:178-189 | element k lies in tile t iff t is its tile's index, and every tile index is below the tile count |
| Dct.AttenuateTiles | src/cpu/dct8x8.cpp:185-233 | after the tile loop every element holds its processed value, so each is written exactly once |
| Dct.HfAttenuate | src/cpu/dct8x8.cpp:164-236 | dct8x8_hf_attenuate returns Attenuated |
| BSpline.HomogeneousZero | src/cpu/b_spline_prefilter.cpp:32-47 | the system is strictly diagonally dominant, so only the zero line solves it with a zero right-hand side |
| BSpline.SolutionUnique | src/cpu/b_spline_prefilter.cpp:32-47 | two solutions of one system are the same line |
| BSpline.LineFilteredUnique | src/cpu/b_spline_prefilter.cpp:24-60 | prefilter_line's result is determined by the line |
| BSpline.ConstantLine | src/cpu/b_spline_prefilter.cpp:32-59 | a constant line is mapped to itself |
| BSpline.NextPivot | src/cpu/b_spline_prefilter.cpp:49-53 | every elimination pivot stays in [3, 4], so no division by zero |
| BSpline.EliminationSolves | src/cpu/b_spline_prefilter.cpp:49-59 | back-substitution on the eliminated system solves the original one |
| BSpline.SetUpSystem | src/cpu/b_spline_prefilter.cpp:32-47 | diagonal 4, upper [2, 1, …, 1], lower [1, …, 1, 2], rhs 6 × line[i × stride] |
| BSpline.Eliminate | src/cpu/b_spline_prefilter.cpp:49-53 | forward elimination keeps the pivots in [3, 4] and an equivalent system |
| BSpline.BackSubstitute | src/cpu/b_spline_prefilter.cpp:55-59 | back-substitution writes a line solving the eliminated system, at the line's positions only |
| BSpline.PrefilterLine | src/cpu/b_spline_prefilter.cpp:24-60 | lines of 0 or 1 samples are unchanged; a longer line is replaced by the solution of its system; only line[i × stride] for i < length changes |
| BSpline.PassUnique | src/cpu/b_spline_prefilter.cpp:78-90 | a pass has exactly one result |
| BSpline.PassConstant | src/cpu/b_spline_prefilter.cpp:78-90 | a pass leaves a constant image unchanged |
| BSpline.RowsPass | src/cpu/b_spline_prefilter.cpp:78-83 | every channel of every row is prefiltered, with the rest unchanged between calls |
| BSpline.ColumnsPass | src/cpu/b_spline_prefilter.cpp:85-90 | every channel of every column is prefiltered with stride w × ch |
| BSpline.BSplinePrefilter | src/cpu/b_spline_prefilter.cpp:64-93 | an empty or channel-less image is returned unchanged; otherwise the same size, columns prefiltered after rows |
| BSpline.PrefilteredUnique | src/cpu/b_spline_prefilter.cpp:64-93 | the prefiltered image is determined by the input |
| BSpline.PrefilterConstant | src/cpu/b_spline_prefilter.cpp:64-93 | a constant image is its own prefiltered image |
| SrWeights.LayerSizes | include/pixmask/sr_weights.h:9-18 | the layers have 432, 2304 and 1728 weights; layer 3 has 3 × 2 × 2 = 12 outputs |
| SrWeights.ConvIndexBound | include/pixmask/sr_weights.h:20-26 | in-range coordinates give a position below conv_weight_count |
| SrWeights.ConvIndexDecode | include/pixmask/sr_weights.h:20-26 | a position's coordinates are the ones it was made from |
| SrWeights.ConvIndexInjective | include/pixmask/sr_weights.h:20-26 | conv_index is injective on in-range coordinates |
| SrWeights.ConvIndexOnto | include/pixmask/sr_weights.h:20-26 | every position of a layer comes from in-range coordinates |
| SrWeights.Conv1Feature | include/pixmask/sr_weights.h:30-37 | output 5 ch + f has the single weight 1, on input ch at the centre / up / down / left / right tap |
| SrWeights.MakeConv1Weights | include/pixmask/sr_weights.h:28-46 | the table holds the intended layer-1 weight everywhere: the five copies per channel, 1/3 on the centre of each channel for output 15, zero elsewhere |
| SrWeights.MakeConv2Weights | include/pixmask/sr_weights.h:48-54 | the table is the identity: 1 at the centre tap with input == output, zero elsewhere |
| SrWeights.PairsPartition | include/pixmask/sr_weights.h:64-76 | for each orientation the strong and weak pairs are disjoint and together are features {1, 2, 3, 4} |
| SrWeights.PairsFollowCorner | include/pixmask/sr_weights.h:64-76 | the strong neighbours point towards the orientation's corner |
| SrWeights.Conv3Output | include/pixmask/sr_weights.h:78-97 | output 4 ch + o has weights only at the centre tap: 1.2 on feature 5 ch, -0.1 on its strong, -0.05 on its weak neighbours, 0.05 on feature 15 |
| SrWeights.MakeConv3Weights | include/pixmask/sr_weights.h:56-101 | the table holds the intended layer-3 weight everywhere |
| SrWeights.Conv1Table | include/pixmask/sr_weights.h:103-104 | a table holding the intended weight at every position is kConv1Weights |
| SrWeights.Conv2Table | include/pixmask/sr_weights.h:107-108 | likewise kConv2Weights |
| SrWeights.Conv3Table | include/pixmask/sr_weights.h:111-112 | likewise kConv3Weights |
| SrWeights.WeightsAt | include/pixmask/sr_weights.h:103-113 | a table read at in-range coordinates gives the intended weight |
| SrLite.MirrorIndex | src/cpu/sr_lite.cpp:25-38 | 0 for length <= 1, else an index below length |
| SrLite.MirrorAgreesResample | src/cpu/sr_lite.cpp:25-38 | the two copies of mirror_index agree for every index and length |
| SrLite.MirrorAgreesReference | python/pixmask/tests/test_srlite.py:43-52 | sr_lite's mirror_index is the test suite's reference mirror |
| SrLite.WindowTap | src/cpu/sr_lite.cpp:57-68 | tap k of the window around p reads p + k - 1 inside the line, 1 past the start and n - 2 past the end |
| SrLite.ConvValue | src/cpu/sr_lite.cpp:71-90 | output oc of a pixel is the bias plus the weighted window, cut at zero when relu is set |
| SrLite.LayerOutAt | src/cpu/sr_lite.cpp:70-90 | element (y, x, oc) of the layer's output, at y × width × oc_n + x × oc_n + oc, is ConvValue |
| SrLite.LayerOutRelu | src/cpu/sr_lite.cpp:87-90 | with relu set every output is >= 0 |
| SrLite.AccumulateRow | src/cpu/sr_lite.cpp:74-85 | the tap loops add the products of one kernel row in order |
| SrLite.ConvolveAt | src/cpu/sr_lite.cpp:71-90 | the accumulator ends at ConvValue |
| SrLite.Convolve3x3 | src/cpu/sr_lite.cpp:40-94 | nothing for a null buffer or empty image; else the first w × h × oc_n elements become the layer's output and the rest of the buffer is untouched |
| SrLite.ShuffleBijection | src/cpu/sr_lite.cpp:109-121 | (y, x, sub) ↦ (2y + sub / 2, 2x + sub % 2) is a bijection onto the 2h × 2w grid |
| SrLite.ShuffleTargetInjective | src/cpu/sr_lite.cpp:115-119 | distinct sources have distinct targets |
| SrLite.ShuffleTargetOnto | src/cpu/sr_lite.cpp:115-119 | every output element is the target of some source |
| SrLite.ShuffledAt | src/cpu/sr_lite.cpp:115-119 | sub-pixel sub of channel c of (y, x), clamped to [0, 1], is at its target |
| SrLite.PixelShuffleR2 | src/cpu/sr_lite.cpp:96-124 | nothing for a null buffer or empty image; else every element of the 2h × 2w × ch output is its clamped source and the rest untouched |
| SrLite.SrLiteForward | src/cpu/sr_lite.cpp:126-166 | nothing for a null buffer or empty image; else the output's first 2h × 2w × 3 elements become Forward, through stages of w × h × channels elements |
| SrLite.LoadLowRes | src/cpu/sr_lite.cpp:208-213 | the fresh packed buffer holds the view's image |
| SrLite.SrLiteRefine | src/cpu/sr_lite.cpp:180-228 | fails, writing nothing, unless both views are valid, the input non-empty, the output exactly twice its size and both formats supported; then every output row receives Refined of the input as it was before the call, in the output's format, with padding kept, even when the two views share memory |
| SrReference.Layer1Feature | include/pixmask/sr_weights.h:30-37 | layer-1 output 5 ch + f at (y, x) is the mirrored window sample of feature f, cut at zero |
| SrReference.Layer1Luma | include/pixmask/sr_weights.h:39-43 | layer-1 output 15 is the mean of the three centre channels, cut at zero |
| SrReference.Layer2Identity | include/pixmask/sr_weights.h:48-54 | on a stage without negative elements layer 2 changes nothing |
| SrReference.MixWeights | include/pixmask/sr_weights.h:78-97 | the centre weights of output 4 ch + o are 1.2, -0.1, -0.1, -0.05, -0.05, 0.05 on six distinct features and zero elsewhere |
| SrReference.Layer3Value | include/pixmask/sr_weights.h:78-97 | layer-3 output 4 ch + o is the weighted mix of the centre, strong, weak and luminance features |
| SrReference.ReferenceSr | python/pixmask/tests/test_srlite.py:55-104 | the test suite's reference upscaler, of size 2h × 2w × 3 |
| SrReference.Layer1Sample | python/pixmask/tests/test_srlite.py:55-104 | layer-1 output 5 c + f is the reference's sample f of channel c |
| SrReference.Layer1Luminance | python/pixmask/tests/test_srlite.py:55-104 | layer-1 output 15 is the reference's luminance |
| SrReference.MixAgrees | python/pixmask/tests/test_srlite.py:55-104 | the layer-3 mix over the reference's samples is its unclamped value: the weights and the reference's axis table agree |
| SrReference.PixelIsReference | src/cpu/sr_lite.cpp:126-166 | each sub-pixel the network writes is the reference's value |
| SrReference.ForwardIsReference | src/cpu/sr_lite.cpp:126-166 | the network's output equals the reference upscaler on every image without negative elements |
| Sanitize.SanitizePixel | src/common/sanitize.cpp:60-62 | in [0, 1], equal to the input iff it already is, 0 below and 1 above |
| Sanitize.Clamped | src/common/sanitize.cpp:64-70 | the same width, height and element count, every value in [0, 1] |
| Sanitize.ClampedFixedPoints | src/common/sanitize.cpp:64-70 | clamping leaves an image alone iff its values are in [0, 1], and is idempotent |
| Sanitize.SanitizeImage | src/common/sanitize.cpp:64-70 | the loop returns Clamped |
| Sanitize.ScaledDimension | src/common/sanitize.cpp:50-54 | at least 1; within half of value × scale when that is >= 0.5, else 1 |
| Sanitize.QuarterDimension | src/common/sanitize.cpp:50-54 | at scale 0.25 the size is (value + 2) / 4, or 1 for a value below 2 |
| Sanitize.HalfDoubles | src/common/sanitize.cpp:128-132 | an even non-zero size halves to at least 1 and doubles back to itself |
| Sanitize.GateRejects | src/common/sanitize.cpp:73-95 | RGBA on either side, different sizes and odd sizes are rejected |
| Sanitize.BlendWeights | src/common/sanitize.cpp:117-165 | 0.4 + 0.6 == 1 and 0.15 + 0.35 + 0.5 == 1, all positive |
| Sanitize.LowResMix | src/common/sanitize.cpp:117-121 | the low-resolution blend keeps the length and clamps every element to [0, 1] |
| Sanitize.FinalValue | src/common/sanitize.cpp:156-165 | one final-blend element lies in [0, 1] |
| Sanitize.LowResMixBetween | src/common/sanitize.cpp:117-121 | on [0, 1] inputs the blend lies between them, so the clamp is inactive |
| Sanitize.FinalValueBetween | src/common/sanitize.cpp:156-165 | on [0, 1] inputs the final blend lies between the least and the greatest input |
| Sanitize.FinalMixBetween | src/common/sanitize.cpp:156-165 | likewise element by element |
| Sanitize.BlendLowRes | src/common/sanitize.cpp:117-121 | the loop leaves the buffer equal to LowResMix of its old contents |
| Sanitize.BlendFinal | src/common/sanitize.cpp:156-165 | the loop leaves the buffer equal to FinalMix of its old contents |
| Sanitize.ToFloatImage | src/common/sanitize.cpp:13-31 | succeeds iff the view is valid, leaving the image alone otherwise; then the image is the view's packed float image |
| Sanitize.FromFloatImage | src/common/sanitize.cpp:33-48 | succeeds iff the sizes agree, the image has pixels and the destination is valid; on failure nothing is written; otherwise the destination receives the image in its format |
| Sanitize.ResampledPacked | src/common/sanitize.cpp:105-137 | resampling a packed RGB image to a non-zero size is non-empty, packed and in [0, 1], so those emptiness checks never fire |
| Sanitize.Sanitized | src/common/sanitize.cpp:102-165 | the composed stages give a packed RGB image of the input's size with values in [0, 1] |
| Sanitize.LowResStage | src/common/sanitize.cpp:102-110 | the quarter-size resample never comes out empty and gives LowRes |
| Sanitize.FilterStage | src/common/sanitize.cpp:112-121 | the DCT stage never comes out empty and gives Filtered |
| Sanitize.SrInputStage | src/common/sanitize.cpp:128-137 | the half-size checks never fail and the super-resolution input is the filtered image at (w / 2, h / 2) |
| Sanitize.RefineStage | src/common/sanitize.cpp:139-154 | the refinement's dimension precondition holds, it succeeds, and the buffer becomes the network's output |
| Sanitize.BlendStage | src/common/sanitize.cpp:123-176 | upscale, refinement, final blend and write-back all succeed, and the output receives Blended |
| Sanitize.Pipeline | src/common/sanitize.cpp:102-176 | after the gate every stage succeeds and the output receives Sanitized in its format |
| Sanitize.Sanitize | src/common/sanitize.cpp:72-177 | fails iff the gate rejects (a view is invalid, a format is not U8_RGB/F32_RGB, the sizes differ or are odd), writing nothing; otherwise succeeds and the output view receives Sanitized of the input as it was before the call, its padding kept, even when the two views share memory |
| Security.SearchFrom | src/common/security.cpp:18-20 | std::search: the first occurrence at or after i, or the end when there is none |
| Security.ContainsSignature | src/common/security.cpp:14-21 | true iff the needle is non-empty, the buffer is non-null, not shorter than the needle, and has the needle at some offset i with i + \|needle\| <= size |
| Security.Signatures | src/common/security.cpp:54-63 | the eight non-empty signatures |
| Security.AnySignatureFrom | src/common/security.cpp:64-71 | trying signatures in order finds one iff some remaining signature occurs |
| Security.SuspiciousPolyglotBytes | src/common/security.cpp:49-72 | false for a null or empty buffer, otherwise true iff one of the eight signatures occurs |
| Security.PolyglotGuardRedundant | src/common/security.cpp:49-52 | the null-or-empty guard changes no answer |
| Security.NoLeadByteNotSuspicious | src/common/security.cpp:49-72 | a buffer with no byte that starts a signature is not suspicious |
| Security.SignatureDetected | src/common/security.cpp:49-72 | a buffer in which one of the signatures occurs at any offset is suspicious |
| Security.SignatureAtStartDetected | python/pixmask/tests/test_security.py:13-20 | a buffer that starts with a signature is suspicious |
| Security.ElfAtOffsetOneSuspicious | python/pixmask/tests/test_security.py:13-20 | the test buffer 0x7f "ELF" 0x02, with its signature at offset 1, is suspicious |
| Security.PlainTextNotSuspicious | python/pixmask/tests/test_security.py:30-31 | plain text is not suspicious |
| Security.StridedBuffersNotSuspicious | python/pixmask/tests/test_security.py:22-27 | the strided views of the tests are not suspicious |
| Security.PdfHeaderSuspicious | python/pixmask/tests/test_security.py:13-20 | a PDF header is suspicious; null and empty buffers are not |
| Security.ExceedsPixelCap | src/common/security.cpp:25-47 | false for a zero dimension; for a finite cap true when cap <= 0 and otherwise iff w × h > cap × 1,000,000 |
| Security.PixelCapMonotone | src/common/security.cpp:34-46 | a larger cap flags nothing a smaller one lets through, and a larger image is flagged whenever a smaller one is |
| Security.PixelCapExamples | python/pixmask/tests/test_security.py:6-10 | 4000 × 3000 within 12 MP, 6000 × 4000 over it, a zero cap flags, an empty image never does |

## Left out

- Threading is not modelled:
  - `std::thread`, the per-queue mutexes, condition variables, atomics and memory orders;
  - the blocking in `worker_loop` and the joins in `stop_workers`;
  - the `global_pool()` singleton, which is an explicit `ThreadPool` object here.
- Pool.ThreadPool.Wait: the workers take turns one step at a time, rather than running concurrently. The choice of worker at each step is left free.
- The hardware thread count (`hw_threads` in `src/common/cpu_caps.cpp`) is a constructor parameter. cpu_caps.cpp is not part of this model.
- Values are reals, not IEEE floats. The model claims no float error bound, and no tolerance from the tests.
- The 8 × 8 DCT-II and its inverse (`build_cos_table`, `fdct_1d`/`idct_1d`, `forward_dct`/`inverse_dct`) are the parameters `fwd` and `inv`.
- Dct.LosslessAtFullQuality assumes the two DCT parameters invert each other. Nothing is proved about the cosine transform itself.
- `kQuantTableQ50` (in `pixmask/dct_tables.h`, which is not part of this model) is a parameter: 64 positive integers.
- The `extern "C"` forwarding wrappers are not modelled, except `pixmask_validate_image` and `pixmask_convert_image`. This covers `pixmask_cubic_resample`, `pixmask_resize`, `pixmask_dct8x8_hf_attenuate`, `pixmask_quantize_bitdepth`, `pixmask_cubic_b_spline_prefilter`, `pixmask_sr_lite`, `pixmask_sanitize` and `pixmask_set_threads`. These are null-checks and copies around the modelled functions.
- `initialize` and `version_string` in `src/cpu/sr_lite.cpp` are not modelled. They do no image work.
- `box_blur`, `sharpen` and `convert_to_float` are not modelled. They are one-line aliases or no-ops.
- `size_t` wrap-around is not modelled. This covers `width * height * channels`, `length * 2 - 2` and the like: sizes are unbounded naturals.
- Security.ExceedsPixelCap: a non-finite cap (the `std::isfinite` branch of `exceeds_pixel_cap`) has no counterpart in reals, so that branch is not modelled.
- Sanitize.SanitizePixel: a NaN input has no counterpart in reals.
- Sanitize.ScaledDimension: requires a non-negative scale. For a negative scale, `llround` would go negative and the `size_t` cast would wrap; the function's only callers pass 0.25.
- Sanitize.FromFloatImage: the source code trusts the image to hold `width * height * 3` floats once its size matches the view's. Here that is a precondition.
- Backed views are preconditions, because C++ cannot check them. A view is backed when the memory behind its pointer holds its rows (`Images.Backed`).
- PixelOps.ConvertImage and PixelOps.CConvertImage: require the source and destination memory not to overlap (`Images.Disjoint`). The same-format path of `convert_image` is a `memcpy` of each row (src/common/pixel_ops.h:47), and C++ leaves overlapping `memcpy` undefined. `resize`, `sr_lite_refine` and `sanitize` copy their input before they write, so they carry no such precondition.
- SrReference.ForwardIsReference: holds for images with no negative element. Layer 1's ReLU cuts negative samples, which the reference does not do. Every image `sanitize` passes in has values in [0, 1].
- The reference upscaler of the Python tests is modelled in reals. Its float32 rounding is not.
- Sanitize.ToFloatImage and Bitdepth.QuantizeBitdepth: the `Image&` in/out parameter becomes a returned `Image` value.
- The statistical claims of the tests are not modelled: sharpness, Laplacian energy, SSIM and PSNR against Pillow.
- The Python bindings, CLI and benchmarks are not modelled.
