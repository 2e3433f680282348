# Float data layer prefetch, modelled in Dafny

This project models the core of a Caffe-style float data layer. The core is
the prefetch fill cycle `FloatDataLayerPrefetch` and the generator decision
in `CreatePrefetchThread`, both in
`src/caffe/layers/float_data_layer.cpp`.

One fill cycle reads `batch_size` records from an ordered store (LevelDB or
LMDB). It starts at the store cursor and wraps to the first record after the
last. Each item is processed as follows:

- It is cropped to a `crop_size` square window. The window is placed at
  random offsets when training and centred otherwise. With `crop_size == 0`
  the whole record is kept.
- With `mirror` on, an odd random draw flips the window along its width.
- Each sample is normalized as `(sample - mean) * scale`. The result goes
  into the item's slot of the prefetch data buffer, and the item's label goes
  into the label buffer.

The cycle aborts the process in three cases:

- `mirror` is set without a crop;
- the backend selector is unknown;
- a record has no float samples while cropping.

Modules:

- `Arith`: product, quotient and remainder facts that the index arithmetic
  needs.
- `Layout`: the record shape, the flat row-major index formulas of the
  source, and slot positions in the output buffer.
- `RecordCursor`: the two backends' advance steps, LevelDB
  `Next`/`SeekToFirst` and LMDB `MDB_NEXT`/`MDB_FIRST`. Both are shown to be
  the cyclic successor, with a closed form for `n` advances.
- `Augment`: the specification of a cycle as functions.
  - The configuration and the number of random draws per item.
  - The crop plan of an item (offsets and mirror decision) as a function of
    the random stream.
  - The normalized patch an item writes, the whole batch (`BatchData`,
    `BatchLabels`) and the fatal condition a cycle meets (`PrefetchError`).
  - The properties of these functions.
- `FloatDataLayer`: the class `Layer`, holding the layer's state.
  - The cursor, phase, generator and draw count are fields.
  - The two prefetch buffers are arrays.
  - Its methods are the fill cycle (`Prefetch`, one pass of the item loop
    `PrefetchItem`, its body `FillItem`), the channel, row and column copy
    loops, the random draws, the cursor advance and `CreatePrefetchThread`.
  - Each method is proved against the `Augment` functions.

Modelling choices:

- The store is a non-empty sequence of decoded records in key order, and the
  cursor is an index into it.
- The generator is an injected stream `nat -> nat` plus a count of the values
  already taken. `PrefetchRand` returns the next value of the stream.
- Sample values are `real`.
- The normalization `(x - m) * scale` is the layer's `norm` function, fixed
  at set-up to `Normalize(scale)`. The lemmas state the formula itself.

## Model

| member | source | states |
|---|---|---|
| FloatDataLayer.Layer.Prefetch | src/caffe/layers/float_data_layer.cpp:22-153 | The cycle ends with exactly the fatal condition `PrefetchError` names, checked in the source's order: mirror without crop, then unknown backend, then the first record without samples. A complete cycle leaves the data buffer equal to `BatchData` and the labels equal to `BatchLabels` (untouched when labels are off). It moves the cursor to `(start + batch_size) mod K` and takes `batch_size * DrawsPerItem` draws. The two configuration aborts change nothing. A missing-samples abort stops at the first such item. |
| FloatDataLayer.Layer.FillBatch | src/caffe/layers/float_data_layer.cpp:50-150 | The item loop fills items in order. It ends with all `batch_size` slots, labels, cursor and draw count as after that many items, or aborts at an item `k` whose record has no samples, after items that all had them, with the cursor `k` records on. |
| FloatDataLayer.Layer.PrefetchItem | src/caffe/layers/float_data_layer.cpp:50-150 | One pass of the item loop extends the filled prefix by one item and advances the cursor; the data after slot `item` and the labels after `item` are unchanged. It fails only when cropping and the record `item` after the start has no samples, and then leaves cursor, draw count and both buffers as they were. |
| FloatDataLayer.Layer.FillItem | src/caffe/layers/float_data_layer.cpp:69-126 | It succeeds exactly when there is no crop or the current record has samples. On success, the buffer up to the end of slot `item` is the old prefix followed by the item's `ItemPatch`, the draw count grows by `DrawsPerItem`, the data after slot `item` is unchanged, and the label is written at `item` exactly when labels are output. On failure nothing changes. |
| FloatDataLayer.Layer.FilledAtStep | src/caffe/layers/float_data_layer.cpp:50-150 | Writing the record under the cursor into the next slot and label, taking its draws and stepping the cursor cyclically preserves the loop invariant, for one more item. |
| FloatDataLayer.Layer.FilledBatch | src/caffe/layers/float_data_layer.cpp:50-150 | Once all items are filled, no fatal condition was met, and the buffers, cursor and draw count equal the batch specification. |
| FloatDataLayer.Layer.DrawPlan | src/caffe/layers/float_data_layer.cpp:73-80 | The draws made for one item give exactly `ItemPlan` on the stream from the current count, and take exactly `DrawsPerItem` values. |
| FloatDataLayer.Layer.CopyCrop | src/caffe/layers/float_data_layer.cpp:82-114 | Slot `item` of the data buffer holds the item's crop patch, and every position outside the slot is unchanged. |
| FloatDataLayer.Layer.CopyCropChannel | src/caffe/layers/float_data_layer.cpp:83-113 | The `crop_size * crop_size` positions from the channel's start hold channel `c` of the window, row after row, and nothing else changes. |
| FloatDataLayer.Layer.CopyCropRow | src/caffe/layers/float_data_layer.cpp:84-112 | Each output column `x` of the row holds the normalized sample of the source column the plan maps to `x` (reversed when mirrored), and nothing outside the row changes. |
| FloatDataLayer.Layer.CopyWhole | src/caffe/layers/float_data_layer.cpp:116-122 | Without a crop, slot `item` holds the whole normalized record, and nothing outside it changes. |
| FloatDataLayer.Layer.Advance | src/caffe/layers/float_data_layer.cpp:128-149 | The cursor moves to `(cursor + 1) mod K`. |
| FloatDataLayer.Layer.PrefetchRand | src/caffe/layers/float_data_layer.cpp:74-80 | A draw returns the stream's value at the current count and advances the count by one. |
| FloatDataLayer.Layer.CreatePrefetchThread | src/caffe/layers/float_data_layer.cpp:156-167 | The phase is recorded. A generator is present exactly when `NeedsRand`, that is training with mirror or crop on, and then it is the given stream from its start. |
| FloatDataLayer.Layer.constructor | src/caffe/layers/float_data_layer.cpp:28-49 | The layer starts over a non-empty store with buffers sized for one batch, the cursor on the first record, no generator, and `norm` the scale's normalization. |
| RecordCursor.LevelDbStep | src/caffe/layers/float_data_layer.cpp:129-136 | `Next` followed, when invalid, by `SeekToFirst` leaves a valid iterator on `(pos + 1) mod K`. |
| RecordCursor.MdbNext | src/caffe/layers/float_data_layer.cpp:138-139 | `MDB_NEXT` finds an entry exactly when the cursor is not on the last one. |
| RecordCursor.MdbFirst | src/caffe/layers/float_data_layer.cpp:142-144 | `MDB_FIRST` finds an entry exactly when the store is non-empty. |
| RecordCursor.LmdbStep | src/caffe/layers/float_data_layer.cpp:137-146 | `MDB_NEXT`, falling back to `MDB_FIRST`, always succeeds in a non-empty store and lands on `(pos + 1) mod K`. |
| RecordCursor.Step | src/caffe/layers/float_data_layer.cpp:128-149 | Both known backends advance to the cyclic successor. |
| RecordCursor.AdvancedIsCyclic | src/caffe/layers/float_data_layer.cpp:50-149 | After `n` advances from `pos` the cursor is on `(pos + n) mod K`, for both backends. |
| RecordCursor.WrapsToFirst | src/caffe/layers/float_data_layer.cpp:131-144 | `K` advances from the first record return to the first record. |
| Augment.NeedsRand | src/caffe/layers/float_data_layer.cpp:158-160 | `prefetch_needs_rand`: a generator is needed only when training, and then exactly when mirror is on or the cycle draws (crop on). |
| Augment.DrawsPerItem | src/caffe/layers/float_data_layer.cpp:73-80 | An item takes at most three draws; it takes any exactly when cropping in training or with mirror on; cropping in training takes at least the two offset draws. |
| Augment.PrefetchError | src/caffe/layers/float_data_layer.cpp:39-70 | The fatal condition of a cycle, in the source's order: mirror without crop whenever both flags say so; an unknown backend only past that check and with at least one item; no error exactly when neither applies and, when cropping, every record of the batch has samples. |
| Augment.RandomOffset | src/caffe/layers/float_data_layer.cpp:74-75 | A training offset `draw mod (dim - crop)` keeps the window strictly inside the axis. |
| Augment.CenterOffset | src/caffe/layers/float_data_layer.cpp:77-78 | The centred offset keeps the window inside the axis and splits the slack evenly, any odd element going to the far side. |
| Augment.ItemPlan | src/caffe/layers/float_data_layer.cpp:73-80 | The window fits the record: strictly inside when training, exactly centred otherwise. The item is mirrored only if mirror is on. |
| Augment.PlanUsesOnlyItsDraws | src/caffe/layers/float_data_layer.cpp:73-80 | An item's plan depends on the stream only through its own `DrawsPerItem` consecutive draws: row offset, column offset, then the mirror draw. |
| Augment.DrawWithoutGenerator | src/caffe/layers/float_data_layer.cpp:80 | The cycle draws without the layer having created a generator exactly in evaluation with crop and mirror on. |
| Augment.CropPatchAt | src/caffe/layers/float_data_layer.cpp:82-114 | Element `(c, h, x)` of a crop patch sits at its row-major offset and is the normalized sample at the shifted, possibly mirrored, position. |
| Augment.MirrorReversesWidth | src/caffe/layers/float_data_layer.cpp:82-97 | A mirrored patch holds at `(c, h, x)` what the normal copy holds at `(c, h, crop - 1 - x)`. |
| Augment.WholePatchAt | src/caffe/layers/float_data_layer.cpp:117-119 | Element `j` of an uncropped patch is `(sample[j] - mean[j]) * scale`. |
| Augment.NoCropNormalizes | src/caffe/layers/float_data_layer.cpp:116-122 | Without a crop, element `item * size + j` of the batch is `(sample[j] - mean[j]) * scale` of the record `item` after the cursor, and no draw is taken. |
| Augment.BatchSlot | src/caffe/layers/float_data_layer.cpp:85-87 | The batch has `batch_size` slots of the slot size, and slot `i` holds exactly item `i`'s patch, built from the record `i` after the cursor with its own draws. |
| Augment.NoDrawsIsDeterministic | src/caffe/layers/float_data_layer.cpp:69-80 | A cycle that takes no draws produces the same batch whatever the stream and draw count. |
| Augment.FirstMissing | src/caffe/layers/float_data_layer.cpp:69-70 | The result is the first item within `n` whose record has no samples, or `n` if there is none. |
| Augment.FirstMissingAt | src/caffe/layers/float_data_layer.cpp:69-70 | An item without samples after items that all have them is the first missing one. |
| Augment.MissingIsFirstMissing | src/caffe/layers/float_data_layer.cpp:39-70 | A cycle aborts for missing samples exactly when it passes the mirror and backend checks, crops, and its first item without samples lies inside the batch. |
| Augment.NoErrorHasData | src/caffe/layers/float_data_layer.cpp:69-70 | A cycle without a fatal condition finds full sample buffers in all its records. |
| Layout.TopIndex | src/caffe/layers/float_data_layer.cpp:103-104 | The source's output index is the item's slot start plus the row-major offset of `(c, h, w)` in a crop volume. |
| Layout.TopIndexInSlot | src/caffe/layers/float_data_layer.cpp:85-87 | Every output index of item `item` lies in `[item * slot, (item + 1) * slot)`. |
| Layout.DataIndex | src/caffe/layers/float_data_layer.cpp:105-106 | The source position read for a crop element is always inside the record and the mean. |
| Layout.OffsetInChannel | src/caffe/layers/float_data_layer.cpp:88-89 | The row-major offset of an in-range `(c, h, w)` lies in channel `c`'s block. |
| Layout.SlotInBuffer | src/caffe/layers/float_data_layer.cpp:118 | Slot `item` lies inside a buffer of `count > item` slots, and the next slot starts where it ends. |

## Left out

- Threads: `pthread_create`, the join and the hand-off between producer and consumer are not modelled. A fill cycle is one sequential method call.
- Store APIs: the LevelDB iterator and the LMDB cursor are a cursor index over the record sequence. Their `CHECK`s (iterator valid, `MDB_GET_CURRENT` and `MDB_FIRST` succeed) hold by construction.
- Record decoding: protobuf parsing of `Datum` is not modelled. Records are taken as decoded samples and a label.
- Generator: seeding (`caffe_rng_rand`, `Caffe::RNG`) is not modelled. The body of `PrefetchRand` is not part of this model; it is read as "the next value of the generator's stream".
- Float semantics: `Dtype` rounding and the `static_cast` conversions are not modelled. Values are exact reals, and labels are converted with `as real`.
- Normalization: the copy methods apply the layer's `norm`, which the constructor fixes to `Normalize(scale)`, rather than the literal expression. The lemmas state the expression `(sample - mean) * scale`.
- Integer widths: 32-bit overflow of the `int` index products and the unsigned conversion of `PrefetchRand() % (height - crop_size)` are not modelled. The indices are unbounded naturals.
- Set-up: the layer set-up that fills the shape, mean, buffers and cursor is not in this file. The constructor stands in for it.
- FloatDataLayer.Layer.PrefetchRand: a draw requires a generator. The source draws for the mirror decision in every phase (line 80), but creates a generator only in training (lines 158-167). The model makes that evaluation-with-crop-and-mirror configuration a precondition of the cycle, and `DrawWithoutGenerator` characterizes it. The mirror draw itself keeps the code's lack of a phase check, although mirroring is otherwise described as a training-time augmentation.
- Crop bounds: the training path requires `crop_size < height` and `crop_size < width` (otherwise the modulus is zero), and the evaluation path requires `crop_size <= height, width`. Records with no samples are allowed only when cropping, where the source checks for them.
- FloatDataLayer.Layer.CopyCropRow: the source's two copies of the `c/h/w` nest (mirrored and normal) are modelled as one nest whose output column is computed from the mirror decision. The output position is stepped per channel and row rather than recomputed from the full product; `Layout.TopIndex` relates the two.
- FloatDataLayer.Layer.CopyCrop: states the final contents of the slot and that nothing outside it changes. It does not state that each position is written exactly once.
- FloatDataLayer.Layer.Prefetch: the backend check is made once, before the item loop. The source makes it at every item, but it can only fail at item 0 and the selector never changes. On a missing-samples abort, the writes already made are left unspecified: the contract states the cursor and draw count, not the buffers.
