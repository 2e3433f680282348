/** What one fill cycle of the float data layer produces, as functions of the
    layer's configuration, the store contents, the cursor and the random
    stream: the crop window and mirror decision of each item, the normalized
    patch it writes, and the whole batch. */
module Augment {
  import opened Arith
  import opened Layout
  import opened RecordCursor

  datatype Phase = Train | Test

  /** The data parameters the fill cycle reads. */
  datatype DataParam = DataParam(
    batchSize: nat,
    cropSize: nat,      // 0 disables cropping
    mirror: bool,
    scale: real,
    backend: Backend)

  /** A decoded record: its raw float samples (possibly absent, i.e. empty)
      and its label. */
  datatype Datum = Datum(floatData: seq<real>, labelValue: int)

  /** How a sample is normalized against the mean at its position. */
  type Normalizer = (real, real) -> real

  /** The layer's normalization: sample minus mean, times the scale. */
  function Normalize(scale: real): Normalizer
  {
    (x, m) => (x - m) * scale
  }

  /** Crop window origin and mirror decision of one batch item. */
  datatype Plan = Plan(hOff: nat, wOff: nat, mirrored: bool)

  /** The conditions under which the fill cycle aborts the process. */
  datatype FatalError = MirrorWithoutCrop | UnknownDatabaseBackend | MissingFloatData

  /** Whether the prefetch thread is given a random generator: only when
      training and some augmentation is enabled. */
  predicate NeedsRand(phase: Phase, p: DataParam)
    ensures NeedsRand(phase, p) ==> phase == Train
    ensures phase == Train ==> (NeedsRand(phase, p) <==> p.mirror || DrawsPerItem(phase, p) > 0)
  {
    phase == Train && (p.mirror || p.cropSize != 0)
  }

  /** Number of random draws the fill cycle takes per item: two offsets when
      cropping in training, one mirror draw when cropping with mirror on. */
  function DrawsPerItem(phase: Phase, p: DataParam): (n: nat)
    ensures n <= 3
    ensures n > 0 <==> p.cropSize > 0 && (phase == Train || p.mirror)
    ensures phase == Train && p.cropSize > 0 ==> n >= 2
  {
    if p.cropSize == 0 then 0
    else (if phase == Train then 2 else 0) + (if p.mirror then 1 else 0)
  }

  /** The crop window fits the record: strictly smaller in training, where
      the offset is a draw modulo the difference; at most as large otherwise. */
  predicate CropFits(phase: Phase, s: Shape, cropSize: nat)
  {
    if phase == Train then cropSize < s.height && cropSize < s.width
    else cropSize <= s.height && cropSize <= s.width
  }

  /** Everything the fill cycle's arithmetic needs besides the records. */
  predicate Ready(phase: Phase, p: DataParam, s: Shape, mean: seq<real>, rng: Option<nat -> nat>)
  {
    |mean| == Size(s)
    && (p.cropSize > 0 ==> CropFits(phase, s, p.cropSize))
    && (DrawsPerItem(phase, p) > 0 ==> rng.Some?)
  }

  datatype Option<T> = None | Some(value: T)

  /** Random crop origin along one axis. */
  function RandomOffset(draw: nat, dim: nat, cropSize: nat): (off: nat)
    requires cropSize < dim
    ensures off + cropSize < dim
  {
    draw % (dim - cropSize)
  }

  /** Centred crop origin along one axis: the slack is split evenly, the odd
      element going to the far side. */
  function CenterOffset(dim: nat, cropSize: nat): (off: nat)
    requires cropSize <= dim
    ensures off + cropSize <= dim
    ensures 2 * off <= dim - cropSize <= 2 * off + 1
  {
    (dim - cropSize) / 2
  }

  /** The crop window and mirror decision of one item whose draws start at
      position `base` of the random stream: in training the row offset, then
      the column offset, then (with mirror on) the mirror draw; otherwise only
      the mirror draw. */
  function ItemPlan(phase: Phase, p: DataParam, s: Shape, rng: Option<nat -> nat>, base: nat): (plan: Plan)
    requires p.cropSize > 0 && CropFits(phase, s, p.cropSize)
    requires DrawsPerItem(phase, p) > 0 ==> rng.Some?
    ensures plan.hOff + p.cropSize <= s.height && plan.wOff + p.cropSize <= s.width
    ensures phase == Train ==> plan.hOff + p.cropSize < s.height && plan.wOff + p.cropSize < s.width
    ensures phase != Train ==> plan.hOff == (s.height - p.cropSize) / 2 && plan.wOff == (s.width - p.cropSize) / 2
    ensures plan.mirrored ==> p.mirror
  {
    var cs := p.cropSize;
    var hOff := if phase == Train then RandomOffset(rng.value(base), s.height, cs) else CenterOffset(s.height, cs);
    var wOff := if phase == Train then RandomOffset(rng.value(base + 1), s.width, cs) else CenterOffset(s.width, cs);
    var mirrorDraw := if phase == Train then base + 2 else base;
    var mirrored := p.mirror && rng.value(mirrorDraw) % 2 != 0;
    Plan(hOff, wOff, mirrored)
  }

  /** The plan depends on the random stream only through the item's own
      `DrawsPerItem` consecutive draws. */
  lemma PlanUsesOnlyItsDraws(phase: Phase, p: DataParam, s: Shape,
                             rng1: Option<nat -> nat>, base1: nat, rng2: Option<nat -> nat>, base2: nat)
    requires p.cropSize > 0 && CropFits(phase, s, p.cropSize)
    requires DrawsPerItem(phase, p) > 0 ==> rng1.Some? && rng2.Some?
    requires forall j :: base1 <= j < base1 + DrawsPerItem(phase, p) ==> rng1.value(j) == rng2.value(j - base1 + base2)
    ensures ItemPlan(phase, p, s, rng1, base1) == ItemPlan(phase, p, s, rng2, base2)
  {
    if phase == Train {
      assert rng1.value(base1) == rng2.value(base2);
      assert rng1.value(base1 + 1) == rng2.value(base2 + 1);
      if p.mirror {
        assert rng1.value(base1 + 2) == rng2.value(base2 + 2);
      }
    } else if p.mirror {
      assert rng1.value(base1) == rng2.value(base2);
    }
  }

  /** The window fits inside the record. */
  predicate PlanFits(s: Shape, cropSize: nat, plan: Plan)
  {
    cropSize > 0 && plan.hOff + cropSize <= s.height && plan.wOff + cropSize <= s.width
  }

  /** The record column that output column `x` of a crop row shows. */
  function SourceColumn(cropSize: nat, mirrored: bool, x: nat): (w: nat)
    requires x < cropSize
    ensures w < cropSize
  {
    if mirrored then cropSize - 1 - x else x
  }

  /** Normalized value at channel `c`, crop row `h`, output column `x`:
      the record sample and the mean at the same uncropped position, normalized. */
  function CropValue(d: Datum, mean: seq<real>, norm: Normalizer, s: Shape, cropSize: nat, plan: Plan,
                     c: nat, h: nat, x: nat): real
    requires |d.floatData| == Size(s) && |mean| == Size(s) && PlanFits(s, cropSize, plan)
    requires c < s.channels && h < cropSize && x < cropSize
  {
    var w := SourceColumn(cropSize, plan.mirrored, x);
    var di := DataIndex(s, c, h, w, plan.hOff, plan.wOff);
    norm(d.floatData[di], mean[di])
  }

  /** One crop row, output columns in order. */
  function CropRow(d: Datum, mean: seq<real>, norm: Normalizer, s: Shape, cropSize: nat, plan: Plan,
                   c: nat, h: nat): (row: seq<real>)
    requires |d.floatData| == Size(s) && |mean| == Size(s) && PlanFits(s, cropSize, plan)
    requires c < s.channels && h < cropSize
    ensures |row| == cropSize
  {
    seq(cropSize, x requires 0 <= x < cropSize => CropValue(d, mean, norm, s, cropSize, plan, c, h, x))
  }

  /** The rows of one channel of the crop window, in order. */
  function CropRows(d: Datum, mean: seq<real>, norm: Normalizer, s: Shape, cropSize: nat, plan: Plan,
                    c: nat): (rows: seq<seq<real>>)
    requires |d.floatData| == Size(s) && |mean| == Size(s) && PlanFits(s, cropSize, plan)
    requires c < s.channels
    ensures |rows| == cropSize
    ensures forall h :: 0 <= h < cropSize ==> rows[h] == CropRow(d, mean, norm, s, cropSize, plan, c, h)
  {
    seq(cropSize, h requires 0 <= h < cropSize => CropRow(d, mean, norm, s, cropSize, plan, c, h))
  }

  /** The channels of the crop window, each flattened row after row. */
  function CropChannels(d: Datum, mean: seq<real>, norm: Normalizer, s: Shape, cropSize: nat, plan: Plan): (chans: seq<seq<real>>)
    requires |d.floatData| == Size(s) && |mean| == Size(s) && PlanFits(s, cropSize, plan)
    ensures |chans| == s.channels
    ensures forall c :: 0 <= c < s.channels ==> chans[c] == Flatten(CropRows(d, mean, norm, s, cropSize, plan, c))
  {
    seq(s.channels, c requires 0 <= c < s.channels => Flatten(CropRows(d, mean, norm, s, cropSize, plan, c)))
  }

  /** Every channel of the crop window holds `cropSize * cropSize` elements. */
  lemma CropChannelsLength(d: Datum, mean: seq<real>, norm: Normalizer, s: Shape, cropSize: nat, plan: Plan)
    requires |d.floatData| == Size(s) && |mean| == Size(s) && PlanFits(s, cropSize, plan)
    ensures forall c :: 0 <= c < s.channels ==> |CropChannels(d, mean, norm, s, cropSize, plan)[c]| == cropSize * cropSize
  {
    forall c | 0 <= c < s.channels
      ensures |CropChannels(d, mean, norm, s, cropSize, plan)[c]| == cropSize * cropSize
    {
      FlattenLength(CropRows(d, mean, norm, s, cropSize, plan, c), cropSize);
    }
  }

  /** The output patch of a cropped item: channel after channel, row after
      row, column after column. */
  function CropPatch(d: Datum, mean: seq<real>, norm: Normalizer, s: Shape, cropSize: nat, plan: Plan): (patch: seq<real>)
    requires |d.floatData| == Size(s) && |mean| == Size(s) && PlanFits(s, cropSize, plan)
    ensures |patch| == s.channels * cropSize * cropSize
  {
    var chans := CropChannels(d, mean, norm, s, cropSize, plan);
    CropChannelsLength(d, mean, norm, s, cropSize, plan);
    FlattenLength(chans, cropSize * cropSize);
    Flatten(chans)
  }

  /** Element `(c, h, x)` of the crop patch sits at its row-major offset. */
  lemma CropPatchAt(d: Datum, mean: seq<real>, norm: Normalizer, s: Shape, cropSize: nat, plan: Plan,
                    c: nat, h: nat, x: nat)
    requires |d.floatData| == Size(s) && |mean| == Size(s) && PlanFits(s, cropSize, plan)
    requires c < s.channels && h < cropSize && x < cropSize
    ensures Offset(c, h, x, cropSize, cropSize) < |CropPatch(d, mean, norm, s, cropSize, plan)|
    ensures CropPatch(d, mean, norm, s, cropSize, plan)[Offset(c, h, x, cropSize, cropSize)]
         == CropValue(d, mean, norm, s, cropSize, plan, c, h, x)
  {
    var rows := CropRows(d, mean, norm, s, cropSize, plan, c);
    FlattenAt(rows, cropSize, h, x);
    assert Flatten(rows)[h * cropSize + x] == CropValue(d, mean, norm, s, cropSize, plan, c, h, x);
    var chans := CropChannels(d, mean, norm, s, cropSize, plan);
    CropChannelsLength(d, mean, norm, s, cropSize, plan);
    MulAddBound(h, cropSize, x, cropSize);
    FlattenAt(chans, cropSize * cropSize, c, h * cropSize + x);
    OffsetSplit(c, h, x, cropSize);
  }

  /** Channel `c` of the crop window, row after row, is the run of the patch
      that starts at `c * cropSize * cropSize`. */
  lemma CropChannelInPatch(d: Datum, mean: seq<real>, norm: Normalizer, s: Shape, cropSize: nat, plan: Plan,
                           c: nat, k: nat)
    requires |d.floatData| == Size(s) && |mean| == Size(s) && PlanFits(s, cropSize, plan)
    requires c < s.channels && k < cropSize * cropSize
    ensures |Flatten(CropRows(d, mean, norm, s, cropSize, plan, c))| == cropSize * cropSize
    ensures c * (cropSize * cropSize) + k < |CropPatch(d, mean, norm, s, cropSize, plan)|
    ensures CropPatch(d, mean, norm, s, cropSize, plan)[c * (cropSize * cropSize) + k]
         == Flatten(CropRows(d, mean, norm, s, cropSize, plan, c))[k]
  {
    var chans := CropChannels(d, mean, norm, s, cropSize, plan);
    CropChannelsLength(d, mean, norm, s, cropSize, plan);
    FlattenAt(chans, cropSize * cropSize, c, k);
  }

  /** The row-major offset in a square crop volume, split at the channel. */
  lemma OffsetSplit(c: nat, h: nat, x: nat, cropSize: nat)
    requires h < cropSize && x < cropSize
    ensures Offset(c, h, x, cropSize, cropSize) == c * (cropSize * cropSize) + (h * cropSize + x)
  {
  }

  /** With mirroring, output column `x` of every crop row holds what the
      unmirrored copy puts at column `cropSize - 1 - x`: the window is
      reversed along the width axis, rows and channels staying in place. */
  lemma MirrorReversesWidth(d: Datum, mean: seq<real>, norm: Normalizer, s: Shape, cropSize: nat, plan: Plan,
                            c: nat, h: nat, x: nat)
    requires |d.floatData| == Size(s) && |mean| == Size(s) && PlanFits(s, cropSize, plan)
    requires plan.mirrored
    requires c < s.channels && h < cropSize && x < cropSize
    ensures Offset(c, h, x, cropSize, cropSize) < |CropPatch(d, mean, norm, s, cropSize, plan)|
    ensures Offset(c, h, cropSize - 1 - x, cropSize, cropSize) < |CropPatch(d, mean, norm, s, cropSize, plan.(mirrored := false))|
    ensures CropPatch(d, mean, norm, s, cropSize, plan)[Offset(c, h, x, cropSize, cropSize)]
         == CropPatch(d, mean, norm, s, cropSize, plan.(mirrored := false))[Offset(c, h, cropSize - 1 - x, cropSize, cropSize)]
  {
    CropPatchAt(d, mean, norm, s, cropSize, plan, c, h, x);
    CropPatchAt(d, mean, norm, s, cropSize, plan.(mirrored := false), c, h, cropSize - 1 - x);
  }

  /** The output of an uncropped item: every sample normalized in place. */
  function WholePatch(d: Datum, mean: seq<real>, norm: Normalizer, s: Shape): (patch: seq<real>)
    requires |d.floatData| == Size(s) && |mean| == Size(s)
    ensures |patch| == Size(s)
  {
    seq(Size(s), j requires 0 <= j < Size(s) => norm(d.floatData[j], mean[j]))
  }

  /** The patch item with record `d` writes, its draws starting at `base`. */
  function ItemPatch(phase: Phase, p: DataParam, s: Shape, mean: seq<real>, norm: Normalizer, rng: Option<nat -> nat>,
                     d: Datum, base: nat): (patch: seq<real>)
    requires Ready(phase, p, s, mean, rng) && |d.floatData| == Size(s)
    ensures |patch| == SlotSize(s, p.cropSize)
  {
    if p.cropSize == 0 then WholePatch(d, mean, norm, s)
    else CropPatch(d, mean, norm, s, p.cropSize, ItemPlan(phase, p, s, rng, base))
  }

  /** Record `i` positions after the cursor, cyclically. */
  function ItemRecord(records: seq<Datum>, cursor: nat, i: nat): Datum
    requires |records| > 0
  {
    records[(cursor + i) % |records|]
  }

  /** Every record carries a full sample buffer, or none when cropping (the
      case the fill cycle rejects). */
  predicate RecordsFit(records: seq<Datum>, s: Shape, cropSize: nat)
  {
    forall j :: 0 <= j < |records| ==>
      |records[j].floatData| == Size(s) || (cropSize > 0 && |records[j].floatData| == 0)
  }

  /** The first `n` items of a batch have their sample buffers. */
  predicate ItemsHaveData(records: seq<Datum>, s: Shape, cursor: nat, n: nat)
    requires |records| > 0
  {
    forall i :: 0 <= i < n ==> |ItemRecord(records, cursor, i).floatData| == Size(s)
  }

  /** Among the first `n` items from `cursor` on, the first whose record has
      no samples, or `n` when every one has them. */
  function FirstMissing(records: seq<Datum>, cursor: nat, n: nat): (k: nat)
    requires |records| > 0
    ensures k <= n
    ensures forall i :: 0 <= i < k ==> |ItemRecord(records, cursor, i).floatData| != 0
    ensures k < n ==> |ItemRecord(records, cursor, k).floatData| == 0
  {
    if n == 0 then 0
    else
      var k := FirstMissing(records, cursor, n - 1);
      if k < n - 1 || |ItemRecord(records, cursor, n - 1).floatData| == 0 then k else n
  }

  /** An item without samples after items that all have them is the first
      one missing. */
  lemma {:induction false} FirstMissingAt(records: seq<Datum>, cursor: nat, n: nat, k: nat)
    requires |records| > 0 && k < n
    requires forall i :: 0 <= i < k ==> |ItemRecord(records, cursor, i).floatData| != 0
    requires |ItemRecord(records, cursor, k).floatData| == 0
    ensures FirstMissing(records, cursor, n) == k
  {
    if n - 1 > k {
      FirstMissingAt(records, cursor, n - 1, k);
    } else {
      var j := FirstMissing(records, cursor, n - 1);
      if j < k {
        assert false;
      }
    }
  }

  /** The fatal condition, if any, that a fill cycle starting at `cursor`
      meets, in the order the cycle checks them. */
  function PrefetchError(p: DataParam, records: seq<Datum>, cursor: nat): (e: Option<FatalError>)
    requires |records| > 0
    ensures e == Some(MirrorWithoutCrop) <==> p.mirror && p.cropSize == 0
    ensures e == Some(UnknownDatabaseBackend)
        <==> !(p.mirror && p.cropSize == 0) && p.batchSize > 0 && p.backend == UnknownBackend
    ensures e.None? <==>
      !(p.mirror && p.cropSize == 0)
      && (p.batchSize == 0
          || (p.backend != UnknownBackend
              && (p.cropSize == 0
                  || forall i :: 0 <= i < p.batchSize ==> |ItemRecord(records, cursor, i).floatData| != 0)))
  {
    if p.mirror && p.cropSize == 0 then Some(MirrorWithoutCrop)
    else if p.batchSize == 0 then None
    else if p.backend == UnknownBackend then Some(UnknownDatabaseBackend)
    else if p.cropSize > 0 && exists i :: 0 <= i < p.batchSize && |ItemRecord(records, cursor, i).floatData| == 0
    then Some(MissingFloatData)
    else None
  }

  /** Past the mirror and backend checks, a cycle that crops fails for a
      record without samples exactly when the first item lacking them lies
      inside the batch. */
  lemma MissingIsFirstMissing(p: DataParam, records: seq<Datum>, cursor: nat)
    requires |records| > 0
    ensures PrefetchError(p, records, cursor) == Some(MissingFloatData)
        <==> !(p.mirror && p.cropSize == 0) && p.batchSize > 0 && p.backend != UnknownBackend
             && p.cropSize > 0 && FirstMissing(records, cursor, p.batchSize) < p.batchSize
  {
    var k := FirstMissing(records, cursor, p.batchSize);
    if k < p.batchSize {
      assert |ItemRecord(records, cursor, k).floatData| == 0;
    }
  }

  /** A cycle without a fatal condition finds the samples of all its records. */
  lemma NoErrorHasData(p: DataParam, s: Shape, records: seq<Datum>, cursor: nat)
    requires |records| > 0 && RecordsFit(records, s, p.cropSize)
    requires PrefetchError(p, records, cursor) == None
    ensures ItemsHaveData(records, s, cursor, p.batchSize)
  {
    forall i | 0 <= i < p.batchSize
      ensures |ItemRecord(records, cursor, i).floatData| == Size(s)
    {
      if p.cropSize > 0 && |ItemRecord(records, cursor, i).floatData| == 0 {
        assert false;
      }
    }
  }

  /** Index in the random stream of the first draw of item `i` of a cycle
      that starts with `drawn` values already taken. */
  function FirstDraw(phase: Phase, p: DataParam, drawn: nat, i: nat): nat
  {
    drawn + i * DrawsPerItem(phase, p)
  }

  /** Each item's draws follow the previous item's. */
  lemma FirstDrawStep(phase: Phase, p: DataParam, drawn: nat, i: nat)
    ensures FirstDraw(phase, p, drawn, i + 1) == FirstDraw(phase, p, drawn, i) + DrawsPerItem(phase, p)
  {
    assert (i + 1) * DrawsPerItem(phase, p) == i * DrawsPerItem(phase, p) + DrawsPerItem(phase, p);
  }

  /** The patches of the first `n` items: item `i` reads the record `i`
      after the cursor and the `DrawsPerItem` draws from `FirstDraw`. */
  function ItemPatches(phase: Phase, p: DataParam, s: Shape, mean: seq<real>, norm: Normalizer, rng: Option<nat -> nat>,
                       records: seq<Datum>, cursor: nat, drawn: nat, n: nat): (patches: seq<seq<real>>)
    requires Ready(phase, p, s, mean, rng) && |records| > 0 && ItemsHaveData(records, s, cursor, n)
    ensures |patches| == n
    ensures forall i :: 0 <= i < n ==> |patches[i]| == SlotSize(s, p.cropSize)
    ensures forall i :: 0 <= i < n ==>
      patches[i] == ItemPatch(phase, p, s, mean, norm, rng, ItemRecord(records, cursor, i), FirstDraw(phase, p, drawn, i))
  {
    seq(n, i requires 0 <= i < n =>
      ItemPatch(phase, p, s, mean, norm, rng, ItemRecord(records, cursor, i), FirstDraw(phase, p, drawn, i)))
  }

  /** The output buffer after a complete fill cycle. */
  function BatchData(phase: Phase, p: DataParam, s: Shape, mean: seq<real>, norm: Normalizer, rng: Option<nat -> nat>,
                     records: seq<Datum>, cursor: nat, drawn: nat): seq<real>
    requires Ready(phase, p, s, mean, rng) && |records| > 0 && ItemsHaveData(records, s, cursor, p.batchSize)
  {
    Flatten(ItemPatches(phase, p, s, mean, norm, rng, records, cursor, drawn, p.batchSize))
  }

  /** The label buffer after a complete fill cycle. */
  function BatchLabels(records: seq<Datum>, cursor: nat, n: nat): (labels: seq<real>)
    requires |records| > 0
    ensures |labels| == n
  {
    seq(n, i requires 0 <= i < n => ItemRecord(records, cursor, i).labelValue as real)
  }

  /** Item `i` owns exactly the slot `[i * L, (i + 1) * L)` of the batch, `L`
      being the slot size, and that slot holds its patch. */
  lemma BatchSlot(phase: Phase, p: DataParam, s: Shape, mean: seq<real>, norm: Normalizer, rng: Option<nat -> nat>,
                  records: seq<Datum>, cursor: nat, drawn: nat, i: nat, k: nat)
    requires Ready(phase, p, s, mean, rng) && |records| > 0 && ItemsHaveData(records, s, cursor, p.batchSize)
    requires i < p.batchSize && k < SlotSize(s, p.cropSize)
    ensures |BatchData(phase, p, s, mean, norm, rng, records, cursor, drawn)| == p.batchSize * SlotSize(s, p.cropSize)
    ensures SlotStart(i, s, p.cropSize) + k < |BatchData(phase, p, s, mean, norm, rng, records, cursor, drawn)|
    ensures BatchData(phase, p, s, mean, norm, rng, records, cursor, drawn)[SlotStart(i, s, p.cropSize) + k]
         == ItemPatch(phase, p, s, mean, norm, rng, ItemRecord(records, cursor, i), FirstDraw(phase, p, drawn, i))[k]
  {
    var patches := ItemPatches(phase, p, s, mean, norm, rng, records, cursor, drawn, p.batchSize);
    FlattenAt(patches, SlotSize(s, p.cropSize), i, k);
    assert patches[i] == ItemPatch(phase, p, s, mean, norm, rng, ItemRecord(records, cursor, i), FirstDraw(phase, p, drawn, i));
  }

  /** Without cropping, element `j` of item `i` is sample `j` of the record
      `i` after the cursor minus mean `j`, times the scale; no random draw is
      taken. */
  lemma NoCropNormalizes(phase: Phase, p: DataParam, s: Shape, mean: seq<real>, rng: Option<nat -> nat>,
                         records: seq<Datum>, cursor: nat, drawn: nat, i: nat, j: nat)
    requires Ready(phase, p, s, mean, rng) && |records| > 0 && ItemsHaveData(records, s, cursor, p.batchSize)
    requires p.cropSize == 0 && i < p.batchSize && j < Size(s)
    ensures DrawsPerItem(phase, p) == 0
    ensures SlotStart(i, s, 0) + j < |BatchData(phase, p, s, mean, Normalize(p.scale), rng, records, cursor, drawn)|
    ensures BatchData(phase, p, s, mean, Normalize(p.scale), rng, records, cursor, drawn)[SlotStart(i, s, 0) + j]
         == (ItemRecord(records, cursor, i).floatData[j] - mean[j]) * p.scale
  {
    BatchSlot(phase, p, s, mean, Normalize(p.scale), rng, records, cursor, drawn, i, j);
    WholePatchAt(phase, p, s, mean, rng, ItemRecord(records, cursor, i), FirstDraw(phase, p, drawn, i), j);
  }

  /** Element `j` of an uncropped item's patch is its sample `j` minus mean
      `j`, times the scale. */
  lemma WholePatchAt(phase: Phase, p: DataParam, s: Shape, mean: seq<real>, rng: Option<nat -> nat>,
                     d: Datum, base: nat, j: nat)
    requires Ready(phase, p, s, mean, rng) && |d.floatData| == Size(s)
    requires p.cropSize == 0 && j < Size(s)
    ensures ItemPatch(phase, p, s, mean, Normalize(p.scale), rng, d, base)[j] == (d.floatData[j] - mean[j]) * p.scale
  {
    assert WholePatch(d, mean, Normalize(p.scale), s)[j] == Normalize(p.scale)(d.floatData[j], mean[j]);
  }

  /** When the cycle takes no draws (no cropping, or evaluation without
      mirror) its output does not depend on the random stream at all. */
  lemma NoDrawsIsDeterministic(phase: Phase, p: DataParam, s: Shape, mean: seq<real>, norm: Normalizer,
                               rng1: Option<nat -> nat>, drawn1: nat, rng2: Option<nat -> nat>, drawn2: nat,
                               records: seq<Datum>, cursor: nat)
    requires DrawsPerItem(phase, p) == 0
    requires Ready(phase, p, s, mean, rng1) && Ready(phase, p, s, mean, rng2)
    requires |records| > 0 && ItemsHaveData(records, s, cursor, p.batchSize)
    ensures BatchData(phase, p, s, mean, norm, rng1, records, cursor, drawn1)
         == BatchData(phase, p, s, mean, norm, rng2, records, cursor, drawn2)
  {
    var ps1 := ItemPatches(phase, p, s, mean, norm, rng1, records, cursor, drawn1, p.batchSize);
    var ps2 := ItemPatches(phase, p, s, mean, norm, rng2, records, cursor, drawn2, p.batchSize);
    forall i | 0 <= i < p.batchSize
      ensures ps1[i] == ps2[i]
    {
      if p.cropSize > 0 {
        PlanUsesOnlyItsDraws(phase, p, s, rng1, drawn1, rng2, drawn2);
      }
    }
    assert ps1 == ps2;
  }

  /** Only one configuration draws from the random stream without the layer
      having created a generator: evaluation with cropping and mirror on. */
  lemma DrawWithoutGenerator(phase: Phase, p: DataParam)
    ensures (DrawsPerItem(phase, p) > 0 && !NeedsRand(phase, p))
        <==> (phase != Train && p.cropSize > 0 && p.mirror)
  {
  }
}
