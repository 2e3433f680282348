/** The float data layer's prefetch state and its fill cycle: one batch of
    records read at a cyclic store cursor, cropped (randomly when training,
    centred otherwise), optionally mirrored, normalized into the layer's
    prefetch buffer, with labels alongside. */
module FloatDataLayer {
  import opened Arith
  import opened Layout
  import opened RecordCursor
  import opened Augment

  /** How a fill cycle ends: complete, or aborting the process. */
  datatype Status = Ok | Fatal(error: FatalError)

  function StatusOf(e: Option<FatalError>): (st: Status)
    ensures st.Ok? <==> e.None?
    ensures e.Some? ==> st.error == e.value
  {
    match e
    case None => Ok
    case Some(err) => Fatal(err)
  }

  class Layer {
    const param: DataParam
    const outputLabels: bool
    /** Shape of every record, fixed at set-up. */
    const shape: Shape
    /** Per-element mean of an uncropped record. */
    const mean: seq<real>
    /** The per-sample normalization, fixed at set-up to the scale's. */
    const norm: Normalizer
    /** The store's records in key order. */
    const records: seq<Datum>
    /** The prefetch data and label buffers, reused by every cycle. */
    const topData: array<real>
    const topLabel: array<real>

    /** Entry of the store the cursor is on. */
    var cursor: nat
    var phase: Phase
    /** The prefetch generator's output stream, when it has one. */
    var rng: Option<nat -> nat>
    /** Number of values taken from the generator so far. */
    var drawn: nat

    ghost predicate Valid()
      reads this
    {
      0 < |records| && cursor < |records|
      && |mean| == Size(shape)
      && RecordsFit(records, shape, param.cropSize)
      && topData != topLabel
      && topData.Length == param.batchSize * SlotSize(shape, param.cropSize)
      && topLabel.Length == param.batchSize
      && norm == Normalize(param.scale)
    }

    /** A layer set up over a non-empty store, cursor on its first record,
        buffers sized for one batch. */
    constructor (param: DataParam, outputLabels: bool, shape: Shape, mean: seq<real>, records: seq<Datum>)
      requires 0 < |records| && |mean| == Size(shape) && RecordsFit(records, shape, param.cropSize)
      ensures Valid() && fresh(topData) && fresh(topLabel)
      ensures this.param == param && this.outputLabels == outputLabels && this.shape == shape
      ensures this.mean == mean && this.records == records && norm == Normalize(param.scale)
      ensures cursor == 0 && rng.None? && drawn == 0
    {
      this.param := param;
      this.outputLabels := outputLabels;
      this.shape := shape;
      this.mean := mean;
      norm := Normalize(param.scale);
      this.records := records;
      topData := new real[param.batchSize * SlotSize(shape, param.cropSize)];
      topLabel := new real[param.batchSize];
      cursor := 0;
      phase := Test;
      rng := None;
      drawn := 0;
    }

    /** Records the phase and gives the prefetch thread a fresh generator,
        whose outputs are `stream`, exactly when the phase and augmentation
        need one; otherwise the generator is dropped. */
    method CreatePrefetchThread(ph: Phase, stream: nat -> nat)
      requires Valid()
      modifies this`phase, this`rng, this`drawn
      ensures Valid()
      ensures phase == ph && drawn == 0
      ensures rng.Some? <==> NeedsRand(ph, param)
      ensures rng.Some? ==> rng.value == stream
    {
      phase := ph;
      if NeedsRand(phase, param) {
        rng := Some(stream);
      } else {
        rng := None;
      }
      drawn := 0;
    }

    /** The generator's next output. */
    method PrefetchRand() returns (r: nat)
      requires rng.Some?
      modifies this`drawn
      ensures r == rng.value(old(drawn)) && drawn == old(drawn) + 1
    {
      r := rng.value(drawn);
      drawn := drawn + 1;
    }

    /** Moves the cursor to the next record, wrapping to the first. */
    method Advance()
      requires Valid() && param.backend != UnknownBackend
      modifies this`cursor
      ensures Valid()
      ensures cursor == (old(cursor) + 1) % |records|
    {
      cursor := Step(param.backend, cursor, |records|);
    }

    /** Writes the normalized crop window of `d` described by `plan` into
        slot `item` of the data buffer, leaving every other slot as it was:
        the channel loop of the copy. */
    method CopyCrop(item: nat, d: Datum, plan: Plan)
      requires |mean| == Size(shape) && |d.floatData| == Size(shape) && PlanFits(shape, param.cropSize, plan)
      requires item < param.batchSize && topData.Length == param.batchSize * SlotSize(shape, param.cropSize)
      modifies topData
      ensures var base, len := SlotStart(item, shape, param.cropSize), SlotSize(shape, param.cropSize);
        var patch := CropPatch(d, mean, norm, shape, param.cropSize, plan);
        base + len <= topData.Length && |patch| == len
        && (forall j :: 0 <= j < len ==> topData[base + j] == patch[j])
        && (forall k :: 0 <= k < topData.Length && !(base <= k < base + len) ==> topData[k] == old(topData[k]))
    {
      var cs := param.cropSize;
      var channels := shape.channels;
      ghost var patch := CropPatch(d, mean, norm, shape, cs, plan);
      ghost var len := SlotSize(shape, cs);
      ghost var base := SlotStart(item, shape, cs);
      ghost var area := cs * cs;
      assert |patch| == len && len == channels * area;
      SlotInBuffer(item, param.batchSize, shape, cs);
      ghost var done := 0;
      var c := 0;
      while c < channels
        invariant c <= channels
        invariant done == c * area && done <= len
        invariant forall j :: 0 <= j < done ==> topData[base + j] == patch[j]
        invariant forall k :: 0 <= k < topData.Length && !(base <= k < base + done) ==> topData[k] == old(topData[k])
      {
        MulMono(c + 1, channels, area);
        assert done + area == (c + 1) * area;
        OffsetSplit(c, 0, 0, cs);
        var chanStart := TopIndex(item, channels, cs, c, 0, 0);
        assert chanStart == base + done;
        CopyCropChannel(chanStart, d, plan, c);
        forall j | done <= j < done + area
          ensures topData[base + j] == patch[j]
        {
          CropChannelInPatch(d, mean, norm, shape, cs, plan, c, j - done);
        }
        done := done + area;
        c := c + 1;
      }
    }

    /** Writes channel `c` of the crop window into the `cropSize * cropSize`
        buffer positions from `chanStart` on, row after row: the row loop of
        the copy. */
    method CopyCropChannel(chanStart: nat, d: Datum, plan: Plan, c: nat)
      requires |mean| == Size(shape) && |d.floatData| == Size(shape)
      requires PlanFits(shape, param.cropSize, plan) && c < shape.channels
      requires chanStart + param.cropSize * param.cropSize <= topData.Length
      modifies topData
      ensures var rows := CropRows(d, mean, norm, shape, param.cropSize, plan, c);
        |Flatten(rows)| == param.cropSize * param.cropSize
        && forall j :: 0 <= j < param.cropSize * param.cropSize ==> topData[chanStart + j] == Flatten(rows)[j]
      ensures forall k :: 0 <= k < topData.Length && !(chanStart <= k < chanStart + param.cropSize * param.cropSize) ==>
        topData[k] == old(topData[k])
    {
      var cs := param.cropSize;
      ghost var rows := CropRows(d, mean, norm, shape, cs, plan, c);
      ghost var area := cs * cs;
      FlattenLength(rows, cs);
      ghost var done := 0;
      var h := 0;
      while h < cs
        invariant h <= cs
        invariant done == h * cs && done <= area
        invariant forall j :: 0 <= j < done ==> topData[chanStart + j] == Flatten(rows)[j]
        invariant forall k :: 0 <= k < topData.Length && !(chanStart <= k < chanStart + done) ==> topData[k] == old(topData[k])
      {
        MulMono(h + 1, cs, cs);
        assert done + cs == (h + 1) * cs;
        var rowStart := chanStart + h * cs;
        CopyCropRow(rowStart, d, plan, c, h);
        forall j | done <= j < done + cs
          ensures topData[chanStart + j] == Flatten(rows)[j]
        {
          FlattenAt(rows, cs, h, j - done);
        }
        done := done + cs;
        h := h + 1;
      }
    }

    /** Writes crop row `h` of channel `c` of the window `plan` into the
        `cropSize` buffer positions from `rowStart` on: the column loop of the
        copy, walking the source row left to right and writing output columns
        left to right, or right to left when mirrored. */
    method CopyCropRow(rowStart: nat, d: Datum, plan: Plan, c: nat, h: nat)
      requires |mean| == Size(shape) && |d.floatData| == Size(shape)
      requires PlanFits(shape, param.cropSize, plan)
      requires c < shape.channels && h < param.cropSize
      requires rowStart + param.cropSize <= topData.Length
      modifies topData
      ensures forall x :: 0 <= x < param.cropSize ==>
        topData[rowStart + x] == CropValue(d, mean, norm, shape, param.cropSize, plan, c, h, x)
      ensures forall k :: 0 <= k < topData.Length && !(rowStart <= k < rowStart + param.cropSize) ==>
        topData[k] == old(topData[k])
    {
      var cs := param.cropSize;
      var w := 0;
      while w < cs
        invariant 0 <= w <= cs
        invariant forall x :: 0 <= x < cs && ColumnDone(cs, plan.mirrored, w, x) ==>
          topData[rowStart + x] == CropValue(d, mean, norm, shape, cs, plan, c, h, x)
        invariant forall k :: 0 <= k < topData.Length && !(rowStart <= k < rowStart + cs) ==> topData[k] == old(topData[k])
      {
        var col := if plan.mirrored then cs - 1 - w else w;
        var dataIndex := DataIndex(shape, c, h, w, plan.hOff, plan.wOff);
        topData[rowStart + col] := norm(d.floatData[dataIndex], mean[dataIndex]);
        assert SourceColumn(cs, plan.mirrored, col) == w;
        w := w + 1;
      }
    }

    /** Writes the whole normalized record `d` into slot `item` of the data
        buffer, leaving every other slot as it was. */
    method CopyWhole(item: nat, d: Datum)
      requires |mean| == Size(shape) && |d.floatData| == Size(shape) && param.cropSize == 0
      requires item < param.batchSize && topData.Length == param.batchSize * Size(shape)
      modifies topData
      ensures var base, patch := SlotStart(item, shape, 0), WholePatch(d, mean, norm, shape);
        base + |patch| <= topData.Length
        && (forall j :: 0 <= j < |patch| ==> topData[base + j] == patch[j])
        && (forall k :: 0 <= k < topData.Length && !(base <= k < base + |patch|) ==> topData[k] == old(topData[k]))
    {
      var size := Size(shape);
      ghost var patch := WholePatch(d, mean, norm, shape);
      var start := SlotStart(item, shape, 0);
      SlotInBuffer(item, param.batchSize, shape, 0);
      var j := 0;
      while j < size
        invariant 0 <= j <= size
        invariant forall i :: 0 <= i < j ==> topData[start + i] == patch[i]
        invariant forall k :: 0 <= k < topData.Length && !(start <= k < start + j) ==> topData[k] == old(topData[k])
      {
        topData[start + j] := norm(d.floatData[j], mean[j]);
        j := j + 1;
      }
    }

    /** The crop window and mirror decision of the next item: random
        offsets (row, then column) when training, centred ones otherwise,
        then a mirror draw when mirror is on; odd draws mirror. */
    method DrawPlan() returns (plan: Plan)
      requires param.cropSize > 0 && CropFits(phase, shape, param.cropSize)
      requires DrawsPerItem(phase, param) > 0 ==> rng.Some?
      modifies this`drawn
      ensures plan == ItemPlan(phase, param, shape, rng, old(drawn))
      ensures drawn == old(drawn) + DrawsPerItem(phase, param)
    {
      var cs := param.cropSize;
      var hOff, wOff;
      if phase == Train {
        var r := PrefetchRand();
        hOff := RandomOffset(r, shape.height, cs);
        r := PrefetchRand();
        wOff := RandomOffset(r, shape.width, cs);
      } else {
        hOff := CenterOffset(shape.height, cs);
        wOff := CenterOffset(shape.width, cs);
      }
      var mirrored := false;
      if param.mirror {
        var r := PrefetchRand();
        mirrored := r % 2 != 0;
      }
      plan := Plan(hOff, wOff, mirrored);
    }

    /** One pass of the fill loop's body for batch item `item`: takes the
        record under the cursor, rejects it when cropping and it has no
        samples, otherwise draws its crop window and mirror decision, writes
        its patch into slot `item` and, when labels are output, its label. */
    method FillItem(item: nat) returns (st: Status)
      requires Valid() && Ready(phase, param, shape, mean, rng) && item < param.batchSize
      modifies this`drawn, topData, topLabel
      ensures Valid()
      ensures st.Ok? || st == Fatal(MissingFloatData)
      ensures st.Ok? <==> param.cropSize == 0 || |records[cursor].floatData| != 0
      ensures st.Ok? ==> |records[cursor].floatData| == Size(shape)
      ensures st.Ok? ==>
        var len := SlotSize(shape, param.cropSize);
        SlotStart(item, shape, param.cropSize) + len <= topData.Length
        && topData[..SlotStart(item, shape, param.cropSize) + len]
           == old(topData[..SlotStart(item, shape, param.cropSize)]) + ItemPatch(phase, param, shape, mean, norm, rng, records[cursor], old(drawn))
        && drawn == old(drawn) + DrawsPerItem(phase, param)
        && topLabel[..] == (if outputLabels then old(topLabel[..])[item := records[cursor].labelValue as real]
                            else old(topLabel[..]))
        && forall k :: SlotStart(item, shape, param.cropSize) + len <= k < topData.Length ==> topData[k] == old(topData[k])
      ensures !st.Ok? ==> drawn == old(drawn) && topData[..] == old(topData[..]) && topLabel[..] == old(topLabel[..])
    {
      var cs := param.cropSize;
      var datum := records[cursor];
      ghost var len := SlotSize(shape, cs);
      ghost var slotStart := SlotStart(item, shape, cs);
      ghost var before := topData[..];
      ghost var base := drawn;
      SlotInBuffer(item, param.batchSize, shape, cs);
      if cs > 0 {
        if |datum.floatData| == 0 {
          return Fatal(MissingFloatData);
        }
        var plan := DrawPlan();
        CopyCrop(item, datum, plan);
      } else {
        CopyWhole(item, datum);
      }
      WriteSlot(topData[..], before, slotStart, ItemPatch(phase, param, shape, mean, norm, rng, datum, base));
      if outputLabels {
        topLabel[item] := datum.labelValue as real;
      }
      st := Ok;
    }

    /** `patches` are the patches of the first `|patches|` items of a fill
        cycle that started with the cursor at `start` and the draw count at
        `base`, in item order. */
    ghost predicate PatchesOf(start: nat, base: nat, patches: seq<seq<real>>)
      requires Ready(phase, param, shape, mean, rng) && |records| > 0
      requires ItemsHaveData(records, shape, start, |patches|)
      reads this`phase, this`rng
    {
      forall i {:trigger ItemPatch(phase, param, shape, mean, norm, rng, ItemRecord(records, start, i), FirstDraw(phase, param, base, i))}
        :: 0 <= i < |patches| ==>
        patches[i] == ItemPatch(phase, param, shape, mean, norm, rng, ItemRecord(records, start, i), FirstDraw(phase, param, base, i))
    }

    /** A state given by its cursor `at`, draw count `taken` and buffer
        contents `data` and `labels` is the one after the first `item` passes
        of a fill cycle that started with the cursor at `start` and the draw
        count at `base`: the cursor is `item` records further on, each item
        has taken its draws, and the first `item` slots and labels hold those
        items, whose patches are `patches`. */
    ghost predicate FilledAt(start: nat, base: nat, item: nat, patches: seq<seq<real>>,
                             at: nat, taken: nat, data: seq<real>, labels: seq<real>)
      requires Ready(phase, param, shape, mean, rng) && |records| > 0
      reads this`phase, this`rng
    {
      item <= param.batchSize
      && at == (start + item) % |records|
      && taken == FirstDraw(phase, param, base, item)
      && ItemsHaveData(records, shape, start, item)
      && (param.cropSize > 0 ==> forall i :: 0 <= i < item ==> |ItemRecord(records, start, i).floatData| != 0)
      && |patches| == item
      && PatchesOf(start, base, patches)
      && SlotStart(item, shape, param.cropSize) <= |data|
      && data[..SlotStart(item, shape, param.cropSize)] == Flatten(patches)
      && (outputLabels ==>
            item <= |labels|
            && forall i :: 0 <= i < item ==> labels[i] == ItemRecord(records, start, i).labelValue as real)
    }

    /** The layer's own state is the one after `item` passes. */
    ghost predicate Filled(start: nat, base: nat, item: nat, patches: seq<seq<real>>)
      requires Valid() && Ready(phase, param, shape, mean, rng)
      reads this, topData, topLabel
    {
      FilledAt(start, base, item, patches, cursor, drawn, topData[..], topLabel[..])
    }

    /** One more pass, which writes the record at the cursor into the next
        slot and label, takes its draws and advances the cursor, extends the
        filled prefix by one item. */
    lemma FilledAtStep(start: nat, base: nat, item: nat, patches: seq<seq<real>>,
                       at: nat, taken: nat, data: seq<real>, labels: seq<real>,
                       at': nat, taken': nat, data': seq<real>, labels': seq<real>)
      requires Ready(phase, param, shape, mean, rng) && |records| > 0 && at < |records|
      requires FilledAt(start, base, item, patches, at, taken, data, labels) && item < param.batchSize
      requires |records[at].floatData| == Size(shape) && (param.cropSize > 0 ==> |records[at].floatData| != 0)
      requires SlotStart(item, shape, param.cropSize) + SlotSize(shape, param.cropSize) <= |data'|
      requires data'[..SlotStart(item, shape, param.cropSize) + SlotSize(shape, param.cropSize)]
            == data[..SlotStart(item, shape, param.cropSize)] + ItemPatch(phase, param, shape, mean, norm, rng, records[at], taken)
      requires taken' == taken + DrawsPerItem(phase, param)
      requires outputLabels ==> item < |labels| && labels' == labels[item := records[at].labelValue as real]
      requires at' == (at + 1) % |records|
      ensures FilledAt(start, base, item + 1, patches + [ItemPatch(phase, param, shape, mean, norm, rng, records[at], taken)],
                       at', taken', data', labels')
    {
      var patch := ItemPatch(phase, param, shape, mean, norm, rng, records[at], taken);
      var longer := patches + [patch];
      assert ItemRecord(records, start, item) == records[at];
      assert ItemsHaveData(records, shape, start, item + 1);
      assert longer[..item] == patches;
      FirstDrawStep(phase, param, base, item);
      SlotInBuffer(item, item + 1, shape, param.cropSize);
      ModStep(at, start, item, |records|);
    }

    /** Once all the batch's items are filled, the buffers hold the batch
        and no fatal condition was met. */
    lemma FilledBatch(start: nat, base: nat, patches: seq<seq<real>>)
      requires Valid() && Ready(phase, param, shape, mean, rng) && Filled(start, base, param.batchSize, patches)
      requires !(param.mirror && param.cropSize == 0) && (param.batchSize > 0 ==> param.backend != UnknownBackend)
      ensures PrefetchError(param, records, start) == None
      ensures ItemsHaveData(records, shape, start, param.batchSize)
      ensures topData[..] == BatchData(phase, param, shape, mean, norm, rng, records, start, base)
      ensures outputLabels ==> topLabel[..] == BatchLabels(records, start, param.batchSize)
      ensures cursor == (start + param.batchSize) % |records|
      ensures drawn == base + param.batchSize * DrawsPerItem(phase, param)
    {
      assert patches == ItemPatches(phase, param, shape, mean, norm, rng, records, start, base, param.batchSize);
      assert topData[..] == topData[..SlotStart(param.batchSize, shape, param.cropSize)];
    }

    /** One pass of the fill loop: the item is filled in, then the cursor
        moves to the next record. */
    method PrefetchItem(ghost start: nat, ghost base: nat, ghost patches: seq<seq<real>>, item: nat)
      returns (st: Status, ghost patches': seq<seq<real>>)
      requires Valid() && Ready(phase, param, shape, mean, rng) && param.backend != UnknownBackend
      requires Filled(start, base, item, patches) && item < param.batchSize
      modifies this`cursor, this`drawn, topData, topLabel
      ensures Valid()
      ensures st.Ok? || st == Fatal(MissingFloatData)
      ensures st.Ok? ==> Filled(start, base, item + 1, patches')
      ensures st.Ok? ==>
        (forall k :: SlotStart(item + 1, shape, param.cropSize) <= k < topData.Length ==> topData[k] == old(topData[k]))
        && forall k :: item + 1 <= k < topLabel.Length ==> topLabel[k] == old(topLabel[k])
      ensures !outputLabels ==> topLabel[..] == old(topLabel[..])
      ensures !st.Ok? ==>
        param.cropSize > 0 && |ItemRecord(records, start, item).floatData| == 0
        && cursor == (start + item) % |records| && drawn == FirstDraw(phase, param, base, item)
        && topData[..] == old(topData[..]) && topLabel[..] == old(topLabel[..])
    {
      ghost var at, taken, data, labels := cursor, drawn, topData[..], topLabel[..];
      st := FillItem(item);
      if !st.Ok? {
        assert ItemRecord(records, start, item) == records[cursor];
        return st, patches;
      }
      patches' := patches + [ItemPatch(phase, param, shape, mean, norm, rng, records[at], taken)];
      Advance();
      FilledAtStep(start, base, item, patches, at, taken, data, labels, cursor, drawn, topData[..], topLabel[..]);
    }

    /** The prefetch fill cycle: fills the data buffer with one batch of
        normalized (cropped, possibly mirrored) items read from the cursor on,
        and the label buffer with their labels, advancing the cursor by one
        record per item, cyclically; or aborts on the first fatal condition. */
    method Prefetch() returns (st: Status)
      requires Valid() && Ready(phase, param, shape, mean, rng)
      modifies this`cursor, this`drawn, topData, topLabel
      ensures Valid()
      ensures st == StatusOf(PrefetchError(param, records, old(cursor)))
      ensures st.Ok? ==>
        ItemsHaveData(records, shape, old(cursor), param.batchSize)
        && topData[..] == BatchData(phase, param, shape, mean, norm, rng, records, old(cursor), old(drawn))
        && topLabel[..] == (if outputLabels then BatchLabels(records, old(cursor), param.batchSize)
                            else old(topLabel[..]))
        && cursor == (old(cursor) + param.batchSize) % |records|
        && drawn == old(drawn) + param.batchSize * DrawsPerItem(phase, param)
      ensures st == Fatal(MirrorWithoutCrop) || st == Fatal(UnknownDatabaseBackend) ==>
        topData[..] == old(topData[..]) && topLabel[..] == old(topLabel[..])
        && cursor == old(cursor) && drawn == old(drawn)
      ensures st == Fatal(MissingFloatData) ==>
        var k := FirstMissing(records, old(cursor), param.batchSize);
        k < param.batchSize && cursor == (old(cursor) + k) % |records| && drawn == FirstDraw(phase, param, old(drawn), k)
    {
      if param.mirror && param.cropSize == 0 {
        return Fatal(MirrorWithoutCrop);
      }
      if param.batchSize > 0 && param.backend == UnknownBackend {
        return Fatal(UnknownDatabaseBackend);
      }
      ghost var start, base := cursor, drawn;
      ghost var stop, patches;
      st, stop, patches := FillBatch();
      if st.Ok? {
        FilledBatch(start, base, patches);
      } else {
        FirstMissingAt(records, start, param.batchSize, stop);
        MissingIsFirstMissing(param, records, start);
      }
    }

    /** The item loop of a cycle that passed the mirror and backend checks:
        items are filled one after the other until the batch is full or a
        record without samples is met. */
    method FillBatch() returns (st: Status, ghost stop: nat, ghost patches: seq<seq<real>>)
      requires Valid() && Ready(phase, param, shape, mean, rng) && !(param.mirror && param.cropSize == 0)
      requires param.batchSize > 0 ==> param.backend != UnknownBackend
      modifies this`cursor, this`drawn, topData, topLabel
      ensures Valid()
      ensures st.Ok? || st == Fatal(MissingFloatData)
      ensures st.Ok? ==> Filled(old(cursor), old(drawn), param.batchSize, patches)
      ensures !outputLabels ==> topLabel[..] == old(topLabel[..])
      ensures st == Fatal(MissingFloatData) ==>
        param.cropSize > 0 && stop < param.batchSize
        && (forall i :: 0 <= i < stop ==> |ItemRecord(records, old(cursor), i).floatData| != 0)
        && |ItemRecord(records, old(cursor), stop).floatData| == 0
        && cursor == (old(cursor) + stop) % |records| && drawn == FirstDraw(phase, param, old(drawn), stop)
    {
      ghost var start, base := cursor, drawn;
      ModSmall(start, |records|);
      patches := [];
      var item := 0;
      while item < param.batchSize
        invariant Valid() && Filled(start, base, item, patches)
        invariant !outputLabels ==> topLabel[..] == old(topLabel[..])
      {
        st, patches := PrefetchItem(start, base, patches, item);
        if !st.Ok? {
          return st, item, patches;
        }
        item := item + 1;
      }
      st, stop := Ok, item;
    }
  }

  /** A slot written in place: the buffer up to the slot's end is what was
      before the slot followed by the slot's new contents. */
  lemma WriteSlot(now: seq<real>, before: seq<real>, base: nat, patch: seq<real>)
    requires |now| == |before| && base + |patch| <= |now|
    requires forall j :: 0 <= j < |patch| ==> now[base + j] == patch[j]
    requires forall k :: 0 <= k < |now| && !(base <= k < base + |patch|) ==> now[k] == before[k]
    ensures now[..base + |patch|] == before[..base] + patch
  {
    assert forall k :: 0 <= k < base + |patch| ==> now[..base + |patch|][k] == (before[..base] + patch)[k] by {
      forall k | 0 <= k < base + |patch|
        ensures now[..base + |patch|][k] == (before[..base] + patch)[k]
      {
        if k >= base {
          assert now[base + (k - base)] == patch[k - base];
        }
      }
    }
  }

  /** Output column `x` of a crop row is written once the column loop has
      passed `w` source columns: left to right, or right to left when mirrored. */
  predicate ColumnDone(cropSize: nat, mirrored: bool, w: nat, x: nat)
  {
    if mirrored then cropSize - w <= x else x < w
  }
}
