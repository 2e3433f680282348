/** Memory layout of records and of the prefetch buffer: every volume is stored
    flat in channel, row, column order, and a batch is its items' slots one
    after the other. */
module Layout {
  import opened Arith

  /** The per-record shape the layer was set up with (its datum channels,
      height and width). */
  datatype Shape = Shape(channels: nat, height: nat, width: nat)

  /** Number of elements of one uncropped record. */
  function Size(s: Shape): nat
  {
    s.channels * s.height * s.width
  }

  /** Number of output elements one batch item occupies: a crop window per
      channel when cropping, the whole record otherwise. */
  function SlotSize(s: Shape, cropSize: nat): nat
  {
    if cropSize == 0 then Size(s) else s.channels * cropSize * cropSize
  }

  /** Position in the output buffer where the slot of batch item `item` starts. */
  function SlotStart(item: nat, s: Shape, cropSize: nat): nat
  {
    item * SlotSize(s, cropSize)
  }

  /** Slot `item` of a buffer of `count` slots lies inside the buffer, and the
      next slot starts where it ends. */
  lemma SlotInBuffer(item: nat, count: nat, s: Shape, cropSize: nat)
    requires item < count
    ensures SlotStart(item, s, cropSize) + SlotSize(s, cropSize) <= count * SlotSize(s, cropSize)
    ensures SlotStart(item + 1, s, cropSize) == SlotStart(item, s, cropSize) + SlotSize(s, cropSize)
  {
    var len := SlotSize(s, cropSize);
    MulMono(item + 1, count, len);
    assert (item + 1) * len == item * len + len;
  }

  /** Row-major offset of `(c, h, w)` in a volume of `hdim` rows of `wdim`
      columns per channel. */
  function Offset(c: nat, h: nat, w: nat, hdim: nat, wdim: nat): nat
  {
    (c * hdim + h) * wdim + w
  }

  /** The offset of an in-range `(c, h, w)` falls inside channel `c`'s block. */
  lemma OffsetInChannel(c: nat, h: nat, w: nat, hdim: nat, wdim: nat)
    requires h < hdim && w < wdim
    ensures c * (hdim * wdim) <= Offset(c, h, w, hdim, wdim) < (c + 1) * (hdim * wdim)
  {
    MulAddBound(h, wdim, w, hdim);
    assert (c * hdim + h) * wdim + w == c * (hdim * wdim) + (h * wdim + w);
  }

  /** Position in the output buffer that batch item `item` writes for channel
      `c`, crop row `h` and crop column `w`: the start of that item's slot
      plus the row-major offset of `(c, h, w)` in a crop volume. */
  function TopIndex(item: nat, channels: nat, cropSize: nat, c: nat, h: nat, w: nat): (r: nat)
    ensures r == item * (channels * cropSize * cropSize) + Offset(c, h, w, cropSize, cropSize)
  {
    TopIndexSplit(item, channels, cropSize, c, h, w);
    ((item * channels + c) * cropSize + h) * cropSize + w
  }

  /** Item `item` writes only inside its own slot. */
  lemma TopIndexInSlot(item: nat, channels: nat, cropSize: nat, c: nat, h: nat, w: nat)
    requires c < channels && h < cropSize && w < cropSize
    ensures var slot := channels * cropSize * cropSize;
      item * slot <= TopIndex(item, channels, cropSize, c, h, w) < (item + 1) * slot
  {
    var slot := channels * cropSize * cropSize;
    OffsetInChannel(c, h, w, cropSize, cropSize);
    MulMono(c + 1, channels, cropSize * cropSize);
    assert channels * (cropSize * cropSize) == slot;
    assert item * slot + slot == (item + 1) * slot;
  }

  /** The source's nested product splits into the item's slot start plus the
      offset inside the slot. */
  lemma TopIndexSplit(item: nat, channels: nat, cropSize: nat, c: nat, h: nat, w: nat)
    ensures ((item * channels + c) * cropSize + h) * cropSize + w
         == item * (channels * cropSize * cropSize) + ((c * cropSize + h) * cropSize + w)
  {
    var x := item * channels;
    assert (x + c) * cropSize == x * cropSize + c * cropSize;
    assert (x * cropSize + (c * cropSize + h)) * cropSize
        == x * cropSize * cropSize + (c * cropSize + h) * cropSize;
    assert x * cropSize * cropSize == item * (channels * cropSize * cropSize);
  }

  /** Position in an uncropped record (and in the mean) that crop element
      `(c, h, w)` reads when the window starts at row `hOff`, column `wOff`;
      it always lies inside the record. */
  function DataIndex(s: Shape, c: nat, h: nat, w: nat, hOff: nat, wOff: nat): (r: nat)
    requires c < s.channels && h + hOff < s.height && w + wOff < s.width
    ensures r < Size(s)
  {
    OffsetInChannel(c, h + hOff, w + wOff, s.height, s.width);
    MulMono(c + 1, s.channels, s.height * s.width);
    (c * s.height + h + hOff) * s.width + w + wOff
  }

  /** Concatenation of a sequence of blocks, the last block last. */
  function Flatten<T>(blocks: seq<seq<T>>): seq<T>
  {
    if |blocks| == 0 then [] else Flatten(blocks[..|blocks| - 1]) + blocks[|blocks| - 1]
  }

  /** Blocks of a common length `len` flatten to `|blocks| * len` elements. */
  lemma {:induction false} FlattenLength<T>(blocks: seq<seq<T>>, len: nat)
    requires forall i :: 0 <= i < |blocks| ==> |blocks[i]| == len
    ensures |Flatten(blocks)| == |blocks| * len
  {
    if |blocks| > 0 {
      FlattenLength(blocks[..|blocks| - 1], len);
    }
  }

  /** Element `k` of block `i` sits at `i * len + k` of the flattened blocks. */
  lemma {:induction false} FlattenAt<T>(blocks: seq<seq<T>>, len: nat, i: nat, k: nat)
    requires forall j :: 0 <= j < |blocks| ==> |blocks[j]| == len
    requires i < |blocks| && k < len
    ensures |Flatten(blocks)| == |blocks| * len
    ensures i * len + k < |Flatten(blocks)| && Flatten(blocks)[i * len + k] == blocks[i][k]
  {
    FlattenLength(blocks, len);
    var init := blocks[..|blocks| - 1];
    FlattenLength(init, len);
    if i < |blocks| - 1 {
      FlattenAt(init, len, i, k);
      MulAddBound(i, len, k, |blocks| - 1);
    } else {
      assert |Flatten(init)| == i * len;
    }
  }
}
