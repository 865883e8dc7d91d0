/**
 Reading a byte range of a blob that arrives in chunks. Positions are unsigned
 64-bit numbers and additions saturate.
 */
module BlobRange {
  type Byte = bv8

  const MAX_U64: nat := 0xFFFF_FFFF_FFFF_FFFF

  newtype U64 = x: int | 0 <= x <= 0xFFFF_FFFF_FFFF_FFFF

  function SaturatingAdd(a: nat, b: nat): nat { if a + b > MAX_U64 then MAX_U64 else a + b }

  function SaturatingSub(a: nat, b: nat): nat { if a < b then 0 else a - b }

  function Min(a: nat, b: nat): nat { if a < b then a else b }

  function Whole(chunks: seq<seq<Byte>>): seq<Byte> {
    if |chunks| == 0 then [] else Whole(chunks[..|chunks| - 1]) + chunks[|chunks| - 1]
  }

  /** The bytes of `blob` from `from` up to `to`, as far as there are any. */
  function Window(blob: seq<Byte>, from: nat, to: nat): seq<Byte> {
    if from <= to then blob[Min(from, |blob|)..Min(to, |blob|)] else []
  }

  lemma {:induction false} WholeGrows(chunks: seq<seq<Byte>>, i: nat)
    requires i <= |chunks|
    ensures Whole(chunks[..i]) <= Whole(chunks)
    decreases |chunks| - i
  {
    if i < |chunks| {
      assert chunks[..i + 1][..i] == chunks[..i];
      WholeGrows(chunks, i + 1);
    } else {
      assert chunks[..i] == chunks;
    }
  }

  /** A window that ends inside a prefix does not see what follows. */
  lemma WindowOfPrefix(blob: seq<Byte>, prefix: seq<Byte>, from: nat, to: nat)
    requires prefix <= blob && from <= to <= |prefix|
    ensures Window(prefix, from, to) == Window(blob, from, to)
  {
  }

  /** What one more chunk adds to the window. */
  lemma WindowGrows(before: seq<Byte>, chunk: seq<Byte>, from: nat, to: nat)
    requires from < to
    ensures var start, stop := |before|, |before| + |chunk|;
            Window(before + chunk, from, to) ==
              Window(before, from, to) +
              (if stop > from && start < to then chunk[SaturatingSub(from, start)..SaturatingSub(Min(to, stop), start)] else [])
  {
    var all := before + chunk;
    var start, stop := |before|, |before| + |chunk|;
    if stop > from && start < to {
      assert all[Min(from, stop)..Min(to, stop)] == before[Min(from, start)..] + chunk[SaturatingSub(from,
          start)..SaturatingSub(Min(to, stop), start)];
      assert Window(before, from, to) == before[Min(from, start)..];
    } else if stop <= from {
      assert Window(all, from, to) == [] && Window(before, from, to) == [];
    } else {
      assert Window(all, from, to) == Window(before, from, to);
    }
  }

  /**
   Whatever the chunking, the page is exactly the slice from the offset to the
   saturated end, and every chunk index is in bounds.
   */
  method GetRange(chunks: seq<seq<Byte>>, offset: U64, limit: U64) returns (page: seq<Byte>)
    requires |Whole(chunks)| <= MAX_U64
    ensures page == Window(Whole(chunks), offset as nat, SaturatingAdd(offset as nat, limit as nat))
  {
    page := [];
    if limit == 0 {
      return;
    }
    var position: nat := 0;
    var end := SaturatingAdd(offset as nat, limit as nat);
    if end == offset as nat {
      AtTheEnd(Whole(chunks), end);
    }
    var i := 0;
    while i < |chunks|
      invariant 0 <= i <= |chunks| && position == |Whole(chunks[..i])|
      invariant page == Window(Whole(chunks[..i]), offset as nat, end)
    {
      var chunk := chunks[i];
      assert chunks[..i + 1][..i] == chunks[..i];
      WholeGrows(chunks, i + 1);
      var chunkStart := position;
      var chunkEnd := SaturatingAdd(position, |chunk|);
      if offset as nat < end {
        WindowGrows(Whole(chunks[..i]), chunk, offset as nat, end);
      }
      if chunkEnd > offset as nat && chunkStart < end {
        var sliceStart := SaturatingSub(offset as nat, chunkStart);
        var sliceEnd := SaturatingSub(Min(end, chunkEnd), chunkStart);
        page := page + chunk[sliceStart..sliceEnd];
      }
      position := chunkEnd;
      i := i + 1;
      if position >= end {
        WindowOfPrefix(Whole(chunks), Whole(chunks[..i]), offset as nat, end);
        return;
      }
    }
    assert chunks[..i] == chunks;
  }

  /** An offset at the largest position leaves nothing to read. */
  lemma AtTheEnd(blob: seq<Byte>, end: nat)
    requires |blob| <= MAX_U64
    ensures Window(blob, end, end) == []
  {
  }

  // ----- paging -----

  /** The first `n` pages of `size` bytes, one after the other. */
  function Pages(blob: seq<Byte>, size: nat, n: nat): seq<Byte> {
    if n == 0 then [] else Pages(blob, size, n - 1) + Window(blob, (n - 1) * size, SaturatingAdd((n - 1) * size, size))
  }

  /** Consecutive pages put the blob back together. */
  lemma {:induction false} PagesRebuild(blob: seq<Byte>, size: nat, n: nat)
    requires 0 < size && |blob| <= MAX_U64 && (n > 0 ==> (n - 1) * size <= MAX_U64)
    ensures Pages(blob, size, n) == blob[..Min(n * size, |blob|)]
    ensures n * size >= |blob| ==> Pages(blob, size, n) == blob
  {
    if n > 0 {
      var from := (n - 1) * size;
      assert n * size == from + size;
      assert n > 1 ==> (n - 2) * size <= from by { if n > 1 { assert (n - 1) * size == (n - 2) * size + size; } }
      PagesRebuild(blob, size, n - 1);
      assert blob[..Min(n * size, |blob|)] == blob[..Min(from, |blob|)] + Window(blob, from, SaturatingAdd(from, size));
    }
  }
}
