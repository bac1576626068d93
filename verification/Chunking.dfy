/** Splitting an object into inclusive byte ranges (downloader/downloader.go, splitIntoChunks). */
module Chunking {
  import opened Prelude

  const MAX_INT64: int := 0x7FFF_FFFF_FFFF_FFFF
  const TWO_63: int := 0x8000_0000_0000_0000
  const TWO_64: int := 0x1_0000_0000_0000_0000

  /** The value a 64-bit signed integer holds after an operation whose exact result is x. */
  function Wrap(x: int): (r: int)
    ensures -TWO_63 <= r <= MAX_INT64
    ensures -TWO_63 <= x <= MAX_INT64 ==> r == x
  {
    (x + TWO_63) % TWO_64 - TWO_63
  }

  datatype Chunk = Chunk(index: nat, start: nat, end: int) {
    function Size(): int { end - start + 1 }
  }

  function Count(total: nat, size: nat): nat
    requires size > 0
  {
    (total + size - 1) / size
  }

  function ChunkAt(total: nat, size: nat, i: nat): Chunk
    requires size > 0
  {
    Chunk(i, i * size, Min((i + 1) * size, total) - 1)
  }

  /** The partition the loop is meant to produce. */
  function Split(total: nat, size: nat): (cs: seq<Chunk>)
    requires size > 0
  {
    seq(Count(total, size), i requires 0 <= i => ChunkAt(total, size, i))
  }

  lemma CountBounds(total: nat, size: nat)
    requires size > 0
    ensures total <= Count(total, size) * size < total + size
  {
    var t := total + size - 1;
    assert t == t / size * size + t % size;
  }

  lemma TimesStep(i: nat, size: nat)
    ensures (i + 1) * size == i * size + size
  {
  }

  lemma TimesMonotone(i: nat, j: nat, size: nat)
    requires i <= j
    ensures i * size <= j * size
  {
  }

  lemma TimesReflects(i: nat, j: nat, size: nat)
    requires i * size < j * size
    ensures i < j
  {
    if j <= i { TimesMonotone(j, i, size); }
  }

  /** Every chunk is a non-empty range inside the object, and each starts where the last ended. */
  lemma SplitShape(total: nat, size: nat, i: nat)
    requires size > 0 && i < Count(total, size)
    ensures var c := Split(total, size)[i];
            c.index == i && c.start == i * size && 0 <= c.start <= c.end < total && c.Size() <= size
    ensures Split(total, size)[i].end + 1 ==
              if i + 1 < Count(total, size) then Split(total, size)[i + 1].start else total
  {
    CountBounds(total, size);
    TimesStep(i, size);
    TimesMonotone(i + 1, Count(total, size), size);
    if i + 1 < Count(total, size) {
      TimesStep(i + 1, size);
      TimesMonotone(i + 2, Count(total, size), size);
    } else {
      assert (i + 1) * size == Count(total, size) * size;
    }
    TimesStep(Count(total, size) - 1, size);
  }

  /** Chunks come in order: everything in an earlier chunk lies before a later chunk. */
  lemma {:induction false} SplitOrdered(total: nat, size: nat, i: nat, j: nat)
    requires size > 0 && i < j < Count(total, size)
    ensures Split(total, size)[i].end < Split(total, size)[j].start
    decreases j - i
  {
    SplitShape(total, size, i);
    SplitShape(total, size, i + 1);
    if i + 1 < j {
      SplitOrdered(total, size, i + 1, j);
    }
  }

  ghost predicate Holds(c: Chunk, offset: int) { c.start <= offset <= c.end }

  /** Exactly one chunk holds each offset of the object. */
  lemma SplitCovers(total: nat, size: nat, offset: nat) returns (i: nat)
    requires size > 0 && offset < total
    ensures i < Count(total, size) && Holds(Split(total, size)[i], offset)
    ensures forall j :: 0 <= j < Count(total, size) && Holds(Split(total, size)[j], offset) ==> j == i
  {
    i := offset / size;
    assert offset == i * size + offset % size;
    CountBounds(total, size);
    TimesReflects(i, Count(total, size), size);
    TimesStep(i, size);
    SplitShape(total, size, i);
    forall j | 0 <= j < Count(total, size) && Holds(Split(total, size)[j], offset)
      ensures j == i
    {
      if i < j { SplitOrdered(total, size, i, j); }
      if j < i { SplitOrdered(total, size, j, i); }
    }
  }

  function Sizes(cs: seq<Chunk>): (s: seq<int>)
    ensures |s| == |cs| && forall i :: 0 <= i < |cs| ==> s[i] == cs[i].Size()
  {
    seq(|cs|, i requires 0 <= i < |cs| => cs[i].Size())
  }

  lemma {:induction false} PrefixSizes(total: nat, size: nat, n: nat)
    requires size > 0 && n <= Count(total, size)
    ensures Sum(Sizes(Split(total, size)[..n])) ==
              if n < Count(total, size) then n * size else total
  {
    var cs := Split(total, size);
    if n == 0 {
      CountBounds(total, size);
    } else {
      PrefixSizes(total, size, n - 1);
      SplitShape(total, size, n - 1);
      if n < Count(total, size) { SplitShape(total, size, n); }
      assert Sizes(cs[..n]) == Sizes(cs[..n - 1]) + [cs[n - 1].Size()];
      SumAppend(Sizes(cs[..n - 1]), [cs[n - 1].Size()]);
    }
  }

  /** The lengths add up to the whole object. */
  lemma SplitTotal(total: nat, size: nat)
    requires size > 0
    ensures Sum(Sizes(Split(total, size))) == total
  {
    PrefixSizes(total, size, Count(total, size));
    assert Split(total, size)[..Count(total, size)] == Split(total, size);
  }

  /** No loop variable overflows: the first offset at or past the end still fits in 64 bits. */
  predicate Fits(total: nat, size: nat)
    requires size > 0
  {
    Count(total, size) * size <= MAX_INT64
  }

  /** One round of the loop, with no overflow: where it stands, what it emits and where it goes. */
  lemma RoundFits(total: nat, size: nat, idx: nat)
    requires 1 <= size && Fits(total, size) && idx * size < total
    ensures idx < Count(total, size)
    ensures 0 <= idx * size && (idx + 1) * size == idx * size + size <= MAX_INT64
    ensures Split(total, size)[idx] == Chunk(idx, idx * size, Min(idx * size + size, total) - 1)
  {
    CountBounds(total, size);
    TimesReflects(idx, Count(total, size), size);
    TimesStep(idx, size);
    TimesMonotone(idx + 1, Count(total, size), size);
  }

  /** The loop leaves after Count rounds and not before. */
  lemma LastRound(total: nat, size: nat, idx: nat)
    requires 1 <= size && idx <= Count(total, size) && idx * size >= total
    ensures idx == Count(total, size)
  {
    CountBounds(total, size);
    if idx < Count(total, size) {
      TimesMonotone(idx, Count(total, size) - 1, size);
      TimesStep(Count(total, size) - 1, size);
    }
  }

  method SplitIntoChunks(totalSize: int, chunkSize: int) returns (chunks: seq<Chunk>)
    requires 0 <= totalSize <= MAX_INT64 && 1 <= chunkSize <= MAX_INT64
    requires Fits(totalSize, chunkSize)
    ensures chunks == Split(totalSize, chunkSize)
  {
    chunks := [];
    var idx := 0;
    var offset := 0;
    while offset < totalSize
      invariant 0 <= idx <= Count(totalSize, chunkSize)
      invariant offset == idx * chunkSize
      invariant chunks == Split(totalSize, chunkSize)[..idx]
      decreases Count(totalSize, chunkSize) - idx
    {
      RoundFits(totalSize, chunkSize, idx);
      var end := Wrap(Wrap(offset + chunkSize) - 1);
      if end >= totalSize {
        end := totalSize - 1;
      }
      chunks := chunks + [Chunk(idx, offset, end)];
      idx := idx + 1;
      offset := Wrap(offset + chunkSize);
    }
    LastRound(totalSize, chunkSize, idx);
  }

  /** The loop variable after i rounds, in 64-bit arithmetic. */
  function OffsetAfter(size: nat, i: nat): int
  {
    if i == 0 then 0 else Wrap(OffsetAfter(size, i - 1) + size)
  }

  lemma {:induction false} OffsetExact(size: nat, i: nat)
    requires i * size <= MAX_INT64
    ensures OffsetAfter(size, i) == i * size
  {
    if i > 0 {
      TimesStep(i - 1, size);
      OffsetExact(size, i - 1);
    }
  }

  /**
    The exact condition for the loop to be a partition.  After Count rounds the loop
    leaves when Fits holds; otherwise its variable has gone negative, so it goes on and
    emits a chunk whose start is below zero.
   */
  lemma OverflowBound(total: nat, size: nat)
    requires total <= MAX_INT64 && 1 <= size <= MAX_INT64
    ensures Fits(total, size) <==> OffsetAfter(size, Count(total, size)) >= total
    ensures !Fits(total, size) ==> OffsetAfter(size, Count(total, size)) < 0
    ensures forall i :: 0 <= i < Count(total, size) ==> 0 <= OffsetAfter(size, i) < total
  {
    var n := Count(total, size);
    CountBounds(total, size);
    forall i | 0 <= i < n
      ensures 0 <= OffsetAfter(size, i) < total
    {
      SplitShape(total, size, i);
      OffsetExact(size, i);
    }
    if Fits(total, size) {
      OffsetExact(size, n);
    } else {
      TimesStep(n - 1, size);
      SplitShape(total, size, n - 1);
      OffsetExact(size, n - 1);
      assert TWO_63 <= OffsetAfter(size, n - 1) + size < TWO_64;
    }
  }
}
