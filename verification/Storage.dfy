/**
  Files and positioned writes (downloader/writer.go).

  A file's bytes are a sequence; Overlay gives the bytes after a pwrite.  Bytes
  past the end are filled with zeros up to the write, as POSIX files do.
 */
module Storage {
  import opened Prelude

  type Bytes = seq<byte>

  function Zeros(n: nat): (z: Bytes)
    ensures |z| == n && forall i :: 0 <= i < n ==> z[i] == 0
  {
    seq(n, _ => 0)
  }

  /** The bytes of a file after writing p at offset off. */
  function Overlay(f: Bytes, off: nat, p: Bytes): Bytes
  {
    if p == [] then f
    else
      var padded := f + Zeros(Max(0, off + |p| - |f|));
      padded[..off] + p + padded[off + |p|..]
  }

  /** A write changes the bytes it covers, and no other byte the file had. */
  lemma OverlayEffect(f: Bytes, off: nat, p: Bytes)
    ensures |Overlay(f, off, p)| == if p == [] then |f| else Max(|f|, off + |p|)
    ensures forall i :: 0 <= i < |Overlay(f, off, p)| ==>
              Overlay(f, off, p)[i] ==
                if off <= i < off + |p| then p[i - off]
                else if i < |f| then f[i] else 0
  {
  }

  /** Two writes, the second starting where the first ended, are one write of both buffers. */
  lemma OverlayJoins(f: Bytes, off: nat, p: Bytes, q: Bytes)
    ensures Overlay(Overlay(f, off, p), off + |p|, q) == Overlay(f, off, p + q)
  {
    var g := Overlay(f, off, p);
    var h, k := Overlay(g, off + |p|, q), Overlay(f, off, p + q);
    if p == [] {
      assert p + q == q;
    } else if q == [] {
      assert p + q == p;
    } else {
      OverlayEffect(f, off, p);
      OverlayEffect(g, off + |p|, q);
      OverlayEffect(f, off, p + q);
      assert |h| == |k|;
      assert forall i :: 0 <= i < |h| ==> h[i] == k[i];
    }
  }

  /** Writes to disjoint ranges commute when both stay inside the file. */
  lemma OverlayCommutes(f: Bytes, a: nat, p: Bytes, b: nat, q: Bytes)
    requires a + |p| <= b || b + |q| <= a
    requires a + |p| <= |f| && b + |q| <= |f|
    ensures Overlay(Overlay(f, a, p), b, q) == Overlay(Overlay(f, b, q), a, p)
  {
    OverlayEffect(f, a, p);
    OverlayEffect(f, b, q);
    OverlayEffect(Overlay(f, a, p), b, q);
    OverlayEffect(Overlay(f, b, q), a, p);
  }

  /** An open file.  WriteAt stops early with an error when the disk takes no more bytes. */
  class File {
    var bytes: Bytes
    var room: nat               // how many more bytes the disk takes

    constructor (size: nat, room: nat)
      ensures bytes == Zeros(size) && this.room == room
    {
      bytes, this.room := Zeros(size), room;
    }

    method WriteAt(p: Bytes, off: nat) returns (n: nat, err: bool)
      modifies this
      ensures n == Min(|p|, old(room)) && room == old(room) - n && (err <==> n < |p|)
      ensures bytes == Overlay(old(bytes), off, p[..n])
    {
      n := if |p| <= room then |p| else room;
      err := n < |p|;
      bytes, room := Overlay(bytes, off, p[..n]), room - n;
    }
  }

  /** How the operating system answers the calls that make a file of a given size. */
  datatype Opening = Opened | NotOpened | NotSized

  /** preallocateFile: open and truncate, then give the file its size.  If the first fails everything
      stays as it was, if the second fails an empty file is left. */
  method PreallocateFile(f: File, size: nat, how: Opening) returns (created: bool, err: bool)
    modifies f`bytes
    ensures err == !how.Opened? && created == !how.NotOpened?
    ensures !err ==> f.bytes == Zeros(size)
    ensures err ==> f.bytes == if created then [] else old(f.bytes)
  {
    if how.NotOpened? {
      return false, true;
    }
    f.bytes := [];
    if how.NotSized? {
      return true, true;
    }
    f.bytes := Zeros(size);
    return true, false;
  }

  /** Writes sequentially into one file from a starting offset; Data is what it wrote so far. */
  class SectionWriter {
    const file: File
    var offset: nat
    const initOff: nat
    ghost var base: Bytes
    ghost var data: Bytes

    /** The writer has moved by exactly what it wrote, and if nobody else touched the file
        since, the file is the base with the data laid at the starting offset. */
    ghost predicate Valid()
      reads this
    {
      offset == initOff + |data|
    }

    constructor (f: File, off: nat)
      ensures Valid() && file == f && initOff == off && offset == off
      ensures base == f.bytes && data == []
    {
      file, offset, initOff := f, off, off;
      base, data := f.bytes, [];
    }

    method Write(p: Bytes) returns (n: nat, err: bool)
      requires Valid()
      modifies this`offset, this`data, file
      ensures Valid() && n == Min(|p|, old(file.room)) && file.room == old(file.room) - n && (err <==> n < |p|)
      ensures offset == old(offset) + n && data == old(data) + p[..n]
      ensures file.bytes == Overlay(old(file.bytes), old(offset), p[..n])
      ensures old(file.bytes == Overlay(base, initOff, data)) ==> file.bytes == Overlay(base, initOff, data)
    {
      OverlayJoins(base, initOff, data, []);
      n, err := file.WriteAt(p, offset);
      OverlayJoins(base, initOff, data, p[..n]);
      offset := offset + n;
      data := data + p[..n];
    }

    function Written(): (n: int)
      requires Valid()
      reads this
      ensures n == |data|
    {
      offset - initOff
    }
  }
}
