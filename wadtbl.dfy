/**
 * Validation of the lump directory embedded in a demo's extra wad
 * (prboom2/src/wadtbl.c, ReadPWADTable). The buffer is a `wadinfo_t`
 * header (4-byte magic, `numlumps`, `infotableofs`, both signed 32-bit
 * little-endian) followed by data, with a directory of 16-byte
 * `filelump_t` entries (`filepos`, `size`, 8-byte name) at `infotableofs`.
 */
module WadTable {

  type byte = x: int | 0 <= x < 256

  const Two32 := 0x1_0000_0000
  const Two31 := 0x8000_0000

  /** sizeof(wadinfo_t) */
  const HeaderSize := 12
  /** sizeof(filelump_t) */
  const LumpSize := 16

  /** The four bytes at `off` read as an unsigned little-endian integer. */
  function Unsigned32At(b: seq<byte>, off: nat): (u: int)
    requires off + 4 <= |b|
    ensures 0 <= u < Two32
  {
    var b0: int, b1: int, b2: int, b3: int := b[off], b[off + 1], b[off + 2], b[off + 3];
    b0 + 0x100 * (b1 + 0x100 * (b2 + 0x100 * b3))
  }

  /** A signed 32-bit little-endian field: what LittleLong yields. */
  function Int32At(b: seq<byte>, off: nat): (v: int)
    requires off + 4 <= |b|
    ensures -Two31 <= v < Two31
  {
    var u := Unsigned32At(b, off);
    if u >= Two31 then u - Two32 else u
  }

  /** The four bytes a signed 32-bit value is stored as on a little-endian host. */
  function Int32Bytes(v: int): (r: seq<byte>)
    requires -Two31 <= v < Two31
    ensures |r| == 4
  {
    var u := v % Two32;
    [u % 0x100, (u / 0x100) % 0x100, (u / 0x1_0000) % 0x100, u / 0x100_0000]
  }

  /** Decoding the stored bytes gives back the value. */
  lemma DecodeEncode(v: int)
    requires -Two31 <= v < Two31
    ensures Int32At(Int32Bytes(v), 0) == v
  {
    var u := v % Two32;
    assert u == if v < 0 then v + Two32 else v;
    var r := Int32Bytes(v);
    assert (u / 0x1_0000) / 0x100 == u / 0x100_0000;
    assert (u / 0x100) / 0x100 == u / 0x1_0000;
    assert r[2] + 0x100 * r[3] == u / 0x1_0000;
    assert r[1] + 0x100 * (u / 0x1_0000) == u / 0x100;
    assert r[0] + 0x100 * (u / 0x100) == u;
  }

  lemma LowByte(lo: int, hi: int)
    requires 0 <= lo < 0x100
    ensures (lo + 0x100 * hi) % 0x100 == lo && (lo + 0x100 * hi) / 0x100 == hi
  {
  }

  /**
   * Storing a field's decoded value gives back the field's own bytes, so the
   * in-place `LittleLong` rewrite of the header leaves the buffer as it was.
   */
  lemma EncodeDecode(b: seq<byte>, off: nat)
    requires off + 4 <= |b|
    ensures Int32Bytes(Int32At(b, off)) == b[off..off + 4]
  {
    var b0: int, b1: int, b2: int, b3: int := b[off], b[off + 1], b[off + 2], b[off + 3];
    var u := Unsigned32At(b, off);
    assert Int32At(b, off) % Two32 == u;
    LowByte(b2, b3);
    LowByte(b1, b2 + 0x100 * b3);
    LowByte(b0, b1 + 0x100 * (b2 + 0x100 * b3));
    assert u / 0x1_0000 == (u / 0x100) / 0x100;
    assert u / 0x100_0000 == (u / 0x1_0000) / 0x100;
  }

  /** "IWAD" or "PWAD" in the first four bytes. */
  predicate IsWadMagic(b: seq<byte>)
    requires |b| >= 4
  {
    b[..4] == [73, 87, 65, 68] || b[..4] == [80, 87, 65, 68]
  }

  /**
   * The directory bound test as written: `length` is the `unsigned int`
   * product numlumps * 16 and the sum with `infotableofs` is taken in
   * `unsigned int`, so both wrap modulo 2^32 before the comparison.
   */
  predicate AsWrittenDirectoryFits(ofs: int, numLumps: int, size: nat) {
    (ofs + LumpSize * numLumps) % Two32 <= size
  }

  /**
   * The bound test the loop needs: the as-written test, and besides it the
   * directory it then walks lies inside the buffer.
   */
  predicate DirectoryFits(ofs: int, numLumps: int, size: nat) {
    AsWrittenDirectoryFits(ofs, numLumps, size)
    && (numLumps > 0 ==> 0 <= ofs && ofs + LumpSize * numLumps <= size)
  }

  /** The per-entry test as written: `filepos + size` is an `int` sum that wraps. */
  predicate AsWrittenLumpInside(filePos: int, lumpSize: int, ofs: int)
    requires -Two31 <= filePos < Two31 && -Two31 <= lumpSize < Two31
  {
    var sum := (filePos + lumpSize + Two31) % Two32 - Two31;
    !(filePos < 0 || filePos > ofs || sum > ofs)
  }

  /** The per-entry test with the exact sum: the lump lies before the directory. */
  predicate LumpInside(filePos: int, lumpSize: int, ofs: int) {
    !(filePos < 0 || filePos > ofs || filePos + lumpSize > ofs)
  }

  /** Offset of directory entry k. */
  function EntryAt(ofs: int, k: int): int {
    ofs + LumpSize * k
  }

  /** Entry k of a directory that fits lies wholly inside the first `size` bytes. */
  lemma EntryInBounds(ofs: int, numLumps: int, size: nat, k: int)
    requires DirectoryFits(ofs, numLumps, size) && 0 <= k < numLumps
    ensures 0 <= EntryAt(ofs, k) && EntryAt(ofs, k) + LumpSize <= size
  {
  }

  /** Directory entry k passes the lump test. */
  predicate EntryInside(b: seq<byte>, ofs: int, numLumps: int, k: int)
    requires DirectoryFits(ofs, numLumps, |b|) && 0 <= k < numLumps
  {
    EntryInBounds(ofs, numLumps, |b|, k);
    LumpInside(Int32At(b, EntryAt(ofs, k)), Int32At(b, EntryAt(ofs, k) + 4), ofs)
  }

  /** Every directory entry k < numLumps passes the lump test. */
  ghost predicate AllLumpsInside(b: seq<byte>, ofs: int, numLumps: int)
    requires DirectoryFits(ofs, numLumps, |b|)
  {
    forall k :: 0 <= k < numLumps ==> EntryInside(b, ofs, numLumps, k)
  }

  /**
   * What ReadPWADTable accepts: more than a header's worth of bytes, a wad
   * magic, a directory inside the buffer, a non-negative lump count (a
   * negative count stops the loop at i = 0 != numlumps) and every entry
   * inside the data area before the directory.
   */
  ghost predicate Accepts(b: seq<byte>) {
    |b| > HeaderSize
    && IsWadMagic(b)
    && var numLumps, ofs := Int32At(b, 4), Int32At(b, 8);
       DirectoryFits(ofs, numLumps, |b|)
       && numLumps >= 0
       && AllLumpsInside(b, ofs, numLumps)
  }

  /** Writes the four little-endian bytes of v at buffer[off..off + 4]. */
  method StoreInt32(buffer: array<byte>, off: nat, v: int)
    requires off + 4 <= buffer.Length
    requires -Two31 <= v < Two31
    modifies buffer
    ensures buffer[..] == old(buffer[..off]) + Int32Bytes(v) + old(buffer[off + 4..])
  {
    var r := Int32Bytes(v);
    buffer[off] := r[0];
    buffer[off + 1] := r[1];
    buffer[off + 2] := r[2];
    buffer[off + 3] := r[3];
    assert buffer[..] == old(buffer[..off]) + r + old(buffer[off + 4..]);
  }

  /**
   * The two `LittleLong` assignments of the header fields: each field is
   * replaced by its decoded value, which on a little-endian host stores the
   * same bytes again.
   */
  method SwapHeader(buffer: array<byte>) returns (numLumps: int, ofs: int)
    requires buffer.Length > HeaderSize
    modifies buffer
    ensures numLumps == Int32At(old(buffer[..]), 4)
    ensures ofs == Int32At(old(buffer[..]), 8)
    ensures buffer[..] == old(buffer[..])
  {
    numLumps := Int32At(buffer[..], 4);
    EncodeDecode(buffer[..], 4);
    StoreInt32(buffer, 4, numLumps);
    assert buffer[..] == old(buffer[..]);
    ofs := Int32At(buffer[..], 8);
    EncodeDecode(buffer[..], 8);
    StoreInt32(buffer, 8, ofs);
  }

  /**
   * The directory loop: walks the entries until one fails the lump test and
   * returns the index it stopped at, numLumps exactly when every entry
   * passes (a negative count stops at once, at 0).
   */
  method CheckEntries(b: seq<byte>, ofs: int, numLumps: int) returns (i: int)
    requires DirectoryFits(ofs, numLumps, |b|)
    ensures i == numLumps <==> numLumps >= 0 && AllLumpsInside(b, ofs, numLumps)
  {
    i := 0;
    while i < numLumps
      invariant 0 <= i && (i <= numLumps || i == 0)
      invariant forall k :: 0 <= k < i ==> EntryInside(b, ofs, numLumps, k)
    {
      EntryInBounds(ofs, numLumps, |b|, i);
      var entry := EntryAt(ofs, i);
      var filePos := Int32At(b, entry);
      var lumpSize := Int32At(b, entry + 4);
      if filePos < 0 || filePos > ofs || filePos + lumpSize > ofs {
        assert !EntryInside(b, ofs, numLumps, i);
        return;
      }
      i := i + 1;
    }
  }

  /**
   * ReadPWADTable on a little-endian host. `size` is the number of valid
   * bytes; the header is the buffer itself when accepted, null otherwise.
   * The header fields are rewritten in place with their decoded values,
   * which leaves every byte as it was.
   */
  method ReadPWADTable(buffer: array?<byte>, size: nat) returns (header: array?<byte>)
    requires buffer != null ==> size <= buffer.Length
    modifies buffer
    ensures header == null || header == buffer
    ensures header != null <==> buffer != null && Accepts(old(buffer[..size]))
    ensures buffer != null ==> buffer[..] == old(buffer[..])
  {
    header := null;
    if buffer == null || size <= HeaderSize {
      return;
    }
    ghost var b := buffer[..size];
    assert buffer[..][..4] == b[..4];
    if !IsWadMagic(buffer[..]) {
      return;
    }
    var numLumps, ofs := SwapHeader(buffer);
    assert buffer[..size] == b;
    assert numLumps == Int32At(b, 4) && ofs == Int32At(b, 8);
    if !DirectoryFits(ofs, numLumps, size) {
      return;
    }
    var i := CheckEntries(buffer[..size], ofs, numLumps);
    if i == numLumps {
      header := buffer;
    }
  }

  // The two 32-bit wrap-arounds of the source, each exhibited on an input
  // whose lump directory or lump does not lie where the tests claim.

  /**
   * numlumps = 0x1000_0000 makes `length` wrap to 0: the as-written test
   * passes for a 13-byte buffer although the directory would need 2^32
   * bytes after offset 12; a negative `infotableofs` wraps the same way.
   */
  lemma DirectoryWrapAdmitsOutside()
    ensures AsWrittenDirectoryFits(12, 0x1000_0000, 13)
    ensures !DirectoryFits(12, 0x1000_0000, 13)
    ensures AsWrittenDirectoryFits(-16, 1, 13) && !DirectoryFits(-16, 1, 13)
  {
  }

  /**
   * The corrected directory test admits exactly the inputs the as-written
   * test admits whose directory lies inside the buffer, so it only rejects
   * inputs on which the source would read outside it.
   */
  lemma DirectoryFitsMeaning(ofs: int, numLumps: int, size: nat)
    ensures DirectoryFits(ofs, numLumps, size) ==> AsWrittenDirectoryFits(ofs, numLumps, size)
    ensures numLumps > 0 && DirectoryFits(ofs, numLumps, size) ==>
              forall k :: 0 <= k < numLumps ==>
                0 <= EntryAt(ofs, k) && EntryAt(ofs, k) + LumpSize <= size
    ensures AsWrittenDirectoryFits(ofs, numLumps, size) && !DirectoryFits(ofs, numLumps, size) ==>
              numLumps > 0 && (ofs < 0 || ofs + LumpSize * numLumps > size)
  {
  }

  /**
   * filepos = 1, size = 0x7fff_ffff: the `int` sum wraps to -2^31, so the
   * as-written test accepts a lump that ends 2^31 bytes past the directory.
   */
  lemma LumpWrapAdmitsOutside()
    ensures AsWrittenLumpInside(1, 0x7fff_ffff, 12)
    ensures !LumpInside(1, 0x7fff_ffff, 12)
  {
  }

  /**
   * The exact test accepts a lump exactly when it starts and ends inside
   * [0, ofs], and agrees with the as-written test whenever the sum does
   * not overflow.
   */
  lemma LumpInsideMeaning(filePos: int, lumpSize: int, ofs: int)
    requires -Two31 <= filePos < Two31 && -Two31 <= lumpSize < Two31
    ensures LumpInside(filePos, lumpSize, ofs) <==>
              0 <= filePos <= ofs && filePos + lumpSize <= ofs
    ensures -Two31 <= filePos + lumpSize < Two31 ==>
              (AsWrittenLumpInside(filePos, lumpSize, ofs) <==> LumpInside(filePos, lumpSize, ofs))
  {
  }
}
