/**
 * The fixed-capacity texture container of src/lib.rs. A nutexb file is a
 * payload of `width * height * 4` RGBA bytes followed by a footer of 0xb0
 * bytes. The host always hands over a buffer of MAX_FILE_SIZE bytes and is
 * always told that MAX_FILE_SIZE bytes were written, so after writing a
 * smaller file the packer copies that file's footer to the last 0xb0 bytes
 * of the buffer, where the reader of a maximum-size file looks for it.
 */
module Packer {
  import opened Common

  const MAX_HEIGHT: nat := 1024
  const MAX_WIDTH: nat := 1024
  /** Payload bytes of a 1024x1024 RGBA texture. */
  const MAX_DATA_SIZE: nat := MAX_HEIGHT * MAX_WIDTH * 4
  /** Size of the nutexb footer that trails the payload. */
  const FOOTER_SIZE: nat := 0xb0
  /** Capacity of every texture buffer the host supplies. */
  const MAX_FILE_SIZE: nat := MAX_DATA_SIZE + FOOTER_SIZE

  /**
   * The sizes for which the relocation does not panic: a full-size file is
   * left alone; any other size must hold a whole footer (`real_size - 0xb0`
   * does not underflow) and end inside the lower part of the split
   * (`from[start_of_header..real_size]` is in bounds).
   */
  predicate Relocatable(realSize: nat)
  {
    realSize == MAX_FILE_SIZE || FOOTER_SIZE <= realSize <= MAX_DATA_SIZE
  }

  /**
   * The size of the nutexb file for a `width` x `height` RGBA image: it always
   * holds a footer, and a full 1024x1024 image fills the buffer exactly.
   */
  function TextureRealSize(width: nat, height: nat): (r: nat)
    ensures r >= FOOTER_SIZE
    ensures width == MAX_WIDTH && height == MAX_HEIGHT ==> r == MAX_FILE_SIZE
  {
    height * width * 4 + FOOTER_SIZE
  }

  lemma MulBound(a: nat, b: nat, c: nat, d: nat)
    requires a <= c && b <= d
    ensures a * b <= c * d
  {
  }

  /**
   * Every image within the 1024x1024 bound yields a file size the relocation
   * accepts, and only the full 1024x1024 image fills the buffer exactly.
   */
  lemma BoundedTextureRelocatable(width: nat, height: nat)
    requires width <= MAX_WIDTH && height <= MAX_HEIGHT
    ensures Relocatable(TextureRealSize(width, height))
    ensures TextureRealSize(width, height) == MAX_FILE_SIZE <==> width == MAX_WIDTH && height == MAX_HEIGHT
  {
    if width == MAX_WIDTH && height == MAX_HEIGHT {
    } else if height < MAX_HEIGHT {
      MulBound(height, width, MAX_HEIGHT - 1, MAX_WIDTH);
    } else {
      MulBound(height, width, MAX_HEIGHT, MAX_WIDTH - 1);
    }
  }

  /** A file image to be written at offset 0, and the size the packer takes it to have. */
  datatype Container = Container(bytes: seq<byte>, realSize: nat)

  /** Writing `c` neither overruns the buffer nor makes the relocation panic. */
  predicate Fits(c: Container)
  {
    |c.bytes| <= MAX_FILE_SIZE && Relocatable(c.realSize)
  }

  /** `buf` after a `Cursor` positioned at 0 has written `bytes` into it. */
  function Written(buf: seq<byte>, bytes: seq<byte>): (r: seq<byte>)
    requires |bytes| <= |buf|
    ensures |r| == |buf|
    ensures r[..|bytes|] == bytes && r[|bytes|..] == buf[|bytes|..]
  {
    bytes + buf[|bytes|..]
  }

  /**
   * `buf` after the footer relocation for a file of `realSize` bytes: the
   * lower MAX_DATA_SIZE bytes are untouched and the top 0xb0 bytes hold what
   * was at `[realSize - 0xb0, realSize)`. For a full-size file that window is
   * the top window itself, so the buffer is left exactly as written.
   */
  function Relocated(buf: seq<byte>, realSize: nat): (r: seq<byte>)
    requires |buf| == MAX_FILE_SIZE && Relocatable(realSize)
    ensures |r| == MAX_FILE_SIZE
    ensures r[..MAX_DATA_SIZE] == buf[..MAX_DATA_SIZE]
    ensures r[MAX_DATA_SIZE..] == buf[realSize - FOOTER_SIZE..realSize]
    ensures realSize == MAX_FILE_SIZE ==> r == buf
  {
    if realSize == MAX_FILE_SIZE then buf
    else buf[..MAX_DATA_SIZE] + buf[realSize - FOOTER_SIZE..realSize]
  }

  /**
   * The source window of the copy lies in the untouched lower part, so
   * relocating a second time changes nothing.
   */
  lemma RelocatedIdempotent(buf: seq<byte>, realSize: nat)
    requires |buf| == MAX_FILE_SIZE && Relocatable(realSize)
    ensures Relocated(Relocated(buf, realSize), realSize) == Relocated(buf, realSize)
  {
  }

  /** The whole buffer after a container has been written and its footer relocated. */
  function Packed(buf: seq<byte>, c: Container): seq<byte>
    requires |buf| == MAX_FILE_SIZE && Fits(c)
  {
    Relocated(Written(buf, c.bytes), c.realSize)
  }

  /**
   * Reading back a packed file whose size is its real size: the payload is
   * still at offset 0, the footer is still right after it, and a copy of the
   * footer sits in the top 0xb0 bytes of the buffer.
   */
  lemma PackedRoundTrip(buf: seq<byte>, file: seq<byte>)
    requires |buf| == MAX_FILE_SIZE && Fits(Container(file, |file|))
    ensures var out := Packed(buf, Container(file, |file|));
      out[..|file|] == file &&
      out[MAX_DATA_SIZE..] == file[|file| - FOOTER_SIZE..]
  {
  }

  /** `writer.write_all(bytes)` on a `Cursor` over `data` positioned at 0. */
  method WriteAll(data: array<byte>, bytes: seq<byte>)
    requires |bytes| <= data.Length
    modifies data
    ensures data[..] == Written(old(data[..]), bytes)
  {
    forall i | 0 <= i < |bytes| {
      data[i] := bytes[i];
    }
    assert data[..][..|bytes|] == bytes;
    assert data[..] == data[..][..|bytes|] + data[..][|bytes|..];
  }

  /**
   * The `split_at_mut(MAX_DATA_SIZE)` / `copy_from_slice` step: the two
   * halves are disjoint, so the copy reads only bytes it does not write.
   */
  method RelocateFooter(data: array<byte>, realSize: nat)
    requires data.Length == MAX_FILE_SIZE && Relocatable(realSize)
    modifies data
    ensures data[..] == Relocated(old(data[..]), realSize)
  {
    if realSize != MAX_FILE_SIZE {
      var startOfHeader := realSize - FOOTER_SIZE;
      forall i | 0 <= i < FOOTER_SIZE {
        data[MAX_DATA_SIZE + i] := data[startOfHeader + i];
      }
      assert data[..] == data[..][..MAX_DATA_SIZE] + data[..][MAX_DATA_SIZE..];
    }
  }

  /** Writes a container at offset 0 of a full-size buffer and relocates its footer. */
  method Pack(data: array<byte>, c: Container)
    requires data.Length == MAX_FILE_SIZE && Fits(c)
    modifies data
    ensures data[..] == Packed(old(data[..]), c)
  {
    WriteAll(data, c.bytes);
    RelocateFooter(data, c.realSize);
  }
}
