/** How the uploader cuts a file into chunks, in Go's 64-bit arithmetic. */
module Chunks {

  type Byte = b: int | 0 <= b < 256

  const MAX_INT64 := 0x7fff_ffff_ffff_ffff
  const TWO_TO_THE_64 := 0x1_0000_0000_0000_0000

  /** The int64 value that an exact integer result wraps to. */
  function Wrap64(x: int): int {
    var m := x % TWO_TO_THE_64;
    if m <= MAX_INT64 then m else m - TWO_TO_THE_64
  }

  /** Go's integer division, which truncates toward zero. */
  function TruncDiv(a: int, b: int): int
    requires 0 < b
  {
    if 0 <= a then a / b else -(-a / b)
  }

  /** The TotalChunks expression, with both additions wrapping. */
  function TotalChunks(size: int, chunkSize: int): int
    requires 0 < chunkSize
  {
    TruncDiv(Wrap64(Wrap64(size + chunkSize) - 1), chunkSize)
  }

  /** `t` is the least number of chunks that covers `size` bytes. */
  ghost predicate LeastCover(t: int, size: int, chunkSize: int) {
    && 0 <= t
    && size <= t * chunkSize
    && forall u: nat :: size <= u * chunkSize ==> t <= u
  }

  ghost predicate Fits(size: int, chunkSize: int) {
    size + chunkSize - 1 <= MAX_INT64
  }

  lemma MulMonotone(a: int, b: int, c: int)
    requires a <= b && 0 <= c
    ensures a * c <= b * c
  {
    assert b * c - a * c == (b - a) * c;
  }

  lemma DivisionBounds(s: int, c: int)
    requires 0 <= s && 0 < c
    ensures 0 <= s / c && s - c < s / c * c <= s
  {
    assert s == s / c * c + s % c;
    if s / c < 0 {
      MulMonotone(s / c, -1, c);
    }
  }

  /** The rounding sum with both additions wrapping. */
  lemma WrapSum(size: int, chunkSize: int)
    requires 0 <= size <= MAX_INT64 && 0 < chunkSize <= MAX_INT64
    ensures Wrap64(Wrap64(size + chunkSize) - 1) ==
              if Fits(size, chunkSize) then size + chunkSize - 1 else size + chunkSize - 1 - TWO_TO_THE_64
  {
  }

  /** When the rounding sum fits, the division is the exact ceiling. */
  lemma TotalChunksWhenFits(size: int, chunkSize: int)
    requires 0 <= size <= MAX_INT64 && 0 < chunkSize <= MAX_INT64
    requires Fits(size, chunkSize)
    ensures var t := TotalChunks(size, chunkSize);
            0 <= t && size <= t * chunkSize < size + chunkSize
  {
    var s := size + chunkSize - 1;
    WrapSum(size, chunkSize);
    DivisionBounds(s, chunkSize);
  }

  /** When it does not fit, the sum is negative after wrapping, so no chunk is issued at all. */
  lemma TotalChunksWhenOverflowing(size: int, chunkSize: int)
    requires 0 <= size <= MAX_INT64 && 0 < chunkSize <= MAX_INT64
    requires !Fits(size, chunkSize)
    ensures 0 < size && TotalChunks(size, chunkSize) <= 0
  {
    var s := Wrap64(Wrap64(size + chunkSize) - 1);
    WrapSum(size, chunkSize);
    DivisionBounds(-s, chunkSize);
  }

  /** The chunk count is the least cover exactly when the rounding sum fits an int64. */
  lemma TotalChunksIsLeastCover(size: int, chunkSize: int)
    requires 0 <= size <= MAX_INT64 && 0 < chunkSize <= MAX_INT64
    ensures LeastCover(TotalChunks(size, chunkSize), size, chunkSize) <==> Fits(size, chunkSize)
  {
    var t := TotalChunks(size, chunkSize);
    if Fits(size, chunkSize) {
      TotalChunksWhenFits(size, chunkSize);
      assert t * chunkSize == (t - 1) * chunkSize + chunkSize;
      forall u: nat | u < t
        ensures u * chunkSize < size
      {
        MulMonotone(u, t - 1, chunkSize);
      }
    } else {
      TotalChunksWhenOverflowing(size, chunkSize);
      MulMonotone(t, 0, chunkSize);
    }
  }

  /** Where chunk `n`, counted from 1, starts. */
  function Offset(n: nat, chunkSize: int): int
  {
    (n - 1) * chunkSize
  }

  /** The segment of the file that chunk `n` of `total` stands for. */
  ghost function Segment(content: seq<Byte>, n: nat, total: int, chunkSize: int): seq<Byte>
    requires 0 < chunkSize
    requires 0 <= Offset(n, chunkSize) <= |content|
    requires n < total ==> Offset(n, chunkSize) + chunkSize <= |content|
  {
    var lo := Offset(n, chunkSize);
    if n < total then content[lo..lo + chunkSize] else content[lo..]
  }

  /** The shape of the `n`-th piece when `t` pieces of size `c` just cover `size`. */
  lemma PieceShape(size: int, c: int, t: int, n: int)
    requires 0 < c && 1 <= n <= t
    requires size <= t * c < size + c
    ensures 0 <= (n - 1) * c < size
    ensures n * c == (n - 1) * c + c
    ensures n < t ==> n * c < size
    ensures n == t ==> size <= n * c
  {
    MulMonotone(0, n - 1, c);
    MulMonotone(n - 1, t - 1, c);
    assert t * c == (t - 1) * c + c;
    assert n * c == (n - 1) * c + c;
    if n < t {
      MulMonotone(n, t - 1, c);
    }
  }

  /**
   * Every chunk starts inside the file, every chunk but the last is full, and the last one is
   * neither empty nor longer than a chunk. In particular no seek overflows and no bounded copy
   * runs into the end of the file.
   */
  lemma ChunkShape(size: int, chunkSize: int, n: nat)
    requires 0 <= size <= MAX_INT64 && 0 < chunkSize <= MAX_INT64
    requires 1 <= n <= TotalChunks(size, chunkSize)
    ensures 0 <= Offset(n, chunkSize) < size
    ensures n < TotalChunks(size, chunkSize) ==> Offset(n, chunkSize) + chunkSize < size
    ensures n == TotalChunks(size, chunkSize) ==> 1 <= size - Offset(n, chunkSize) <= chunkSize
  {
    if Fits(size, chunkSize) {
      TotalChunksWhenFits(size, chunkSize);
      PieceShape(size, chunkSize, TotalChunks(size, chunkSize), n);
    } else {
      TotalChunksWhenOverflowing(size, chunkSize);
      assert false;
    }
  }

  /** The first `n` segments, glued together in order. */
  ghost function Glued(content: seq<Byte>, n: nat, chunkSize: int): (r: seq<Byte>)
    requires |content| <= MAX_INT64 && 0 < chunkSize <= MAX_INT64
    requires n <= TotalChunks(|content|, chunkSize) || n == 0
  {
    if n == 0 then [] else
      ChunkShape(|content|, chunkSize, n);
      Glued(content, n - 1, chunkSize) + Segment(content, n, TotalChunks(|content|, chunkSize), chunkSize)
  }

  lemma {:induction false} GluedIsPrefix(content: seq<Byte>, n: nat, chunkSize: int)
    requires |content| <= MAX_INT64 && 0 < chunkSize <= MAX_INT64
    requires 1 <= n <= TotalChunks(|content|, chunkSize)
    ensures n < TotalChunks(|content|, chunkSize) ==>
              0 <= n * chunkSize <= |content| && Glued(content, n, chunkSize) == content[..n * chunkSize]
    ensures n == TotalChunks(|content|, chunkSize) ==> Glued(content, n, chunkSize) == content
  {
    ChunkShape(|content|, chunkSize, n);
    var lo := Offset(n, chunkSize);
    assert Glued(content, n - 1, chunkSize) == content[..lo] by {
      if n == 1 {
        assert lo == 0;
      } else {
        GluedIsPrefix(content, n - 1, chunkSize);
      }
    }
    assert n * chunkSize == lo + chunkSize;
    GlueNext(content, lo, chunkSize, n < TotalChunks(|content|, chunkSize));
  }

  lemma GlueNext(content: seq<Byte>, lo: int, chunkSize: int, full: bool)
    requires 0 <= lo <= |content| && 0 < chunkSize
    requires full ==> lo + chunkSize <= |content|
    ensures full ==> content[..lo] + content[lo..lo + chunkSize] == content[..lo + chunkSize]
    ensures content[..lo] + content[lo..] == content
  {
  }

  /** The segments tile the file exactly when the rounding sum fits. */
  lemma SegmentsTile(content: seq<Byte>, chunkSize: int)
    requires |content| <= MAX_INT64 && 0 < chunkSize <= MAX_INT64
    ensures var t := TotalChunks(|content|, chunkSize);
            (0 <= t && Glued(content, t, chunkSize) == content) <==> Fits(|content|, chunkSize)
  {
    var t := TotalChunks(|content|, chunkSize);
    if Fits(|content|, chunkSize) {
      TotalChunksWhenFits(|content|, chunkSize);
      if 0 < t {
        GluedIsPrefix(content, t, chunkSize);
      }
    } else {
      TotalChunksWhenOverflowing(|content|, chunkSize);
    }
  }

  /** The seek position the code computes, in wrapping arithmetic. */
  function Seek(chunkNumber: nat, chunkSize: int, size: int): (pos: int)
    requires 0 <= Offset(chunkNumber, chunkSize) < size <= MAX_INT64
    ensures pos == Offset(chunkNumber, chunkSize)
  {
    Wrap64(Offset(chunkNumber, chunkSize))
  }

  datatype CopyResult = Copied(payload: seq<Byte>) | UnexpectedEof

  /**
   * The seek and copy of one multipart request: `CopyN` fails when the file ends early, `Copy`
   * takes whatever is left.
   */
  method ReadChunk(content: seq<Byte>, chunkNumber: nat, total: int, chunkSize: int) returns (r: CopyResult)
    requires |content| <= MAX_INT64 && 0 < chunkSize <= MAX_INT64
    requires 1 <= chunkNumber <= total == TotalChunks(|content|, chunkSize)
    ensures 0 <= Offset(chunkNumber, chunkSize) < |content|
    ensures chunkNumber < total ==> Offset(chunkNumber, chunkSize) + chunkSize <= |content|
    ensures r == Copied(Segment(content, chunkNumber, total, chunkSize))
  {
    ChunkShape(|content|, chunkSize, chunkNumber);
    var pos := Seek(chunkNumber, chunkSize, |content|);
    if chunkNumber < total {
      if |content| - pos < chunkSize {
        return UnexpectedEof;
      }
      r := Copied(content[pos..pos + chunkSize]);
    } else {
      r := Copied(content[pos..]);
    }
  }
}
