/** Bytes, little-endian fields and 512-byte sectors (kernel/src/fat.c:178-201). */
module Bytes {
  type byte = b: int | 0 <= b < 256

  const SECTOR: nat := 512

  type Sector = s: seq<byte> | |s| == 512 witness seq(512, _ => 0)

  function Zeros(n: nat): (s: seq<byte>)
    ensures |s| == n
  {
    seq(n, _ => 0)
  }

  /** Sector `k` of a buffer that holds several. */
  function SectorOf(buf: seq<byte>, k: nat): Sector
    requires (k + 1) * 512 <= |buf|
  {
    buf[k * 512 .. k * 512 + 512]
  }

  function R16(s: seq<byte>, o: nat): (r: nat)
    requires o + 2 <= |s|
    ensures r < 0x10000
  {
    s[o] as int + 0x100 * s[o+1] as int
  }

  function R32(s: seq<byte>, o: nat): (r: nat)
    requires o + 4 <= |s|
    ensures r < 0x1_0000_0000
  {
    s[o] as int + 0x100 * s[o+1] as int + 0x1_0000 * s[o+2] as int + 0x100_0000 * s[o+3] as int
  }

  function W16(s: seq<byte>, o: nat, v: nat): (r: seq<byte>)
    requires o + 2 <= |s|
    ensures |r| == |s|
    ensures forall i :: 0 <= i < |s| && !(o <= i < o + 2) ==> r[i] == s[i]
    ensures R16(r, o) == v % 0x10000
  {
    s[o := v % 0x100][o+1 := v / 0x100 % 0x100]
  }

  function W32(s: seq<byte>, o: nat, v: nat): (r: seq<byte>)
    requires o + 4 <= |s|
    requires v < 0x1_0000_0000
    ensures |r| == |s|
    ensures forall i :: 0 <= i < |s| && !(o <= i < o + 4) ==> r[i] == s[i]
    ensures R32(r, o) == v
  {
    var v1 := v / 0x100;
    var v2 := v1 / 0x100;
    s[o := v % 0x100][o+1 := v1 % 0x100][o+2 := v2 % 0x100][o+3 := v2 / 0x100]
  }

  /** `b` written over `s` from `o` on. */
  function Put(s: seq<byte>, o: nat, b: seq<byte>): (r: seq<byte>)
    requires o + |b| <= |s|
    ensures |r| == |s|
    ensures forall i :: 0 <= i < |s| ==> r[i] == if o <= i < o + |b| then b[i - o] else s[i]
  {
    s[..o] + b + s[o + |b|..]
  }

  /** What a slice sees of bytes put beside it or inside it. */
  lemma PutSlice(img: seq<byte>, at: nat, piece: seq<byte>, a: nat, b: nat)
    requires at + |piece| <= |img| && a <= b <= |img|
    ensures b <= at || at + |piece| <= a ==> Put(img, at, piece)[a..b] == img[a..b]
    ensures a <= at && at + |piece| <= b ==> Put(img, at, piece)[a..b] == Put(img[a..b], at - a, piece)
  {
  }

  lemma SubSlice(s: seq<byte>, a: nat, b: nat, i: nat, j: nat)
    requires a <= b <= |s| && i <= j <= b - a
    ensures s[a..b][i..j] == s[a + i..a + j]
  {
    var x, y := s[a..b][i..j], s[a + i..a + j];
    forall k | 0 <= k < |x| ensures x[k] == y[k] {
      assert x[k] == s[a..b][i + k] == s[a + (i + k)];
    }
  }

  lemma PutAllOver(x: seq<byte>, piece: seq<byte>)
    requires |piece| == |x|
    ensures Put(x, 0, piece) == piece
  {
  }
}
