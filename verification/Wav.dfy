/**
 * The WAV codec of the sample pool (kernel/src/clip.c:566-676; RIFF specification 1.0,
 * chapter 2): chunks are walked by size, padded to even, and unknown ones are skipped.
 */
module Waves {
  import opened Options
  import opened Bytes
  import opened Clips

  const RIFF: seq<byte> := [82, 73, 70, 70]
  const WAVE: seq<byte> := [87, 65, 86, 69]
  const FMT: seq<byte> := [102, 109, 116, 32]
  const DATA: seq<byte> := [100, 97, 116, 97]

  function LE16(v: nat): (r: seq<byte>)
    requires v < 0x10000
    ensures |r| == 2 && R16(r, 0) == v
  {
    [v % 0x100, v / 0x100]
  }

  function LE32(v: nat): (r: seq<byte>)
    requires v < 0x1_0000_0000
    ensures |r| == 4 && R32(r, 0) == v
  {
    W32([0, 0, 0, 0], 0, v)
  }

  /** A 16-bit sample as a word, and back. */
  function Word(s: int): nat
    requires -0x8000 <= s < 0x8000
  {
    if s < 0 then s + 0x10000 else s
  }

  function Sample(u: nat): int
    requires u < 0x10000
  {
    if u >= 0x8000 then u - 0x10000 else u
  }

  predicate Sampled(f: Frame) { -0x8000 <= f.left < 0x8000 && -0x8000 <= f.right < 0x8000 }

  // ---------------------------------------------------------------- decoding

  /** What the chunk walk has met: the fields of the last "fmt " and the bytes of the last "data". */
  datatype Found = Found(fmt: nat, ch: nat, rate: nat, bits: nat, pcm: Option<seq<byte>>)

  const NOTHING: Found := Found(0, 0, 0, 0, None)

  /** One chunk taken in (clip.c:581-594). */
  function Take(st: Found, id: seq<byte>, body: seq<byte>): Found {
    if id == FMT
      && |body| >= 16 then st.(fmt := R16(body, 0), ch := R16(body, 2), rate := R32(body, 4), bits := R16(body, 14))
    else if id == DATA then st.(pcm := Some(body))
    else st
  }

  /** Offset behind a chunk of `size` bytes. */
  function Behind(off: nat, size: nat): nat { off + 8 + size + size % 2 }

  /** The chunk walk from `off` on (clip.c:580-599). */
  function Parse(data: seq<byte>, off: nat, st: Found): Found
    decreases |data| - off
  {
    if off + 8 > |data| then st
    else
      var size := R32(data, off + 4);
      if off + 8 + size > |data| then st
      else Parse(data, Behind(off, size), Take(st, data[off..off + 4], data[off + 8..off + 8 + size]))
  }

  /** Frame `i` of PCM data, to 16-bit stereo (clip.c:617-645). */
  function FrameAt(pcm: seq<byte>, ch: nat, bits: nat, i: nat): (f: Frame)
    requires ch in {1, 2} && bits in {8, 16, 24} && (i + 1) * (ch * (bits / 8)) <= |pcm|
    ensures Sampled(f)
  {
    var o := i * (ch * (bits / 8));
    var left := SampleAt(pcm, o, bits);
    Frame(left, if ch == 2 then SampleAt(pcm, o + bits / 8, bits) else left)
  }

  /** Eight bits are unsigned; of 24 the low eight are dropped. */
  function SampleAt(pcm: seq<byte>, o: nat, bits: nat): (s: int)
    requires bits in {8, 16, 24} && o + bits / 8 <= |pcm|
    ensures -0x8000 <= s < 0x8000
  {
    if bits == 8 then (pcm[o] as int - 128) * 256
    else if bits == 16 then Sample(R16(pcm, o))
    else Sample(R16(pcm, o + 1))
  }

  /** What a decoded file holds. */
  datatype Decoded = Rejected | Sounds(rate: nat, pcm: seq<Frame>)

  function Frames(pcm: seq<byte>, ch: nat, bits: nat, n: nat): (r: seq<Frame>)
    requires ch in {1, 2} && bits in {8, 16, 24} && n * (ch * (bits / 8)) <= |pcm|
    ensures |r| == n && forall i :: 0 <= i < n ==> Sampled(r[i])
  {
    if n == 0 then []
    else
      FrameFits(ch * (bits / 8), n);
      Frames(pcm, ch, bits, n - 1) + [FrameAt(pcm, ch, bits, n - 1)]
  }

  lemma FrameFits(w: nat, n: nat)
    requires n > 0
    ensures (n - 1) * w <= n * w && (n - 1) * w + w == n * w
  {
  }

  /** The checks behind the walk, and the frames (clip.c:600-648). */
  function Finish(st: Found, cap: nat): Decoded {
    if st.fmt != 1 || st.pcm.None? || st.ch !in {1, 2} || st.bits !in {8, 16, 24} then Rejected
    else if st.rate < 4000 || st.rate > 192000 then Rejected
    else
      var width := st.ch * (st.bits / 8);
      var n := |st.pcm.value| / width;
      if n == 0 || n > cap then Rejected
      else
        Floor(|st.pcm.value|, width);
        Sounds(st.rate, Frames(st.pcm.value, st.ch, st.bits, n))
  }

  lemma Floor(a: nat, b: nat)
    requires b > 0
    ensures a / b >= 0 && a / b * b <= a
  {
  }

  /** wav_decode. */
  function Decode(data: seq<byte>, cap: nat): Decoded {
    if |data| < 44 || data[..4] != RIFF || data[8..12] != WAVE then Rejected
    else Finish(Parse(data, 12, NOTHING), cap)
  }

  // ---------------------------------------------------------------- files made of chunks

  datatype Chunk = Chunk(id: seq<byte>, body: seq<byte>)

  predicate Legal(c: Chunk) { |c.id| == 4 && |c.body| < 0x1_0000_0000 }

  /** A chunk on disk: identifier, size, body, and a byte of padding behind an odd body. */
  function ChunkBytes(c: Chunk): (r: seq<byte>)
    requires Legal(c)
    ensures |r| == 8 + |c.body| + |c.body| % 2
  {
    ChunkHead(c.id, |c.body|) + c.body + Zeros(|c.body| % 2)
  }

  function Cat(cs: seq<Chunk>): seq<byte>
    requires forall i :: 0 <= i < |cs| ==> Legal(cs[i])
  {
    if cs == [] then [] else ChunkBytes(cs[0]) + Cat(cs[1..])
  }

  /** A RIFF file; the driver does not look at its size field. */
  function File(size: nat, cs: seq<Chunk>): seq<byte>
    requires size < 0x1_0000_0000 && forall i :: 0 <= i < |cs| ==> Legal(cs[i])
  {
    Head(size) + Cat(cs)
  }

  function Head(size: nat): (r: seq<byte>)
    requires size < 0x1_0000_0000
    ensures |r| == 12 && r[..4] == RIFF && r[8..12] == WAVE
  {
    RIFF + LE32(size) + WAVE
  }

  /** Identifier and size. */
  function ChunkHead(id: seq<byte>, size: nat): (r: seq<byte>)
    requires |id| == 4 && size < 0x1_0000_0000
    ensures |r| == 8
  {
    id + LE32(size)
  }

  function TakeAll(st: Found, cs: seq<Chunk>): Found
    decreases |cs|
  {
    if cs == [] then st else TakeAll(Take(st, cs[0].id, cs[0].body), cs[1..])
  }

  /** A chunk that lies at `off` is taken in, and the walk goes on behind it. */
  lemma {:induction false} ParseChunk(pre: seq<byte>, c: Chunk, post: seq<byte>, st: Found)
    requires Legal(c)
    ensures var data := pre + ChunkBytes(c) + post;
            Parse(data, |pre|, st) == Parse(data, |pre| + |ChunkBytes(c)|, Take(st, c.id, c.body))
  {
    hide R32, LE32, Take, ChunkBytes, Parse;
    var data, off, n := pre + ChunkBytes(c) + post, |pre|, |c.body|;
    ChunkParts(pre, c, post);
    SameWord(data, off + 4, LE32(n));
    ParseStep(data, off, st, n);
  }

  lemma {:induction false} ParseStep(data: seq<byte>, off: nat, st: Found, n: nat)
    requires off + 8 + n <= |data| && R32(data, off + 4) == n
    ensures Parse(data, off, st) ==
        Parse(data, Behind(off, n), Take(st, data[off..off + 4], data[off + 8..off + 8 + n]))
  {
    hide R32, Take, Behind;
  }

  /** Where the parts of a chunk lie. */
  lemma ChunkParts(pre: seq<byte>, c: Chunk, post: seq<byte>)
    requires Legal(c)
    ensures var data, off, n := pre + ChunkBytes(c) + post, |pre|, |c.body|;
            && |data| == |pre| + |ChunkBytes(c)| + |post|
            && data[off..off + 4] == c.id && data[off + 4..off + 8] == LE32(n) && data[off + 8..off + 8 + n] == c.body
  {
    hide LE32;
    var b := ChunkBytes(c);
    Middle(pre, b, post, 0, 4);
    Middle(pre, b, post, 4, 8);
    Middle(pre, b, post, 8, 8 + |c.body|);
    assert b[0..4] == c.id && b[4..8] == LE32(|c.body|) && b[8..8 + |c.body|] == c.body;
  }

  lemma Middle(pre: seq<byte>, b: seq<byte>, post: seq<byte>, i: nat, j: nat)
    requires i <= j <= |b|
    ensures (pre + b + post)[|pre| + i..|pre| + j] == b[i..j]
  {
  }

  lemma SameWord(data: seq<byte>, o: nat, w: seq<byte>)
    requires |w| == 4 && o + 4 <= |data| && data[o..o + 4] == w
    ensures R32(data, o) == R32(w, 0)
  {
    assert data[o] == w[0] && data[o + 1] == w[1] && data[o + 2] == w[2] && data[o + 3] == w[3];
  }

  /** The walk over a file takes in its chunks, in order. */
  lemma {:induction false} ParseAll(pre: seq<byte>, cs: seq<Chunk>, st: Found)
    requires forall i :: 0 <= i < |cs| ==> Legal(cs[i])
    ensures Parse(pre + Cat(cs), |pre|, st) == TakeAll(st, cs)
    decreases |cs|
  {
    hide Take, ChunkBytes;
    if cs != [] {
      var c, rest := cs[0], Cat(cs[1..]);
      ParseChunk(pre, c, rest, st);
      assert pre + Cat(cs) == pre + ChunkBytes(c) + rest;
      ParseAll(pre + ChunkBytes(c), cs[1..], Take(st, c.id, c.body));
    } else {
      assert pre + Cat(cs) == pre;
    }
  }

  lemma {:induction false} TakeSplit(st: Found, a: seq<Chunk>, b: seq<Chunk>)
    ensures TakeAll(st, a + b) == TakeAll(TakeAll(st, a), b)
    decreases |a|
  {
    hide Take;
    if a == [] {
      assert a + b == b;
    } else {
      assert (a + b)[1..] == a[1..] + b;
      TakeSplit(Take(st, a[0].id, a[0].body), a[1..], b);
    }
  }

  lemma FileDecodes(size: nat, cs: seq<Chunk>, cap: nat)
    requires size < 0x1_0000_0000 && (forall i :: 0 <= i < |cs| ==> Legal(cs[i])) && |File(size, cs)| >= 44
    ensures Decode(File(size, cs), cap) == Finish(TakeAll(NOTHING, cs), cap)
  {
    hide LE32, Finish;
    var pre := Head(size);
    assert File(size, cs)[..4] == pre[..4] && File(size, cs)[8..12] == pre[8..12];
    ParseAll(pre, cs, NOTHING);
  }

  /** The driver looks at no other chunk: neither "data" nor a "fmt " of at least 16 bytes. */
  predicate Unknown(c: Chunk) { c.id != DATA && (c.id != FMT || |c.body| < 16) }

  /** Unknown chunks, of odd or even size, anywhere, change nothing. */
  lemma UnknownIgnored(size: nat, size': nat, a: seq<Chunk>, u: Chunk, b: seq<Chunk>, cap: nat)
    requires size < 0x1_0000_0000 && size' < 0x1_0000_0000 && Legal(u) && Unknown(u)
    requires (forall i :: 0 <= i < |a| ==> Legal(a[i])) && (forall i :: 0 <= i < |b| ==> Legal(b[i]))
        && |File(size, a + b)| >= 44
    ensures |File(size', a + [u] + b)| >= 44 && Decode(File(size', a + [u] + b), cap) == Decode(File(size, a + b), cap)
  {
    hide LE32, Finish, ChunkBytes;
    CatSplit(a, b);
    CatSplit(a + [u], b);
    CatSplit(a, [u]);
    FileDecodes(size, a + b, cap);
    FileDecodes(size', a + [u] + b, cap);
    TakeSplit(NOTHING, a, b);
    TakeSplit(NOTHING, a + [u], b);
    TakeSplit(NOTHING, a, [u]);
  }

  lemma {:induction false} CatSplit(a: seq<Chunk>, b: seq<Chunk>)
    requires (forall i :: 0 <= i < |a| ==> Legal(a[i])) && forall i :: 0 <= i < |b| ==> Legal(b[i])
    ensures Cat(a + b) == Cat(a) + Cat(b)
    decreases |a|
  {
    hide ChunkBytes;
    if a == [] {
      assert a + b == b;
    } else {
      assert (a + b)[1..] == a[1..] + b;
      CatSplit(a[1..], b);
    }
  }

  // ---------------------------------------------------------------- encoding

  function FmtBody(rate: nat): (r: seq<byte>)
    requires rate < 0x1_0000_0000
    ensures |r| == 16
  {
    LE16(1) + LE16(2) + LE32(rate) + LE32(rate * 4 % 0x1_0000_0000) + LE16(4) + LE16(16)
  }

  lemma FmtFields(rate: nat)
    requires rate < 0x1_0000_0000
    ensures var b := FmtBody(rate); R16(b, 0) == 1 && R16(b, 2) == 2 && R32(b, 4) == rate && R16(b, 14) == 16
  {
    var b := FmtBody(rate);
    assert b[0] == 1 && b[1] == 0 && b[2] == 2 && b[3] == 0 && b[14] == 16 && b[15] == 0;
    var w := LE32(rate);
    assert b[4] == w[0] && b[5] == w[1] && b[6] == w[2] && b[7] == w[3];
    assert b[4..8] == w;
    SameWord(b, 4, w);
  }

  /** Frames as little-endian words, left then right. */
  function PcmBytes(pcm: seq<Frame>): (r: seq<byte>)
    requires forall i :: 0 <= i < |pcm| ==> Sampled(pcm[i])
    ensures |r| == 4 * |pcm|
  {
    if pcm == [] then []
    else PcmBytes(pcm[..|pcm|-1]) + FrameBytes(pcm[|pcm|-1])
  }

  function FrameBytes(f: Frame): (r: seq<byte>)
    requires Sampled(f)
    ensures |r| == 4
  {
    LE16(Word(f.left)) + LE16(Word(f.right))
  }

  lemma {:induction false} FramesPrefix(a: seq<byte>, b: seq<byte>, n: nat)
    requires n * 4 <= |a|
    ensures Frames(a + b, 2, 16, n) == Frames(a, 2, 16, n)
  {
    hide FrameAt;
    if n > 0 {
      FramesPrefix(a, b, n - 1);
      FramePrefix(a, b, n - 1);
    }
  }

  lemma FramePrefix(a: seq<byte>, b: seq<byte>, i: nat)
    requires i * 4 + 4 <= |a|
    ensures FrameAt(a + b, 2, 16, i) == FrameAt(a, 2, 16, i)
  {
  }

  lemma LastFrame(a: seq<byte>, f: Frame)
    requires Sampled(f) && |a| % 4 == 0
    ensures FrameAt(a + FrameBytes(f), 2, 16, |a| / 4) == f
  {
    var l, r := LE16(Word(f.left)), LE16(Word(f.right));
    var d, o := a + FrameBytes(f), |a|;
    assert d[o] == l[0] && d[o + 1] == l[1] && d[o + 2] == r[0] && d[o + 3] == r[1];
  }

  /** Decoding the samples gives them back. */
  lemma {:induction false} FramesBack(pcm: seq<Frame>)
    requires forall i :: 0 <= i < |pcm| ==> Sampled(pcm[i])
    ensures Frames(PcmBytes(pcm), 2, 16, |pcm|) == pcm
  {
    hide FrameAt, FrameBytes;
    if pcm != [] {
      var n := |pcm| - 1;
      FramesBack(pcm[..n]);
      FramesPrefix(PcmBytes(pcm[..n]), FrameBytes(pcm[n]), n);
      LastFrame(PcmBytes(pcm[..n]), pcm[n]);
    }
  }

  /** wav_encode: 44 bytes of header, then the samples (clip.c:660-673). */
  function Encode(rate: nat, pcm: seq<Frame>): (r: seq<byte>)
    requires rate < 0x1_0000_0000 && |pcm| <= MAX_FRAMES && forall i :: 0 <= i < |pcm| ==> Sampled(pcm[i])
  {
    File(36 + 4 * |pcm|, [Chunk(FMT, FmtBody(rate)), Chunk(DATA, PcmBytes(pcm))])
  }

  lemma EncodedSize(rate: nat, pcm: seq<Frame>)
    requires rate < 0x1_0000_0000 && |pcm| <= MAX_FRAMES && forall i :: 0 <= i < |pcm| ==> Sampled(pcm[i])
    ensures |Encode(rate, pcm)| == 44 + 4 * |pcm|
  {
    hide LE32, FmtBody, PcmBytes, ChunkBytes, Cat;
    TwoChunks(rate, pcm);
    CatTwo(Chunk(FMT, FmtBody(rate)), Chunk(DATA, PcmBytes(pcm)));
  }

  lemma TwoChunks(rate: nat, pcm: seq<Frame>)
    requires rate < 0x1_0000_0000 && |pcm| <= MAX_FRAMES && forall i :: 0 <= i < |pcm| ==> Sampled(pcm[i])
    ensures Legal(Chunk(FMT, FmtBody(rate))) && Legal(Chunk(DATA, PcmBytes(pcm)))
  {
    hide FmtBody, PcmBytes;
  }

  /** A clip survives the trip exactly when it has a frame, fits, and has a legal rate. */
  lemma WaveRoundTrip(rate: nat, pcm: seq<Frame>, cap: nat)
    requires rate < 0x1_0000_0000 && |pcm| <= MAX_FRAMES && forall i :: 0 <= i < |pcm| ==> Sampled(pcm[i])
    ensures Decode(Encode(rate, pcm), cap) == Sounds(rate, pcm) <==> 4000 <= rate <= 192000 && 1 <= |pcm| <= cap
  {
    hide LE32, FmtBody, PcmBytes, File, Frames;
    var cs := [Chunk(FMT, FmtBody(rate)), Chunk(DATA, PcmBytes(pcm))];
    EncodedSize(rate, pcm);
    FileDecodes(36 + 4 * |pcm|, cs, cap);
    FmtFields(rate);
    TakeTwo(NOTHING, cs[0], cs[1]);
    FramesBack(pcm);
  }

  lemma TakeTwo(st: Found, a: Chunk, b: Chunk)
    ensures TakeAll(st, [a, b]) == Take(Take(st, a.id, a.body), b.id, b.body)
  {
    hide Take;
    assert [a, b][1..] == [b] && [b][1..] == [];
    var x := Take(st, a.id, a.body);
    assert TakeAll(x, [b]) == TakeAll(Take(x, b.id, b.body), []);
  }

  // ---------------------------------------------------------------- the loops

  /** wav_decode (clip.c:566-649). */
  method WavDecode(data: seq<byte>, dst: array<Frame>, cap: nat) returns (ok: bool, n: nat, rate: nat)
    requires cap <= dst.Length
    modifies dst
    ensures match Decode(data, cap)
            case Rejected => !ok
            case Sounds(r, pcm) => ok && rate == r && n == |pcm| <= cap && dst[..n] == pcm
  {
    hide Take, FrameAt, R32, Frames;
    ok, n, rate := false, 0, 0;
    if |data| < 44 || data[..4] != RIFF || data[8..12] != WAVE {
      return;
    }
    var off, st := 12, NOTHING;
    while off + 8 <= |data|
      invariant Parse(data, off, st) == Parse(data, 12, NOTHING)
      decreases |data| - off
    {
      var size := R32(data, off + 4);
      if off + 8 + size > |data| {
        break;
      }
      st := Take(st, data[off..off + 4], data[off + 8..off + 8 + size]);
      off := Behind(off, size);
    }
    assert st == Parse(data, 12, NOTHING);
    if st.fmt != 1 || st.pcm.None? || st.ch !in {1, 2} || st.bits !in {8, 16, 24} {
      return;
    }
    if st.rate < 4000 || st.rate > 192000 {
      return;
    }
    var pcm := st.pcm.value;
    n := |pcm| / (st.ch * (st.bits / 8));
    if n == 0 || n > cap {
      return;
    }
    Floor(|pcm|, st.ch * (st.bits / 8));
    CopyFrames(pcm, st.ch, st.bits, n, dst);
    ok, rate := true, st.rate;
  }

  /** The loop over the frames (clip.c:617-645). */
  method CopyFrames(pcm: seq<byte>, ch: nat, bits: nat, n: nat, dst: array<Frame>)
    requires ch in {1, 2} && bits in {8, 16, 24} && n * (ch * (bits / 8)) <= |pcm| && n <= dst.Length
    modifies dst
    ensures dst[..n] == Frames(pcm, ch, bits, n)
  {
    hide FrameAt;
    var i := 0;
    while i < n
      invariant 0 <= i <= n && i * (ch * (bits / 8)) <= |pcm| && dst[..i] == Frames(pcm, ch, bits, i)
    {
      Upto(ch * (bits / 8), i, n);
      dst[i] := FrameAt(pcm, ch, bits, i);
      assert dst[..i + 1][..i] == dst[..i];
      i := i + 1;
    }
  }

  lemma Upto(w: nat, i: nat, n: nat)
    requires i < n
    ensures (i + 1) * w <= n * w && (i + 1 - 1) * w == i * w
  {
    var k := n - i - 1;
    assert n * w == (i + 1) * w + k * w;
    assert k * w >= 0;
  }

  /** The 44 bytes before the samples. */
  function Header(rate: nat, frames: nat): (r: seq<byte>)
    requires rate < 0x1_0000_0000 && frames <= MAX_FRAMES
    ensures |r| == 44
  {
    Head(36 + 4 * frames) + (ChunkHead(FMT, 16) + FmtBody(rate) + ChunkHead(DATA, 4 * frames))
  }

  lemma EvenChunk(c: Chunk, half: nat)
    requires |c.id| == 4 && |c.body| == 2 * half < 0x1_0000_0000
    ensures Legal(c) && ChunkBytes(c) == ChunkHead(c.id, |c.body|) + c.body
  {
    hide ChunkHead;
    assert Zeros(0) == [];
  }

  lemma CatTwo(a: Chunk, b: Chunk)
    requires Legal(a) && Legal(b)
    ensures Cat([a, b]) == ChunkBytes(a) + ChunkBytes(b)
  {
    hide ChunkBytes;
    assert [a, b][1..] == [b] && [b][1..] == [];
    assert Cat([b]) == ChunkBytes(b) + Cat([]);
  }

  /** A file of two even chunks is its 44 bytes of heads and the second body. */
  lemma FileIs(n: nat, fmt: seq<byte>, body: seq<byte>)
    requires n <= MAX_FRAMES && |fmt| == 16 && |body| == 4 * n
    ensures File(36 + 4 * n, [Chunk(FMT, fmt), Chunk(DATA, body)])
         == Head(36 + 4 * n) + (ChunkHead(FMT, 16) + fmt + ChunkHead(DATA, 4 * n)) + body
  {
    hide ChunkHead, Head, ChunkBytes, Cat;
    var a, b := Chunk(FMT, fmt), Chunk(DATA, body);
    EvenChunk(a, 8);
    EvenChunk(b, 2 * n);
    CatTwo(a, b);
    assert Cat([a, b]) == (ChunkHead(FMT, 16) + fmt) + (ChunkHead(DATA, 4 * n) + body);
  }

  lemma EncodeFile(rate: nat, pcm: seq<Frame>, n: nat, body: seq<byte>)
    requires rate < 0x1_0000_0000 && |pcm| == n <= MAX_FRAMES && forall i :: 0 <= i < |pcm| ==> Sampled(pcm[i])
    requires body == PcmBytes(pcm)
    ensures |body| == 4 * n
    ensures Encode(rate, pcm) == File(36 + 4 * n, [Chunk(FMT, FmtBody(rate)), Chunk(DATA, body)])
  {
    hide FmtBody;
  }

  lemma HeaderIs(rate: nat, n: nat)
    requires rate < 0x1_0000_0000 && n <= MAX_FRAMES
    ensures Header(rate, n) == Head(36 + 4 * n) + (ChunkHead(FMT, 16) + FmtBody(rate) + ChunkHead(DATA, 4 * n))
  {
  }

  lemma EncodeIs(rate: nat, pcm: seq<Frame>)
    requires rate < 0x1_0000_0000 && |pcm| <= MAX_FRAMES && forall i :: 0 <= i < |pcm| ==> Sampled(pcm[i])
    ensures Encode(rate, pcm) == Header(rate, |pcm|) + PcmBytes(pcm)
  {
    hide ChunkHead, Head, File, FmtBody, Encode;
    var n, body := |pcm|, PcmBytes(pcm);
    EncodeFile(rate, pcm, n, body);
    FileIs(n, FmtBody(rate), body);
    var h := Head(36 + 4 * n) + (ChunkHead(FMT, 16) + FmtBody(rate) + ChunkHead(DATA, 4 * n));
    assert Encode(rate, pcm) == h + body;
    HeaderIs(rate, n);
  }

  /** wav_encode (clip.c:652-676): refuses when the file does not fit. */
  method WavEncode(rate: nat, pcm: seq<Frame>, buf: array<byte>, cap: nat) returns (ok: bool, size: nat)
    requires rate < 0x1_0000_0000 && |pcm| <= MAX_FRAMES && (forall i :: 0 <= i < |pcm| ==> Sampled(pcm[i]))
        && cap <= buf.Length
    modifies buf
    ensures ok <==> 44 + 4 * |pcm| <= cap
    ensures if ok then size == 44 + 4 * |pcm| && buf[..size] == Encode(rate, pcm) else buf[..] == old(buf[..])
  {
    hide Header, FrameBytes, Encode;
    EncodeIs(rate, pcm);
    size := 44 + 4 * |pcm|;
    if size > cap {
      return false, size;
    }
    var header := Header(rate, |pcm|);
    forall k | 0 <= k < 44 { buf[k] := header[k]; }
    var i := 0;
    while i < |pcm|
      invariant 0 <= i <= |pcm| && buf[..44 + 4 * i] == header + PcmBytes(pcm[..i])
    {
      var f := FrameBytes(pcm[i]);
      ghost var was := buf[..44 + 4 * i];
      var o := 44 + 4 * i;
      buf[o], buf[o + 1], buf[o + 2], buf[o + 3] := f[0], f[1], f[2], f[3];
      assert buf[..o] == was;
      assert buf[..o + 4] == was + f;
      assert pcm[..i + 1][..i] == pcm[..i];
      i := i + 1;
    }
    assert pcm[..|pcm|] == pcm;
    ok := true;
  }
}
