/**
 * The sample pool: named clips share one buffer of stereo frames, which is compacted when
 * it runs full (kernel/src/clip.c:336-479). Clips are known by name: compaction permutes
 * the slots.
 */
module Clips {
  /** One stereo frame of 16-bit samples. */
  datatype Frame = Frame(left: int, right: int)

  const SILENCE: Frame := Frame(0, 0)
  const CLIP_MAX: nat := 8
  const CLIP_NAME: nat := 16
  const MAX_FRAMES: nat := 180 * 1024

  /** A slot: `at` is where its frames start in the pool. */
  datatype Clip = Clip(name: string, rate: nat, frames: nat, at: nat, used: bool)

  /** What a listener knows of a clip. */
  datatype Sound = Sound(name: string, rate: nat, pcm: seq<Frame>)

  predicate Apart(a: Clip, b: Clip) { a.name != b.name && (a.at + a.frames <= b.at || b.at + b.frames <= a.at) }

  /** Live clips lie below `top`, share no frame, and have different names. */
  ghost predicate Laid(clips: seq<Clip>, top: nat) {
    && (forall i :: 0 <= i < |clips| && clips[i].used ==>
         clips[i].frames > 0 && clips[i].name != "" && clips[i].at + clips[i].frames <= top)
    && forall i, j :: 0 <= i < j < |clips| && clips[i].used && clips[j].used ==> Apart(clips[i], clips[j])
  }

  function SoundOf(c: Clip, pool: seq<Frame>): Sound
    requires c.at + c.frames <= |pool|
  {
    Sound(c.name, c.rate, pool[c.at..c.at + c.frames])
  }

  /** All live clips. */
  ghost function Library(clips: seq<Clip>, pool: seq<Frame>): set<Sound>
    requires Laid(clips, |pool|)
  {
    set i | 0 <= i < |clips| && clips[i].used :: SoundOf(clips[i], pool)
  }

  /** Frames in use. */
  function Live(clips: seq<Clip>): nat {
    if clips == [] then 0 else Live(clips[..|clips|-1]) + if clips[|clips|-1].used then clips[|clips|-1].frames else 0
  }

  // ---------------------------------------------------------------- sorting the slots

  /** Live clips come in the order of the pool. */
  ghost predicate Sorted(clips: seq<Clip>) {
    forall i, j :: 0 <= i < j < |clips| && clips[i].used && clips[j].used ==>
      clips[i].at + clips[i].frames <= clips[j].at
  }

  function Swapped(clips: seq<Clip>, a: nat, b: nat): seq<Clip>
    requires a < |clips| && b < |clips|
  {
    clips[a := clips[b]][b := clips[a]]
  }

  lemma SwapKeeps(clips: seq<Clip>, a: nat, b: nat, top: nat)
    requires a < b < |clips| && Laid(clips, top) && clips[a].used && clips[b].used
    ensures Laid(Swapped(clips, a, b), top)
    ensures forall i :: 0 <= i < |clips| ==> Swapped(clips, a, b)[i].used == clips[i].used
  {
    var s := Swapped(clips, a, b);
    forall i, j | 0 <= i < j < |s| && s[i].used && s[j].used ensures Apart(s[i], s[j]) {
      var x := if i == a then b else if i == b then a else i;
      var y := if j == a then b else if j == b then a else j;
      assert s[i] == clips[x] && s[j] == clips[y] && x != y;
      if x < y { assert Apart(clips[x], clips[y]); } else { assert Apart(clips[y], clips[x]); }
    }
  }

  lemma SwapLibrary(clips: seq<Clip>, a: nat, b: nat, pool: seq<Frame>)
    requires a < b < |clips| && Laid(clips, |pool|) && clips[a].used && clips[b].used
        && Laid(Swapped(clips, a, b), |pool|)
    ensures Library(Swapped(clips, a, b), pool) == Library(clips, pool)
  {
    var s := Swapped(clips, a, b);
    forall i | 0 <= i < |clips| && clips[i].used ensures SoundOf(clips[i], pool) in Library(s, pool) {
      var x := if i == a then b else if i == b then a else i;
      assert s[x] == clips[i];
    }
    forall i | 0 <= i < |clips| && s[i].used ensures SoundOf(s[i], pool) in Library(clips, pool) {
      var x := if i == a then b else if i == b then a else i;
      assert clips[x] == s[i];
    }
  }

  lemma {:induction false} LiveSwap(clips: seq<Clip>, a: nat, b: nat)
    requires a < b < |clips|
    ensures Live(Swapped(clips, a, b)) == Live(clips)
  {
    LiveSet(clips, a, clips[b]);
    LiveSet(clips[a := clips[b]], b, clips[a]);
  }

  function Weight(c: Clip): nat { if c.used then c.frames else 0 }

  lemma {:induction false} LiveSet(clips: seq<Clip>, i: nat, c: Clip)
    requires i < |clips|
    ensures Live(clips[i := c]) == Live(clips) - Weight(clips[i]) + Weight(c)
  {
    var n := |clips| - 1;
    if i == n {
      assert clips[i := c][..n] == clips[..n];
    } else {
      assert clips[i := c][..n] == clips[..n][i := c];
      LiveSet(clips[..n], i, c);
    }
  }

  // ---------------------------------------------------------------- sliding the clips down

  /** memmove of `n` frames. */
  function Moved(p: seq<Frame>, from: nat, to: nat, n: nat): (r: seq<Frame>)
    requires to <= from && from + n <= |p|
    ensures |r| == |p|
  {
    p[..to] + p[from..from + n] + p[to + n..]
  }

  /** The live clips before any in place at or behind slot `n` fit below it. */
  lemma {:induction false} LiveBelow(clips: seq<Clip>, n: nat, j: nat, top: nat)
    requires Laid(clips, top) && Sorted(clips) && n <= j < |clips| && clips[j].used
    ensures Live(clips[..n]) <= clips[j].at
  {
    if n > 0 {
      assert clips[..n][..n-1] == clips[..n-1];
      if clips[n-1].used {
        if n - 1 < j { LiveBelow(clips, n - 1, n - 1, top); }
      } else {
        LiveBelow(clips, n - 1, j, top);
      }
    }
  }

  /** Slots below `i` are slid down to lie end to end, the others are as they were. */
  ghost predicate Slid(c1: seq<Clip>, p1: seq<Frame>, c: seq<Clip>, p: seq<Frame>, i: nat)
    requires Laid(c1, |p1|)
  {
    && |c| == |c1| && |p| == |p1| && i <= |c|
    && (forall j :: 0 <= j < i && c1[j].used ==>
         Live(c1[..j]) + c1[j].frames <= Live(c1[..i]) <= |p| && c[j] == c1[j].(at := Live(c1[..j]))
                                                  && SoundOf(c[j], p) == SoundOf(c1[j], p1))
    && (forall j :: 0 <= j < i && !c1[j].used ==> c[j] == c1[j])
    && (forall j :: i <= j < |c| ==> c[j] == c1[j])
    && forall j :: i <= j < |c| && c1[j].used ==> SoundOf(c[j], p) == SoundOf(c1[j], p1)
  }

  /** A move down carries its frames, and leaves what lies below or above. */
  lemma MovedSlices(p: seq<Frame>, from: nat, to: nat, n: nat, a: nat, b: nat)
    requires to <= from && from + n <= |p| && a <= b <= |p|
    ensures Moved(p, from, to, n)[to..to + n] == p[from..from + n]
    ensures b <= to || from + n <= a ==> Moved(p, from, to, n)[a..b] == p[a..b]
  {
  }

  lemma MovedAt(p: seq<Frame>, from: nat, to: nat, n: nat, k: nat)
    requires to <= from && from + n <= |p| && k < |p|
    ensures Moved(p, from, to, n)[k] == if to <= k < to + n then p[from + (k - to)] else p[k]
  {
  }

  lemma MovedSelf(p: seq<Frame>, at: nat, n: nat)
    requires at + n <= |p|
    ensures Moved(p, at, at, n) == p
  {
  }

  lemma SlidNone(c: seq<Clip>, p: seq<Frame>)
    requires Laid(c, |p|)
    ensures Slid(c, p, c, p, 0)
  {
  }

  lemma LiveNext(clips: seq<Clip>, i: nat)
    requires i < |clips|
    ensures Live(clips[..i+1]) == Live(clips[..i]) + Weight(clips[i])
  {
    assert clips[..i+1][..i] == clips[..i];
  }

  lemma SlidSkip(c1: seq<Clip>, p1: seq<Frame>, c: seq<Clip>, p: seq<Frame>, i: nat)
    requires Laid(c1, |p1|) && Slid(c1, p1, c, p, i) && i < |c| && !c1[i].used
    ensures Slid(c1, p1, c, p, i + 1)
  {
    LiveNext(c1, i);
  }

  /** One clip slid down: it keeps its sound, and so do those below and above. */
  lemma SlidStep(c1: seq<Clip>, p1: seq<Frame>, c: seq<Clip>, p: seq<Frame>, i: nat)
    requires Laid(c1, |p1|) && Sorted(c1) && Slid(c1, p1, c, p, i) && i < |c| && c1[i].used
    ensures Live(c1[..i]) <= c1[i].at && c1[i].at + c1[i].frames <= |p|
    ensures Slid(c1, p1, c[i := c[i].(at := Live(c1[..i]))], Moved(p, c1[i].at, Live(c1[..i]), c1[i].frames), i + 1)
  {
    hide Live, Moved, SoundOf, Apart;
    LiveBelow(c1, i, i, |p1|);
    LiveNext(c1, i);
    var to, from, n := Live(c1[..i]), c1[i].at, c1[i].frames;
    var c', p' := c[i := c[i].(at := to)], Moved(p, from, to, n);
    SoundMoved(c[i], p, to);
    forall j | 0 <= j < |c| && j != i && c1[j].used
      ensures c[j].at + c[j].frames <= |p| && SoundOf(c[j], p') == SoundOf(c[j], p) {
      assert j < i || from + n <= c1[j].at;
      SoundKept(c[j], p, from, to, n);
    }
  }

  lemma SoundMoved(c: Clip, p: seq<Frame>, to: nat)
    requires to <= c.at && c.at + c.frames <= |p|
    ensures SoundOf(c.(at := to), Moved(p, c.at, to, c.frames)) == SoundOf(c, p)
  {
    MovedSlices(p, c.at, to, c.frames, to, to);
  }

  lemma SoundKept(c: Clip, p: seq<Frame>, from: nat, to: nat, n: nat)
    requires to <= from && from + n <= |p| && c.at + c.frames <= |p| && (c.at + c.frames <= to || from + n <= c.at)
    ensures SoundOf(c, Moved(p, from, to, n)) == SoundOf(c, p)
  {
    MovedSlices(p, from, to, n, c.at, c.at + c.frames);
  }

  /** Slid all the way down, the clips lie end to end from 0. */
  ghost predicate Packed(clips: seq<Clip>) {
    forall j :: 0 <= j < |clips| && clips[j].used ==> clips[j].at == Live(clips[..j])
  }

  lemma {:induction false} LivePrefix(a: seq<Clip>, b: seq<Clip>, n: nat)
    requires n <= |a| == |b| && forall j :: 0 <= j < n ==> Weight(a[j]) == Weight(b[j])
    ensures Live(a[..n]) == Live(b[..n])
  {
    if n > 0 {
      LivePrefix(a, b, n - 1);
      LiveNext(a, n - 1);
      LiveNext(b, n - 1);
    }
  }

  lemma {:induction false} LiveGrows(clips: seq<Clip>, i: nat, j: nat)
    requires i <= j <= |clips|
    ensures Live(clips[..i]) <= Live(clips[..j])
    decreases j
  {
    if i < j {
      LiveGrows(clips, i, j - 1);
      LiveNext(clips, j - 1);
    }
  }

  lemma SlidAll(c1: seq<Clip>, p1: seq<Frame>, c: seq<Clip>, p: seq<Frame>)
    requires Laid(c1, |p1|) && Slid(c1, p1, c, p, |c1|)
    ensures Live(c) == Live(c1) && Packed(c) && Laid(c, Live(c))
    ensures forall j :: 0 <= j < |c| ==> c[j].used == c1[j].used && (!c[j].used ==> c[j] == c1[j])
    ensures Live(c) <= |p| ==> Laid(c, |p|) && Library(c, p) == Library(c1, p1)
  {
    hide Live, Apart;
    assert c[..|c|] == c && c1[..|c|] == c1;
    forall j | 0 <= j <= |c| ensures Live(c[..j]) == Live(c1[..j]) { LivePrefix(c, c1, j); }
    forall i, j | 0 <= i < j < |c| && c[i].used && c[j].used ensures Apart(c[i], c[j]) {
      LiveNext(c1, i);
      LiveGrows(c1, i + 1, j);
      ApartIs(c1[i], c1[j], c[i], c[j]);
    }
    if Live(c) <= |p| { SlidSounds(c1, p1, c, p); }
  }

  lemma ApartIs(a1: Clip, b1: Clip, a: Clip, b: Clip)
    requires Apart(a1, b1) && a.name == a1.name && b.name == b1.name && a.at + a.frames <= b.at
    ensures Apart(a, b)
  {
  }

  lemma SlidSounds(c1: seq<Clip>, p1: seq<Frame>, c: seq<Clip>, p: seq<Frame>)
    requires Laid(c1, |p1|) && Slid(c1, p1, c, p, |c1|) && Laid(c, |p|)
    ensures Library(c, p) == Library(c1, p1)
  {
    hide Live, Apart;
    forall i | 0 <= i < |c| && c1[i].used
      ensures SoundOf(c1[i], p1) in Library(c, p) { assert SoundOf(c[i], p) == SoundOf(c1[i], p1); }
    forall i | 0 <= i < |c| && c[i].used
      ensures SoundOf(c[i], p) in Library(c1, p1) { assert SoundOf(c[i], p) == SoundOf(c1[i], p1); }
  }

  lemma {:induction false} LiveFits(clips: seq<Clip>, top: nat, n: nat)
    requires Laid(clips, top) && Sorted(clips) && n <= |clips|
    ensures Live(clips[..n]) <= top
  {
    if n > 0 {
      LiveNext(clips, n - 1);
      if clips[n-1].used { LiveBelow(clips, n - 1, n - 1, top); } else { LiveFits(clips, top, n - 1); }
    }
  }

  /** The sounds but the one called `name`. */
  ghost function Others(lib: set<Sound>, name: string): set<Sound> { set x | x in lib && x.name != name }

  /** The live clip called `name`, or the number of slots. */
  ghost predicate FoundAt(clips: seq<Clip>, name: string, i: nat) {
    && i <= |clips|
    && (i < |clips| ==> clips[i].used && clips[i].name == name)
    && forall j :: 0 <= j < i ==> !(clips[j].used && clips[j].name == name)
  }

  /** Frames in use by the clips of other names. */
  function LiveOthers(clips: seq<Clip>, name: string): nat {
    if clips == [] then 0 else
      var c := clips[|clips|-1];
      LiveOthers(clips[..|clips|-1], name) + if c.used && c.name != name then c.frames else 0
  }

  /**
   * When a clip can be made: the rate is legal, the name is taken or there are a legal name and a free
   * slot for it, and the frames fit behind the fill or, with playback stopped, beside the other clips.
   */
  predicate CanMake(clips: seq<Clip>, used: nat, cap: nat, name: string, rate: nat, frames: nat, playing: bool) {
    && 4000 <= rate <= 192000
    && ((exists i :: 0 <= i < |clips| && clips[i].used && clips[i].name == name)
        || (0 < |name| < CLIP_NAME && exists i :: 0 <= i < |clips| && !clips[i].used))
    && 0 < frames <= MAX_FRAMES
    && (used + frames <= cap || (!playing && LiveOthers(clips, name) + frames <= cap))
  }

  /** Without the frames of the clips called `name`, those of the others are left. */
  lemma {:induction false} LiveOthersIs(clips: seq<Clip>, name: string, left: seq<Clip>)
    requires |left| == |clips| && forall i :: 0 <= i < |clips| ==>
        Weight(left[i]) == if clips[i].used && clips[i].name != name then clips[i].frames else 0
    ensures LiveOthers(clips, name) == Live(left)
  {
    if clips != [] { LiveOthersIs(clips[..|clips|-1], name, left[..|clips|-1]); }
  }

  class ClipPool {
    const pool: array<Frame>
    const clips: array<Clip>
    var poolUsed: nat

    ghost predicate Valid()
      reads this, pool, clips
    {
      clips.Length == CLIP_MAX && poolUsed <= pool.Length && Laid(clips[..], poolUsed)
    }

    ghost function Sounds(): set<Sound>
      requires Valid()
      reads this, pool, clips
    {
      LaidTo(clips[..], poolUsed, pool.Length);
      Library(clips[..], pool[..])
    }

    constructor (cap: nat)
      ensures Valid() && Sounds() == {} && poolUsed == 0 && pool.Length == cap && fresh(pool) && fresh(clips)
    {
      pool := new Frame[cap](_ => SILENCE);
      clips := new Clip[CLIP_MAX](_ => Clip("", 0, 0, 0, false));
      poolUsed := 0;
    }

    /** clip_find (clip.c:336-347); the number of slots for none. */
    method Find(name: string) returns (i: nat)
      requires Valid()
      ensures FoundAt(clips[..], name, i)
    {
      if name == "" {
        return CLIP_MAX;
      }
      i := 0;
      while i < CLIP_MAX
        invariant 0 <= i <= CLIP_MAX && forall j :: 0 <= j < i ==> !(clips[j].used && clips[j].name == name)
      {
        if clips[i].used && clips[i].name == name {
          return;
        }
        i := i + 1;
      }
    }

    /** The sorting half of clip_compact: exchanges among the live slots (clip.c:361-372). */
    method SortSlots()
      requires Valid()
      modifies clips
      ensures Valid() && Sorted(clips[..]) && Sounds() == old(Sounds()) && Live(clips[..]) == old(Live(clips[..]))
      ensures forall j :: 0 <= j < CLIP_MAX ==>
          clips[j].used == old(clips[j].used) && (!clips[j].used ==> clips[j] == old(clips[j]))
    {
      hide Live, Library, Apart;
      ghost var used := old(clips[..]);
      var a := 0;
      while a < CLIP_MAX
        invariant 0 <= a <= CLIP_MAX && Valid() && Sounds() == old(Sounds()) && Live(clips[..]) == old(Live(clips[..]))
        invariant SameSlots(clips[..], used) && Least(clips[..], a)
      {
        var b := a + 1;
        while b < CLIP_MAX
          invariant a < b <= CLIP_MAX && Valid() && Sounds() == old(Sounds()) && Live(clips[..]) == old(Live(clips[..]))
          invariant SameSlots(clips[..], used) && Least(clips[..], a) && LeastUpTo(clips[..], a, b)
        {
          if clips[a].used && clips[b].used && clips[b].at < clips[a].at {
            LaidTo(clips[..], poolUsed, pool.Length);
            SwapKeeps(clips[..], a, b, poolUsed);
            SwapKeeps(clips[..], a, b, pool.Length);
            SwapLibrary(clips[..], a, b, pool[..]);
            LiveSwap(clips[..], a, b);
            ghost var was := clips[..];
            clips[a], clips[b] := clips[b], clips[a];
            assert clips[..] == Swapped(was, a, b);
            SwapLeast(was, a, b);
          }
          b := b + 1;
        }
        LeastNext(clips[..], a);
        a := a + 1;
      }
      LeastSorted(clips[..], poolUsed);
    }

    /** The sliding half (clip.c:373-386). */
    method SlideDown()
      requires Valid() && Sorted(clips[..])
      modifies clips, pool, this`poolUsed
      ensures Valid() && Sounds() == old(Sounds()) && Packed(clips[..])
          && poolUsed == Live(clips[..]) == old(Live(clips[..]))
      ensures forall j :: 0 <= j < CLIP_MAX ==>
          clips[j].used == old(clips[j].used) && (!clips[j].used ==> clips[j] == old(clips[j]))
    {
      hide Live, Library, Apart, Slid, Laid, Sorted, Moved;
      ghost var c1, p1 := clips[..], pool[..];
      LaidTo(c1, poolUsed, |p1|);
      SlidNone(c1, p1);
      LiveNone(c1);
      var dst, i := 0, 0;
      while i < CLIP_MAX
        invariant 0 <= i <= CLIP_MAX && dst == Live(c1[..i]) && clips.Length == CLIP_MAX
            && Slid(c1, p1, clips[..], pool[..], i)
      {
        LiveNext(c1, i);
        SlidHere(c1, p1, clips[..], pool[..], i);
        if clips[i].used {
          SlidStep(c1, p1, clips[..], pool[..], i);
          SlideOne(i, dst);
          dst := dst + clips[i].frames;
        } else {
          SlidSkip(c1, p1, clips[..], pool[..], i);
        }
        i := i + 1;
      }
      assert c1[..CLIP_MAX] == c1;
      LiveFits(c1, |p1|, CLIP_MAX);
      SlidAll(c1, p1, clips[..], pool[..]);
      poolUsed := dst;
      LaidTo(clips[..], poolUsed, pool.Length);
    }

    /** One turn of the sliding loop, on a live clip (clip.c:379-384). */
    method SlideOne(i: nat, dst: nat)
      requires i < clips.Length && dst <= clips[i].at && clips[i].at + clips[i].frames <= pool.Length
      modifies clips, pool
      ensures clips[..] == old(clips[..])[i := old(clips[i]).(at := dst)]
      ensures pool[..] == Moved(old(pool[..]), old(clips[i].at), dst, old(clips[i].frames))
    {
      hide Moved;
      var c := clips[i];
      if c.at != dst {
        MoveFrames(c.at, dst, c.frames);
        clips[i] := c.(at := dst);
      } else {
        MovedSelf(pool[..], dst, c.frames);
      }
    }

    method MoveFrames(from: nat, to: nat, n: nat)
      requires to <= from && from + n <= pool.Length
      modifies pool
      ensures pool[..] == Moved(old(pool[..]), from, to, n)
    {
      hide Moved;
      ghost var was := pool[..];
      forall k | 0 <= k < n { pool[to + k] := pool[from + k]; }
      forall k | 0 <= k < pool.Length ensures pool[k] == Moved(was, from, to, n)[k] { MovedAt(was, from, to, n, k); }
    }

    /** clip_compact (clip.c:359-387). */
    method Compact()
      requires Valid()
      modifies clips, pool, this`poolUsed
      ensures Valid() && Sounds() == old(Sounds()) && Packed(clips[..])
          && poolUsed == Live(clips[..]) == old(Live(clips[..]))
      ensures forall j :: 0 <= j < CLIP_MAX ==>
          clips[j].used == old(clips[j].used) && (!clips[j].used ==> clips[j] == old(clips[j]))
    {
      hide Live, Library, Apart, Laid, Sorted, Packed;
      SortSlots();
      SlideDown();
    }

    /**
     * pool_alloc (clip.c:393-416): frames behind all live clips. With playback stopped and a legal
     * length it fails only when the live frames and the request exceed the pool.
     */
    method PoolAlloc(frames: nat, playing: bool) returns (ok: bool, at: nat)
      requires Valid()
      modifies clips, pool, this`poolUsed
      ensures Valid() && Sounds() == old(Sounds())
      ensures ok <==> 0 < frames <= MAX_FRAMES
                      && (old(poolUsed) + frames <= pool.Length
                           || (!playing && old(Live(clips[..])) + frames <= pool.Length))
      ensures ok ==> at + frames == poolUsed && Laid(clips[..], at)
      ensures forall j :: 0 <= j < CLIP_MAX ==>
          clips[j].used == old(clips[j].used) && (!clips[j].used ==> clips[j] == old(clips[j]))
    {
      hide Live, Library, Laid, Packed;
      ok, at := false, 0;
      if frames == 0 || frames > MAX_FRAMES {
        return;
      }
      if poolUsed + frames > pool.Length {
        if playing {
          return;
        }
        Compact();
        if poolUsed + frames > pool.Length {
          return;
        }
      }
      at := poolUsed;
      LaidTo(clips[..], at, at + frames);
      poolUsed := poolUsed + frames;
      ok := true;
    }

    /** clip_slot (clip.c:419-428); the number of slots for none. */
    method FreeSlot() returns (i: nat)
      requires Valid()
      ensures i <= CLIP_MAX && (i < CLIP_MAX ==> !clips[i].used) && forall j :: 0 <= j < i ==> clips[j].used
    {
      i := 0;
      while i < CLIP_MAX
        invariant 0 <= i <= CLIP_MAX && forall j :: 0 <= j < i ==> clips[j].used
      {
        if !clips[i].used {
          return;
        }
        i := i + 1;
      }
    }

    /**
     * clip_make (clip.c:446-479): silence under a name, replacing what was there. Every other clip
     * keeps its rate and its samples; a failed make loses at most the clip it was to replace.
     */
    method Make(name: string, rate: nat, frames: nat, playing: bool) returns (ok: bool, i: nat)
      requires Valid()
      modifies clips, pool, this`poolUsed
      ensures Valid()
      ensures ok <==> CanMake(old(clips[..]), old(poolUsed), pool.Length, name, rate, frames, playing)
      ensures ok ==>
          Sounds() == WithSilence(old(Sounds()), name, rate, frames) && i < CLIP_MAX && clips[i].used
            && clips[i].name == name
      ensures !ok ==> Sounds() == if 4000 <= rate <= 192000 then Others(old(Sounds()), name) else old(Sounds())
    {
      hide Live, Library, Laid, Apart, Others, WithSilence, LiveOthers;
      ok, i := false, CLIP_MAX;
      ghost var was, used := clips[..], poolUsed;
      if rate < 4000 || rate > 192000 {
        return;
      }
      i := Find(name);
      if i < CLIP_MAX {
        Drop(i, name);
        LiveDropped(was, poolUsed, name, i, clips[i]);
      } else {
        NotFound(clips[..], pool[..], name, i, poolUsed);
        i := FreeSlot();
        if i == CLIP_MAX || name == "" || |name| >= CLIP_NAME {
          return;
        }
        Label(i, name);
        LiveLabelled(was, name, i, clips[i]);
      }
      OthersTwice(old(Sounds()), name, rate, frames);
      var at;
      ok, at := PoolAlloc(frames, playing);
      if !ok {
        return;
      }
      UnnamedStill(clips[..], pool[..], name, at, poolUsed);
      Fill(i, Clip(name, rate, frames, at, true));
    }

    /** The old clip goes (clip.c:453-456). */
    method Drop(i: nat, ghost name: string)
      requires Valid() && i < CLIP_MAX && FoundAt(clips[..], name, i)
      modifies clips
      ensures Valid() && Sounds() == Others(old(Sounds()), name) && !clips[i].used && name != ""
      ensures clips[..] == old(clips[..])[i := clips[i]]
    {
      hide Apart, Library, Others, Laid;
      ghost var was := clips[..];
      NamedClip(was, poolUsed, i);
      LaidTo(was, poolUsed, pool.Length);
      var c := clips[i].(used := false, at := 0, frames := 0);
      DropLibrary(was, pool[..], i, c, poolUsed);
      clips[i] := c;
      assert clips[..] == was[i := c];
    }

    /** clip_set_name on a free slot (clip.c:462-464). */
    method Label(i: nat, name: string)
      requires Valid() && i < CLIP_MAX && !clips[i].used
      modifies clips
      ensures Valid() && Sounds() == old(Sounds()) && !clips[i].used
      ensures clips[..] == old(clips[..])[i := clips[i]]
    {
      hide Apart, Library, Laid;
      ghost var was := clips[..];
      LaidTo(was, poolUsed, pool.Length);
      UnusedSlot(was, pool[..], i, clips[i].(name := name), poolUsed);
      clips[i] := clips[i].(name := name);
      assert clips[..] == was[i := was[i].(name := name)];
    }

    /** The new clip, silent (clip.c:470-474). */
    method Fill(i: nat, c: Clip)
      requires Valid() && i < CLIP_MAX && !clips[i].used && c.used && c.frames > 0 && c.name != ""
          && c.at + c.frames == poolUsed
      requires Laid(clips[..], c.at) && Unnamed(clips[..], c.name)
      modifies clips, pool
      ensures Valid() && Sounds() == WithSilence(old(Sounds()), c.name, c.rate, c.frames) && clips[i] == c
    {
      hide Apart, Library, Laid, Silenced, WithSilence, Unnamed;
      ghost var was, heard := clips[..], pool[..];
      LaidTo(was, c.at, pool.Length);
      AddLibrary(was, heard, c.at, i, c);
      Silence(c.at, c.frames);
      clips[i] := c;
      assert clips[..] == was[i := c];
    }

    method Silence(at: nat, n: nat)
      requires at + n <= pool.Length
      modifies pool
      ensures pool[..] == Silenced(old(pool[..]), at, n)
    {
      forall k | at <= k < at + n { pool[k] := SILENCE; }
    }
  }

  /** With the clip called `name` dropped, the frames in use are those of the others. */
  lemma LiveDropped(clips: seq<Clip>, top: nat, name: string, i: nat, c: Clip)
    requires Laid(clips, top) && FoundAt(clips, name, i) && i < |clips| && !c.used
    ensures Live(clips[i := c]) == LiveOthers(clips, name)
  {
    hide Live, LiveOthers;
    forall j | i < j < |clips| && clips[j].used ensures clips[j].name != name { assert Apart(clips[i], clips[j]); }
    LiveOthersIs(clips, name, clips[i := c]);
  }

  /** With a free slot labelled, where no clip is called `name`, all frames in use are those of others. */
  lemma LiveLabelled(clips: seq<Clip>, name: string, i: nat, c: Clip)
    requires FoundAt(clips, name, |clips|) && i < |clips| && !clips[i].used && !c.used
    ensures Live(clips[i := c]) == LiveOthers(clips, name)
  {
    hide Live, LiveOthers;
    LiveOthersIs(clips, name, clips[i := c]);
  }

  /** Without a clip of that name, all are others. */
  lemma NotFound(clips: seq<Clip>, pool: seq<Frame>, name: string, i: nat, top: nat)
    requires Laid(clips, top) && top <= |pool| && FoundAt(clips, name, i) && i == |clips|
    ensures Laid(clips, |pool|) && Others(Library(clips, pool), name) == Library(clips, pool)
  {
    hide Apart;
  }

  lemma OthersTwice(lib: set<Sound>, name: string, rate: nat, frames: nat)
    ensures Others(Others(lib, name), name) == Others(lib, name)
    ensures WithSilence(Others(lib, name), name, rate, frames) == WithSilence(lib, name, rate, frames)
  {
  }

  lemma NamedClip(clips: seq<Clip>, top: nat, i: nat)
    requires Laid(clips, top) && i < |clips| && clips[i].used
    ensures clips[i].name != ""
  {
  }

  /** Nothing in the library has a name that was dropped from it. */
  lemma UnnamedStill(clips: seq<Clip>, pool: seq<Frame>, name: string, at: nat, top: nat)
    requires Laid(clips, top) && top <= |pool|
    ensures Laid(clips, |pool|) && (Others(Library(clips, pool), name) == Library(clips, pool) ==> Unnamed(clips, name))
  {
    hide Apart;
    forall j | 0 <= j < |clips| && clips[j].used
      ensures SoundOf(clips[j], pool) in Library(clips, pool) && SoundOf(clips[j], pool).name == clips[j].name {}
  }

  /** What making `name` leaves: the other sounds, and silence under that name. */
  ghost function WithSilence(lib: set<Sound>, name: string, rate: nat, frames: nat): set<Sound> {
    Others(lib, name) + {Sound(name, rate, seq(frames, _ => SILENCE))}
  }

  /** Marking the slot of `name` unused leaves the other sounds. */
  lemma DropLibrary(clips: seq<Clip>, pool: seq<Frame>, i: nat, c: Clip, top: nat)
    requires Laid(clips, |pool|) && Laid(clips, top) && i < |clips| && clips[i].used && !c.used
    ensures Laid(clips[i := c], |pool|) && Laid(clips[i := c], top)
    ensures Library(clips[i := c], pool) == Others(Library(clips, pool), clips[i].name)
  {
    var s := clips[i := c];
    forall j | 0 <= j < |clips| && clips[j].used && j != i
      ensures SoundOf(clips[j], pool) in Library(s, pool) && clips[j].name != clips[i].name {
      assert s[j] == clips[j];
      if j < i { assert Apart(clips[j], clips[i]); } else { assert Apart(clips[i], clips[j]); }
    }
    forall j | 0 <= j < |s| && s[j].used
      ensures SoundOf(s[j], pool) in Library(clips, pool) && s[j].name != clips[i].name {
      assert s[j] == clips[j];
      if j < i { assert Apart(clips[j], clips[i]); } else { assert Apart(clips[i], clips[j]); }
    }
  }

  /** An unused slot changed is not heard. */
  lemma UnusedSlot(clips: seq<Clip>, pool: seq<Frame>, i: nat, c: Clip, top: nat)
    requires Laid(clips, |pool|) && Laid(clips, top) && i < |clips| && !clips[i].used && !c.used
    ensures Laid(clips[i := c], |pool|) && Laid(clips[i := c], top)
        && Library(clips[i := c], pool) == Library(clips, pool)
  {
    var s := clips[i := c];
    forall j | 0 <= j < |clips| && clips[j].used
      ensures SoundOf(clips[j], pool) in Library(s, pool) { assert s[j] == clips[j]; }
    forall j | 0 <= j < |s| && s[j].used
      ensures SoundOf(s[j], pool) in Library(clips, pool) { assert s[j] == clips[j]; }
  }

  /** `n` frames from `at` on silenced. */
  function Silenced(p: seq<Frame>, at: nat, n: nat): (r: seq<Frame>)
    requires at + n <= |p|
    ensures |r| == |p|
  {
    p[..at] + seq(n, _ => SILENCE) + p[at + n..]
  }

  /** No live clip is called `name`. */
  ghost predicate Unnamed(clips: seq<Clip>, name: string) {
    forall j :: 0 <= j < |clips| && clips[j].used ==> clips[j].name != name
  }

  /** A clip of silence behind all others joins the library. */
  lemma AddLibrary(clips: seq<Clip>, pool: seq<Frame>, top: nat, i: nat, c: Clip)
    requires Laid(clips, top) && Laid(clips, |pool|) && i < |clips| && !clips[i].used && c.used && c.frames > 0
        && c.name != ""
    requires c.at == top && top + c.frames <= |pool| && Unnamed(clips, c.name)
    ensures Laid(clips[i := c], top + c.frames) && Laid(clips[i := c], |pool|)
    ensures Library(clips[i := c], Silenced(pool, top, c.frames)) ==
        WithSilence(Library(clips, pool), c.name, c.rate, c.frames)
  {
    var s, p := clips[i := c], Silenced(pool, top, c.frames);
    assert p[top..top + c.frames] == seq(c.frames, _ => SILENCE);
    forall j | 0 <= j < |clips| && clips[j].used
      ensures s[j] == clips[j] && SoundOf(s[j], p) == SoundOf(clips[j], pool) {
      assert p[clips[j].at..clips[j].at + clips[j].frames] == pool[clips[j].at..clips[j].at + clips[j].frames];
    }
    forall x, y | 0 <= x < y < |s| && s[x].used && s[y].used ensures Apart(s[x], s[y]) {
      if x != i && y != i { assert Apart(clips[x], clips[y]); }
    }
    assert SoundOf(s[i], p) == Sound(c.name, c.rate, seq(c.frames, _ => SILENCE));
    AddSounds(clips, pool, s, p, i, c);
  }

  lemma AddSounds(clips: seq<Clip>, pool: seq<Frame>, s: seq<Clip>, p: seq<Frame>, i: nat, c: Clip)
    requires Laid(clips, |pool|) && Laid(s, |p|) && |s| == |clips| && i < |s| && s[i] == c && !clips[i].used && c.used
        && Unnamed(clips, c.name)
    requires SoundOf(c, p) == Sound(c.name, c.rate, seq(c.frames, _ => SILENCE))
    requires forall j :: 0 <= j < |s| && j != i ==> s[j].used == clips[j].used
    requires forall j :: 0 <= j < |clips| && clips[j].used ==> SoundOf(s[j], p) == SoundOf(clips[j], pool)
    ensures Library(s, p) == WithSilence(Library(clips, pool), c.name, c.rate, c.frames)
  {
    hide Apart;
    forall j | 0 <= j < |s| && s[j].used
      ensures SoundOf(s[j], p) in WithSilence(Library(clips, pool), c.name, c.rate, c.frames) {
      if j != i { assert SoundOf(clips[j], pool) in Library(clips, pool); }
    }
    forall x | x in WithSilence(Library(clips, pool), c.name, c.rate, c.frames) ensures x in Library(s, p) {
      if x in Library(clips, pool) {
        var j :| 0 <= j < |clips| && clips[j].used && SoundOf(clips[j], pool) == x;
        assert SoundOf(s[j], p) == x;
      } else {
        assert SoundOf(s[i], p) == x;
      }
    }
  }

  lemma LaidTo(clips: seq<Clip>, top: nat, more: nat)
    requires Laid(clips, top) && top <= more
    ensures Laid(clips, more)
  {
    hide Apart;
  }

  lemma LiveNone(clips: seq<Clip>)
    ensures Live(clips[..0]) == 0
  {
  }

  ghost predicate SameSlots(c: seq<Clip>, c0: seq<Clip>) {
    |c| == |c0| && forall j :: 0 <= j < |c| ==> c[j].used == c0[j].used && (!c[j].used ==> c[j] == c0[j])
  }

  /** Each live clip in the first `a` slots starts no later than any behind it. */
  ghost predicate Least(c: seq<Clip>, a: nat) {
    forall i, j :: 0 <= i < a && i < j < |c| && c[i].used && c[j].used ==> c[i].at <= c[j].at
  }

  ghost predicate LeastUpTo(c: seq<Clip>, a: nat, b: nat) {
    a < |c| && forall j :: a < j < b && j < |c| && c[a].used && c[j].used ==> c[a].at <= c[j].at
  }

  lemma SwapLeast(c: seq<Clip>, a: nat, b: nat)
    requires a < b < |c| && c[a].used && c[b].used && c[b].at < c[a].at && Least(c, a) && LeastUpTo(c, a, b)
    ensures Least(Swapped(c, a, b), a) && LeastUpTo(Swapped(c, a, b), a, b + 1)
  {
  }

  lemma LeastNext(c: seq<Clip>, a: nat)
    requires Least(c, a) && LeastUpTo(c, a, |c|)
    ensures Least(c, a + 1)
  {
  }

  lemma LeastSorted(c: seq<Clip>, top: nat)
    requires Laid(c, top) && Least(c, |c|)
    ensures Sorted(c)
  {
    forall i, j | 0 <= i < j < |c| && c[i].used && c[j].used
      ensures c[i].at + c[i].frames <= c[j].at { assert Apart(c[i], c[j]); }
  }

  lemma SlidHere(c1: seq<Clip>, p1: seq<Frame>, c: seq<Clip>, p: seq<Frame>, i: nat)
    requires Laid(c1, |p1|) && Slid(c1, p1, c, p, i) && i < |c1|
    ensures |c| == |c1| && c[i] == c1[i]
  {
  }
}
