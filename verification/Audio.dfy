/**
 * The looping PCM source, the limiter, and the one-pole filters (kernel/src/audio.c:138-263,
 * 463-487; kernel/src/clip.c:899-944). Samples are 16-bit; `>>` on signed values floors, and
 * `/` truncates.
 */
module Audio {
  import opened Clips
  import opened Waves

  // ---------------------------------------------------------------- the PCM source

  datatype Play = Stopped | Playing | Stopping

  /** Engine frames are read at 16.16 positions; a play of `frames` frames spans this much. */
  function Span(frames: nat): nat { frames * 0x1_0000 }

  /** The frame a play of `pcm`, looped, gives at position `pos`. */
  function Looped(pcm: seq<Frame>, pos: nat): Frame
    requires pcm != []
  {
    var i := pos % Span(|pcm|) / 0x1_0000;
    LoopedIn(|pcm|, pos);
    pcm[i]
  }

  lemma LoopedIn(n: nat, pos: nat)
    requires n > 0
    ensures pos % Span(n) / 0x1_0000 < n
  {
  }

  /** Taking whole spans off a position does not move it in the loop. */
  lemma SpansOff(pos: nat, span: nat, k: nat, frac: nat)
    requires span > 0 && pos == frac + k * span && frac < span
    ensures pos % span == frac
  {
    var q, r := pos / span, pos % span;
    assert pos == q * span + r;
    if q > k { SpanMore(q, k, span); } else if q < k { SpanMore(k, q, span); }
  }

  lemma {:induction false} SpanMore(a: nat, b: nat, span: nat)
    requires a > b
    ensures a * span >= b * span + span
    decreases a
  {
    if a > b + 1 { SpanMore(a - 1, b, span); }
    assert a * span == (a - 1) * span + span;
  }

  /** After `calls` frames at `step`, `k` whole spans have been taken off the position. */
  ghost predicate Wrapped(calls: nat, step: nat, frac: nat, span: nat, k: nat) { calls * step == frac + k * span }

  lemma WrappedNext(calls: nat, step: nat, frac: nat, span: nat, k: nat)
    requires Wrapped(calls, step, frac, span, k)
    ensures Wrapped(calls + 1, step, frac + step, span, k)
  {
    assert (calls + 1) * step == calls * step + step;
  }

  lemma WrappedOff(calls: nat, step: nat, frac: nat, span: nat, k: nat)
    requires Wrapped(calls, step, frac, span, k) && frac >= span
    ensures Wrapped(calls, step, frac - span, span, k + 1)
  {
    assert (k + 1) * span == k * span + span;
  }

  /** Within the loop: the frame at the position is the one the play has there. */
  lemma WrappedIn(pcm: seq<Frame>, calls: nat, step: nat, frac: nat, k: nat)
    requires pcm != [] && Wrapped(calls, step, frac, Span(|pcm|), k) && frac < Span(|pcm|)
    ensures frac / 0x1_0000 < |pcm| && Looped(pcm, calls * step) == pcm[frac / 0x1_0000]
    ensures forall n: nat :: k < n ==> calls * step < n * Span(|pcm|)
  {
    SpansOff(calls * step, Span(|pcm|), k, frac);
    forall n: nat | k < n ensures calls * step < n * Span(|pcm|) { SpanMore(n, k, Span(|pcm|)); }
  }

  /** The 32-bit frame index is in the loop exactly when the position is. */
  lemma IndexIs(frac: nat, n: nat)
    requires frac < 0x1_0000_0000_0000
    ensures frac / 0x1_0000 % 0x1_0000_0000 == frac / 0x1_0000 && (frac / 0x1_0000 < n <==> frac < Span(n))
    ensures n > 0 ==> Span(n) > 0
  {
  }

  lemma WrappedPast(calls: nat, step: nat, frac: nat, span: nat, k: nat)
    requires Wrapped(calls, step, frac, span, k) && frac >= span
    ensures calls * step >= (k + 1) * span
  {
    assert (k + 1) * span == k * span + span;
  }

  class Engine {
    var play: Play
    var pcm: seq<Frame>
    var frac: nat
    var step: nat
    var loops: int
    // Frames played so far, the loops asked for, and the spans taken off the position.
    ghost var calls: nat
    ghost var asked: int
    ghost var off: nat

    // An output tap that records what is played.
    const rec: array<Frame>
    var recOn: bool
    var recIndex: nat
    var recOwn: bool

    /** Positions fit 16.16 in 48 bits, so the 32-bit frame index does not wrap. */
    ghost predicate Valid()
      reads this
    {
      && step >= 1 && Span(|pcm|) + step < 0x1_0000_0000_0000 && recIndex <= rec.Length
      && (pcm != [] ==>
            && (loops < 0 <==> asked < 0) && (asked >= 0 ==> loops >= 1 && off == asked - loops)
            && frac < Span(|pcm|) + step && Wrapped(calls, step, frac, Span(|pcm|), off))
    }

    constructor (rec: array<Frame>)
      ensures Valid() && play == Stopped && pcm == [] && this.rec == rec
    {
      this.rec := rec;
      play, pcm, frac, step, loops := Stopped, [], 0, 1, 1;
      calls, asked, off := 0, 1, 0;
      recOn, recIndex, recOwn := false, 0, false;
    }

    /** audio_play_pcm's state set-up (audio.c:463-487); `sampleRate` is the engine's. */
    method PlayPcm(clip: seq<Frame>, rate: nat, n: int, sampleRate: nat) returns (ok: bool)
      requires Valid() && sampleRate > 0 && Span(|clip|) + rate * 0x1_0000 / sampleRate + 1 < 0x1_0000_0000_0000
      modifies this`play, this`pcm, this`frac, this`step, this`loops, this`calls, this`asked, this`off
      ensures Valid() && (ok <==> clip != [] && rate != 0)
      ensures ok ==>
          play == Playing && pcm == clip && calls == 0 && asked == (if n < 0 then -1 else if n == 0 then 1 else n)
      ensures ok ==> step == if rate * 0x1_0000 / sampleRate == 0 then 1 else rate * 0x1_0000 / sampleRate
    {
      if clip == [] || rate == 0 {
        play := Stopped;
        return false;
      }
      pcm, frac := clip, 0;
      Floor(rate * 0x1_0000, sampleRate);
      step := rate * 0x1_0000 / sampleRate;
      if step == 0 {
        step := 1;
      }
      loops := if n < 0 then -1 else if n == 0 then 1 else n;
      calls, asked, off := 0, loops, 0;
      play := Playing;
      ok := true;
    }

    /** rec_tap (audio.c:138-152). */
    method RecTap(f: Frame)
      requires recIndex <= rec.Length
      modifies rec, this`recOn, this`recIndex, this`play
      ensures recIndex <= rec.Length
      ensures if old(recOn) && old(recIndex) < rec.Length then recIndex == old(recIndex) + 1
          && rec[..] == old(rec[..])[old(recIndex) := f]
              else recIndex == old(recIndex) && rec[..] == old(rec[..])
      ensures play == old(play) || play == Stopping
    {
      if !recOn || recIndex >= rec.Length {
        return;
      }
      rec[recIndex] := f;
      recIndex := recIndex + 1;
      if recIndex >= rec.Length {
        recOn := false;
        if recOwn {
          play := Stopping;
        }
      }
    }

    /**
     * engine_frame for a PCM source (audio.c:155-193). Call number `calls` of a play gives the
     * sample at that many steps into the loop, exactly while that is short of the loops asked
     * for; from then on it gives silence, and the play is stopping. The frame is recorded too.
     */
    method Next() returns (f: Frame)
      requires Valid() && play != Stopped && pcm != []
      modifies rec, this`recOn, this`recIndex, this`play, this`frac, this`loops, this`calls, this`off
      ensures Valid() && play != Stopped
      ensures if asked < 0 || old(calls) * step < asked * Span(|pcm|)
              then f == Looped(pcm, old(calls) * step) && calls == old(calls) + 1
              else f == SILENCE && calls == old(calls) && play == Stopping
      ensures old(recOn) && old(recIndex) < rec.Length ==>
          recIndex == old(recIndex) + 1 && rec[..] == old(rec[..])[old(recIndex) := f]
    {
      hide Looped, Wrapped, Span;
      var span := Span(|pcm|);
      while true
        invariant Valid() && play == old(play) && calls == old(calls)
        invariant unchanged(rec) && unchanged(`recOn) && unchanged(`recIndex)
        decreases frac
      {
        var si := frac / 0x1_0000 % 0x1_0000_0000;
        IndexIs(frac, |pcm|);
        if si < |pcm| {
          f := pcm[si];
          WrappedIn(pcm, calls, step, frac, off);
          WrappedNext(calls, step, frac, span, off);
          frac := frac + step;
          calls := calls + 1;
          RecTap(f);
          return;
        }
        if loops >= 0 && loops <= 1 {
          break;
        }
        WrappedOff(calls, step, frac, span, off);
        if loops > 1 {
          loops := loops - 1;
        }
        frac := frac - span;
        off := off + 1;
      }
      WrappedPast(calls, step, frac, span, off);
      f := SILENCE;
      RecTap(f);
      play := Stopping;
    }
  }

  // ---------------------------------------------------------------- the limiter

  const FULL: int := 65536
  const CEILING: int := 30000
  const INT32: int := 0x8000_0000

  function Abs(x: int): nat { if x < 0 then -x else x }

  /** C's division: toward zero. */
  function Quotient(a: int, b: int): int
    requires b > 0
  {
    if a < 0 then -((-a) / b) else a / b
  }

  /** Fits a signed 32-bit word. */
  predicate Word32(x: int) { -INT32 <= x < INT32 }

  /** The gain for a peak above the ceiling brings it down to the ceiling. */
  lemma GainFits(a: int, p: int, gain: int)
    requires Abs(a) <= p <= 32768 && 0 <= gain <= FULL && (p > CEILING ==> gain <= CEILING * FULL / p)
    ensures -CEILING * FULL <= a * gain <= CEILING * FULL && Word32(a * gain)
    ensures -CEILING <= a * gain / FULL <= CEILING
  {
    var m := if p > CEILING then p else CEILING;
    assert m * gain <= CEILING * FULL by {
      if p > CEILING {
        assert CEILING * FULL / p * p <= CEILING * FULL;
        MulUp(gain, CEILING * FULL / p, p);
      } else {
        MulUp(gain, FULL, CEILING);
      }
    }
    if a >= 0 {
      MulUp(a, m, gain);
      MulPos(a, gain);
    } else {
      MulUp(-a, m, gain);
      MulPos(-a, gain);
      assert (-a) * gain == -(a * gain);
    }
  }

  lemma MulUp(a: int, b: int, c: int)
    requires a <= b && c >= 0
    ensures a * c <= b * c && c * a <= c * b
  {
    assert (b - a) * c >= 0;
  }

  lemma MulPos(a: int, b: int)
    requires a >= 0 && b >= 0
    ensures a * b >= 0
  {
  }

  lemma VolumeFits(a: int, bound: nat, vol: nat)
    requires Abs(a) <= bound <= 32768 && vol <= 100
    ensures Word32(a * vol) && Abs(Quotient(a * vol, 100)) <= bound * vol / 100 <= bound
  {
    if a >= 0 {
      MulUp(a, bound, vol);
      MulPos(a, vol);
    } else {
      MulUp(-a, bound, vol);
      MulPos(-a, vol);
      assert (-a) * vol == -(a * vol);
    }
    MulUp(vol, 100, bound);
  }

  class Limiter {
    var on: bool
    var gain: int
    var volume: nat

    ghost predicate Valid()
      reads this
    {
      60000 <= gain <= FULL && volume <= 100
    }

    constructor (volume: nat)
      requires volume <= 100
      ensures Valid() && gain == FULL && this.volume == volume
    {
      on, gain, this.volume := false, FULL, volume;
    }

    /**
     * process_out (audio.c:211-251), without its meter. The gain stays in [60000, 65536], no 32-bit
     * product overflows, and a limited frame never exceeds 30000 times the volume.
     */
    method ProcessOut(f: Frame) returns (r: Frame)
      requires Valid() && Sampled(f)
      modifies this`gain
      ensures Valid() && Sampled(r)
      ensures on ==> Abs(r.left) <= CEILING * volume / 100 && Abs(r.right) <= CEILING * volume / 100
      ensures !on ==> r == Frame(Quotient(f.left * volume, 100), Quotient(f.right * volume, 100)) && gain == old(gain)
      ensures on ==> var p := if Abs(f.right) > Abs(f.left) then Abs(f.right) else Abs(f.left);
                     gain == if p > CEILING then (if CEILING * FULL / p < old(gain) then CEILING * FULL / p
                       else old(gain))
                             else if old(gain) + 128 > FULL then FULL else old(gain) + 128
    {
      hide Quotient;
      var a, b := f.left, f.right;
      ghost var bound := 32768;
      if on {
        var p := Abs(a);
        if Abs(b) > p {
          p := Abs(b);
        }
        if p > CEILING {
          WantFits(p);
          var want := CEILING * FULL / p;
          if want < gain {
            gain := want;
          }
        } else if gain < FULL {
          gain := gain + 128;
          if gain > FULL {
            gain := FULL;
          }
        }
        GainFits(a, p, gain);
        GainFits(b, p, gain);
        a, b := a * gain / FULL, b * gain / FULL;
        bound := CEILING;
      }
      VolumeFits(a, bound, volume);
      VolumeFits(b, bound, volume);
      ClampIdle(a, volume);
      ClampIdle(b, volume);
      a, b := Quotient(a * volume, 100), Quotient(b * volume, 100);
      a, b := Clamp16(a), Clamp16(b);
      r := Frame(a, b);
    }

    /** No sample is louder than 32768, so no gain is below 60000. */
    static lemma WantFits(p: int)
      requires CEILING < p <= 32768
      ensures 60000 <= CEILING * FULL / p <= FULL
    {
      var w := CEILING * FULL / p;
      assert w * p <= CEILING * FULL < w * p + p;
      if w < 60000 { MulUp(w + 1, 60000, p); }
      if w > FULL { MulUp(FULL + 1, w, p); }
    }

    /** The final clamp never acts. */
    static lemma ClampIdle(a: int, vol: nat)
      requires -32768 <= a <= 32767 && vol <= 100
      ensures Clamp16(Quotient(a * vol, 100)) == Quotient(a * vol, 100)
    {
      if a >= 0 {
        MulUp(vol, 100, a);
        MulPos(a, vol);
      } else {
        MulUp(vol, 100, -a);
        MulPos(-a, vol);
        assert (-a) * vol == -(a * vol);
      }
    }
  }

  /** clamp16 (clip.c:57-66). */
  function Clamp16(x: int): (r: int)
    ensures -32768 <= r <= 32767 && (-32768 <= x <= 32767 ==> r == x)
  {
    if x > 32767 then 32767 else if x < -32768 then -32768 else x
  }

  // ---------------------------------------------------------------- one-pole filters

  /** One step of the state: toward the input, by `a` in 32768. */
  function Pole(y: int, x: int, a: int): int { y + (x - y) * a / 32768 }

  /** The state never leaves the interval from the old state to the input, and nothing overflows. */
  lemma PoleBetween(y: int, x: int, a: int)
    requires -32768 <= y <= 32767 && -32768 <= x <= 32767 && 0 <= a <= 32767
    ensures Abs(x - y) * a <= 65535 * 32767 < INT32 && Word32((x - y) * a)
    ensures if y <= x then y <= Pole(y, x, a) <= x else x <= Pole(y, x, a) <= y
  {
    var d := x - y;
    MulUp(Abs(d), 65535, a);
    MulUp(a, 32767, 65535);
    if d >= 0 {
      MulPos(d, a);
      MulUp(a, 32768, d);
    } else {
      MulPos(-d, a);
      MulUp(a, 32768, -d);
      assert (-d) * a == -(d * a);
    }
  }

  /** The state after the first `n` samples of a channel. */
  function State(xs: seq<int>, a: int, n: nat): int
    requires n <= |xs|
  {
    if n == 0 then 0 else Pole(State(xs, a, n - 1), xs[n-1], a)
  }

  /** A filter's state stays within any interval that holds 0 and its inputs. */
  lemma {:induction false} StateBounds(xs: seq<int>, a: int, n: nat, lo: int, hi: int)
    requires n <= |xs| && 0 <= a <= 32767 && -32768 <= lo <= 0 <= hi <= 32767
    requires forall i :: 0 <= i < |xs| ==> lo <= xs[i] <= hi
    ensures lo <= State(xs, a, n) <= hi
  {
    hide Pole;
    if n > 0 {
      StateBounds(xs, a, n - 1, lo, hi);
      PoleBetween(State(xs, a, n - 1), xs[n-1], a);
    }
  }

  function Lefts(fs: seq<Frame>): (r: seq<int>)
    ensures |r| == |fs| && forall i :: 0 <= i < |fs| ==> r[i] == fs[i].left
  {
    seq(|fs|, i requires 0 <= i < |fs| => fs[i].left)
  }

  function Rights(fs: seq<Frame>): (r: seq<int>)
    ensures |r| == |fs| && forall i :: 0 <= i < |fs| ==> r[i] == fs[i].right
  {
    seq(|fs|, i requires 0 <= i < |fs| => fs[i].right)
  }

  function AtLeast1(n: nat): nat { if n < 1 then 1 else n }

  /** The 32-bit sum both filters divide by; it can wrap to 0, and then the division faults. */
  function Divisor(hz: nat, rate: nat): nat { (rate + AtLeast1(hz) * 3 + 1) % 0x1_0000_0000 }

  /** The coefficient of a filter (clip.c:902-911, 927-933). */
  function Alpha(hz: nat, rate: nat): (a: nat)
    requires Divisor(hz, rate) != 0
    ensures a <= 32767
  {
    Floor(AtLeast1(hz) * 205887, Divisor(hz, rate));
    var q := AtLeast1(hz) * 205887 / Divisor(hz, rate);
    if q > 32767 then 32767 else q
  }

  /** Frames a filter starts from, and what it leaves in frame `i`. */
  ghost predicate LowPassed(was: seq<Frame>, now: seq<Frame>, a: int, n: nat) {
    && |now| == |was| && n <= |was|
    && (forall i :: 0 <= i < n ==> now[i] == Frame(State(Lefts(was), a, i + 1), State(Rights(was), a, i + 1)))
    && forall i :: n <= i < |was| ==> now[i] == was[i]
  }

  ghost predicate HighPassed(was: seq<Frame>, now: seq<Frame>, a: int, n: nat) {
    && |now| == |was| && n <= |was|
    && (forall i :: 0 <= i < n ==> now[i] == Frame(Clamp16(was[i].left - State(Lefts(was), a, i + 1)),
                                                    Clamp16(was[i].right - State(Rights(was), a, i + 1))))
    && forall i :: n <= i < |was| ==> now[i] == was[i]
  }

  /** filter_lpf's loop (clip.c:912-921): the states themselves, which the clamp never touches. */
  method LowPass(pcm: array<Frame>, hz: nat, rate: nat)
    requires Divisor(hz, rate) != 0 && forall i :: 0 <= i < pcm.Length ==> Sampled(pcm[i])
    modifies pcm
    ensures LowPassed(old(pcm[..]), pcm[..], AtLeast1(Alpha(hz, rate)), pcm.Length)
        && forall i :: 0 <= i < pcm.Length ==> Sampled(pcm[i])
  {
    hide Pole, State, Clamp16, Alpha;
    var a := AtLeast1(Alpha(hz, rate));
    ghost var was := pcm[..];
    var yl, yr := 0, 0;
    StateNone(Lefts(was), a);
    StateNone(Rights(was), a);
    var i := 0;
    while i < pcm.Length
      invariant 0 <= i <= pcm.Length && LowPassed(was, pcm[..], a, i)
          && (forall j :: 0 <= j < |was| ==> Sampled(was[j]))
      invariant yl == State(Lefts(was), a, i) && yr == State(Rights(was), a, i)
      invariant -32768 <= yl <= 32767 && -32768 <= yr <= 32767 && forall j :: 0 <= j < i ==> Sampled(pcm[j])
    {
      assert pcm[..][i] == was[i];
      PoleBetween(yl, pcm[i].left, a);
      PoleBetween(yr, pcm[i].right, a);
      StateStep(Lefts(was), a, i);
      StateStep(Rights(was), a, i);
      yl, yr := Pole(yl, pcm[i].left, a), Pole(yr, pcm[i].right, a);
      pcm[i] := Frame(Clamp16(yl), Clamp16(yr));
      i := i + 1;
    }
  }

  /** filter_hpf's loop (clip.c:934-943): the input less the low-passed state, clamped. */
  method HighPass(pcm: array<Frame>, hz: nat, rate: nat)
    requires Divisor(hz, rate) != 0 && forall i :: 0 <= i < pcm.Length ==> Sampled(pcm[i])
    modifies pcm
    ensures HighPassed(old(pcm[..]), pcm[..], Alpha(hz, rate), pcm.Length) && forall i :: 0 <= i < pcm.Length ==>
        Sampled(pcm[i])
  {
    hide Pole, State, Clamp16, Alpha;
    var a := Alpha(hz, rate);
    ghost var was := pcm[..];
    var yl, yr := 0, 0;
    StateNone(Lefts(was), a);
    StateNone(Rights(was), a);
    var i := 0;
    while i < pcm.Length
      invariant 0 <= i <= pcm.Length && HighPassed(was, pcm[..], a, i)
          && (forall j :: 0 <= j < |was| ==> Sampled(was[j]))
      invariant yl == State(Lefts(was), a, i) && yr == State(Rights(was), a, i)
      invariant -32768 <= yl <= 32767 && -32768 <= yr <= 32767 && forall j :: 0 <= j < i ==> Sampled(pcm[j])
    {
      assert pcm[..][i] == was[i];
      PoleBetween(yl, pcm[i].left, a);
      PoleBetween(yr, pcm[i].right, a);
      StateStep(Lefts(was), a, i);
      StateStep(Rights(was), a, i);
      yl, yr := Pole(yl, pcm[i].left, a), Pole(yr, pcm[i].right, a);
      pcm[i] := Frame(Clamp16(pcm[i].left - yl), Clamp16(pcm[i].right - yr));
      i := i + 1;
    }
  }

  lemma StateNone(xs: seq<int>, a: int)
    ensures State(xs, a, 0) == 0
  {
  }

  lemma StateStep(xs: seq<int>, a: int, n: nat)
    requires n < |xs|
    ensures State(xs, a, n + 1) == Pole(State(xs, a, n), xs[n], a)
  {
  }
}
