/**
 * A directory as the image builders handle it: read into one run of bytes, edited there, and
 * written back over its clusters (tools/make_fat.py:261-311, 369-420; tools/make_floppy.py:191-267).
 */
module Blobs {
  import opened Options
  import opened Bytes
  import opened Names
  import opened Chains
  import opened Dirs
  import opened Trees
  import opened Wellformed
  import opened Ops
  import opened Paths
  import opened Mending
  import opened Runs
  import opened LongNames
  import opened ImageNames

  // ---------------------------------------------------------------- directories as bytes

  lemma SlotsJoined(a: seq<byte>, b: seq<byte>)
    requires |a| % 32 == 0
    ensures SlotsOf(a + b) == SlotsOf(a) + SlotsOf(b)
  {
    var c, m := a + b, |a| / 32;
    assert |a| == m * 32;
    assert |SlotsOf(c)| == m + |SlotsOf(b)|;
    forall i | 0 <= i < |SlotsOf(c)| ensures SlotsOf(c)[i] == (SlotsOf(a) + SlotsOf(b))[i] {
      if i >= m {
        var k := i - m;
        assert i * 32 == |a| + k * 32;
        assert c[i * 32..i * 32 + 32] == b[k * 32..k * 32 + 32];
      } else {
        assert c[i * 32..i * 32 + 32] == a[i * 32..i * 32 + 32];
      }
    }
  }

  /** `blob` is the clusters of `ch`, one after another. */
  ghost predicate Holding(data: seq<seq<byte>>, ch: seq<nat>, per: nat, blob: seq<byte>) {
    Sized(data, ch, per) && |blob| == |ch| * per * 32 && SlotsOf(blob) == DirSlots(data, ch, per)
  }

  lemma HoldingNone(data: seq<seq<byte>>, per: nat)
    requires PerOk(per)
    ensures Holding(data, [], per, [])
  {
    assert SlotsOf([]) == [];
  }

  lemma HoldingMore(data: seq<seq<byte>>, ch: seq<nat>, per: nat, blob: seq<byte>, c: nat)
    requires Holding(data, ch, per, blob) && Sized(data, ch + [c], per)
    ensures c < |data| && Holding(data, ch + [c], per, blob + data[c])
  {
    hide DirSlots, SlotsOf;
    assert (ch + [c])[|ch|] == c;
    SlotsJoined(blob, data[c]);
    SlotsAppend(data, ch, per, c);
    assert |ch + [c]| * per == |ch| * per + per;
  }

  /** Records, one after another. */
  function Flat(recs: seq<Entry>): (r: seq<byte>)
    ensures |r| == 32 * |recs|
  {
    if recs == [] then [] else recs[0] + Flat(recs[1..])
  }

  lemma {:induction false} FlatSlots(recs: seq<Entry>)
    ensures SlotsOf(Flat(recs)) == recs
  {
    if recs == [] {
      assert SlotsOf([]) == [];
    } else {
      FlatSlots(recs[1..]);
      SlotsJoined(recs[0], Flat(recs[1..]));
      assert recs[0][0..32] == recs[0];
      assert SlotsOf(recs[0]) == [recs[0]];
    }
  }

  lemma SlotsSliced(blob: seq<byte>, a: nat, b: nat)
    requires a <= b && 32 * b <= |blob|
    ensures SlotsOf(blob[32 * a..32 * b]) == SlotsOf(blob)[a..b]
  {
    var c := blob[32 * a..32 * b];
    forall i | 0 <= i < b - a ensures SlotsOf(c)[i] == SlotsOf(blob)[a..b][i] {
      assert c[i * 32..i * 32 + 32] == blob[(a + i) * 32..(a + i) * 32 + 32];
    }
  }

  /** Records spliced into a directory. */
  lemma SplicedSlots(blob: seq<byte>, s: nat, recs: seq<Entry>)
    requires |blob| % 32 == 0 && 32 * (s + |recs|) <= |blob|
    ensures var r := blob[..32 * s] + Flat(recs) + blob[32 * (s + |recs|)..];
            |r| == |blob| && SlotsOf(r) == Overlay(SlotsOf(blob), s, recs)
  {
    hide SlotsOf, Flat;
    var a, b, c := blob[..32 * s], Flat(recs), blob[32 * (s + |recs|)..];
    var n := |blob| / 32;
    assert a == blob[32 * 0..32 * s] && c == blob[32 * (s + |recs|)..32 * n];
    SlotsSliced(blob, 0, s);
    SlotsSliced(blob, s + |recs|, n);
    FlatSlots(recs);
    SlotsJoined(a + b, c);
    SlotsJoined(a, b);
    assert SlotsOf(blob)[0..s] == SlotsOf(blob)[..s] && SlotsOf(blob)[s + |recs|..n] == SlotsOf(blob)[s + |recs|..];
  }

  /** The first `i` clusters hold the first `i` pieces. */
  lemma {:induction false} HoldingPieces(data: seq<seq<byte>>, ch: seq<nat>, per: nat, blob: seq<byte>, i: nat)
    requires Sized(data, ch, per) && i <= |ch| && |blob| == |ch| * (per * 32)
    requires forall k :: 0 <= k < |ch| ==>
        k * (per * 32) + per * 32 <= |blob| && data[ch[k]] == blob[k * (per * 32)..k * (per * 32) + per * 32]
    ensures i * (per * 32) <= |blob| && Holding(data, ch[..i], per, blob[..i * (per * 32)])
  {
    hide DirSlots, SlotsOf;
    if i == 0 {
      HoldingNone(data, per);
    } else {
      var cb := per * 32;
      HoldingPieces(data, ch, per, blob, i - 1);
      assert i * cb == (i - 1) * cb + cb;
      assert ch[..i] == ch[..i-1] + [ch[i-1]];
      HoldingMore(data, ch[..i-1], per, blob[..(i - 1) * cb], ch[i-1]);
      assert blob[..(i - 1) * cb] + blob[(i - 1) * cb..(i - 1) * cb + cb] == blob[..i * cb];
    }
  }

  /**
   * A directory no entry of which was ever erased: behind every fragment there is another
   * record, and what has the directory attribute is a directory.
   */
  ghost predicate Neat(slots: Slots) {
    && (forall i :: 0 <= i < |slots| ==> !Gone(slots[i]))
    && (forall i :: 0 <= i < |slots| && IsLfn(slots[i]) ==> i + 1 < |slots| && !Ended(slots[i+1]))
    && forall i :: 0 <= i < |slots| && !FreeSlot(slots[i]) && !IsLfn(slots[i]) && IsDir(slots[i]) ==>
         Dirs.Live(slots[i])
  }

  /** No directory entry names cluster `bad`. */
  ghost predicate Shuns(slots: Slots, bad: nat) {
    forall i :: 0 <= i < |slots| && Dirs.Live(slots[i]) && IsDir(slots[i]) ==> EntClus(slots[i]) != bad
  }

  ghost predicate NeatTree(S: Tree, bad: nat) { forall d :: d in S ==> Neat(S[d]) && Shuns(S[d], bad) }

  /** A tidy, neat directory is open behind its last record, which is no fragment. */
  lemma NeatOpen(slots: Slots)
    requires Neat(slots) && Tidy(slots)
    ensures OpenAt(slots, FreeAt(slots)) && (FreeAt(slots) == 0 || !IsLfn(slots[FreeAt(slots) - 1]))
  {
    var s := FreeAt(slots);
    if s < |slots| { assert Ended(slots[s]); }
  }

  /** End marks added, and records behind the last one: still neat. */
  lemma NeatRun(a: Slots, more: Slots, s: nat, recs: seq<Entry>, bad: nat)
    requires Neat(a) && Shuns(a, bad) && AllEnded(more) && OpenAt(a + more, s) && s + |recs| <= |a + more|
        && Records(recs)
    requires (s == 0 || s > |a| || !IsLfn(a[s-1])) && (forall i :: 0 <= i < |recs| ==> !Gone(recs[i]))
        && !IsLfn(recs[|recs|-1])
    requires IsDir(recs[|recs|-1]) ==> EntClus(recs[|recs|-1]) != bad
    ensures Neat(Overlay(a + more, s, recs)) && Shuns(Overlay(a + more, s, recs), bad)
  {
    hide EntClus, IsDir;
    OpenBefore(a, more, s);
    var b := Overlay(a + more, s, recs);
    forall i | 0 <= i < |b| ensures !Gone(b[i]) && (IsLfn(b[i]) ==> i + 1 < |b| && !Ended(b[i+1])) {
      if s <= i < s + |recs| - 1 { assert b[i+1] == recs[i + 1 - s]; }
    }
  }

  // ---------------------------------------------------------------- looking up a directory

  /** What _find_dir accepts for a component spelt `want` (make_fat.py:301-308). */
  predicate Wanted(e: Entry, want: Name) { !FreeSlot(e) && e[11] != ATTR_LFN && e[..11] == want && IsDir(e) }

  function FindShort(slots: Slots, want: Name, i: nat): (r: Option<nat>)
    requires i <= |slots|
    ensures r.Some? ==>
        i <= r.value < |slots| && Wanted(slots[r.value], want) && forall j :: i <= j < r.value ==>
          !Wanted(slots[j], want)
    ensures r.None? ==> forall j :: i <= j < |slots| ==> !Wanted(slots[j], want)
    decreases |slots| - i
  {
    if i == |slots| then None else if Wanted(slots[i], want) then Some(i) else FindShort(slots, want, i + 1)
  }

  /** The scan of _find_dir over one directory (make_fat.py:301-309). */
  method ScanDir(blob: seq<byte>, want: Name) returns (found: bool, ent: Entry)
    requires |blob| % 32 == 0
    ensures var r := FindShort(SlotsOf(blob), want, 0);
            (found <==> r.Some?) && (found ==> ent == SlotsOf(blob)[r.value])
  {
    var i := 0;
    found, ent := false, Zeros(32);
    while 32 * i < |blob|
      invariant 0 <= 32 * i <= |blob| && FindShort(SlotsOf(blob), want, i) == FindShort(SlotsOf(blob), want, 0)
    {
      ent := blob[32 * i..32 * i + 32];
      assert SlotsOf(blob)[i] == ent;
      if Wanted(ent, want) {
        return true, ent;
      }
      i := i + 1;
    }
  }

  /** Whether mkdir finds the short name in use (make_fat.py:322-325). */
  predicate Listed(slots: Slots, want: Name) { exists i :: 0 <= i < |slots| && slots[i][..11] == want }

  method IsListed(blob: seq<byte>, want: Name) returns (r: bool)
    requires |blob| % 32 == 0
    ensures r == Listed(SlotsOf(blob), want)
  {
    var i := 0;
    while 32 * i < |blob|
      invariant 0 <= 32 * i <= |blob| && forall j :: 0 <= j < i ==> SlotsOf(blob)[j][..11] != want
    {
      assert SlotsOf(blob)[i] == blob[i * 32..i * 32 + 32] && SlotsOf(blob)[i][..11] == blob[32 * i..32 * i + 11];
      if blob[32 * i..32 * i + 11] == want {
        return true;
      }
      i := i + 1;
    }
    r := false;
  }

  /** The directory _find_dir walks to from `d`; a first cluster of 0 stands for the root. */
  function Trail(S: Tree, root: nat, d: nat, parts: seq<Name>): Option<nat>
    decreases |parts|
  {
    if parts == [] then Some(d)
    else if d !in S then None
    else match FindShort(S[d], ShortName(parts[0]), 0)
         case Some(i) => Trail(S, root, if EntClus(S[d][i]) == 0 then root else EntClus(S[d][i]), parts[1..])
         case None => None
  }

  lemma TrailStep(S: Tree, root: nat, d: nat, parts: seq<Name>)
    ensures parts == [] ==> Trail(S, root, d, parts) == Some(d)
    ensures parts != [] && d in S ==>
      Trail(S, root, d, parts) ==
        match FindShort(S[d], ShortName(parts[0]), 0)
        case Some(i) => Trail(S, root, if EntClus(S[d][i]) == 0 then root else EntClus(S[d][i]), parts[1..])
        case None => None
  {
    hide ShortName, EntClus, FindShort;
  }

  /** The directory _find_dir walks to from the root. */
  ghost function Led(v: Vol, root: nat, per: nat, parts: seq<Name>): Option<nat> {
    if Fits(v.data, v.L, per) then Trail(TreeOf(v, per), root, root, parts) else None
  }

  /** mkdir finds the short name of `name` in use in the directory it would write to. */
  ghost predicate Occupied(v: Vol, root: nat, per: nat, parts: seq<Name>, name: Name) {
    && Fits(v.data, v.L, per)
    && var d := Led(v, root, per, parts);
       d.Some? && d.value in v.L.depth && Listed(SlotsAt(v.data, v.L, per, d.value), ShortName(name))
  }

  /** What is found names a directory that is there. */
  lemma FoundThere(v: Vol, limit: nat, root: nat, per: nat, d: nat, want: Name, i: nat)
    requires Sound(v, limit, root, per) && PerOk(per) && d in v.L.depth && Neat(SlotsAt(v.data, v.L, per, d))
    requires FindShort(SlotsAt(v.data, v.L, per, d), want, 0) == Some(i)
    ensures var c := EntClus(SlotsAt(v.data, v.L, per, d)[i]);
            root in v.L.depth && (c == 0 || c in v.L.depth) && Dirs.Live(SlotsAt(v.data, v.L, per, d)[i])
              && IsDir(SlotsAt(v.data, v.L, per, d)[i])
  {
    hide ChainsOk, TreeOk, DirSlots, EntClus, Sized, Dirs.Live;
    var s := SlotsAt(v.data, v.L, per, d);
    assert Dirs.Live(s[i]);
    FolderIsThere(DirItems(v.data, v.L, per), v.L, root, d, i, s, PerBytes(per));
  }

  /**
   * Each component ends, for the driver, at the first directory with its short name: no two
   * directories of the path share one, and nothing else answers first.
   */
  ghost predicate Unambiguous(S: Tree, root: nat, d: nat, parts: seq<Name>)
    decreases |parts|
  {
    parts != [] ==>
      && d in S && SpotIn(S, d, parts[0]).At?
      && FindShort(S[d], ShortName(parts[0]), 0) == Some(SpotIn(S, d, parts[0]).ref.slot)
      && (Step(S, root, d, parts[0]).Some? ==> Unambiguous(S, root, Step(S, root, d, parts[0]).value, parts[1..]))
  }

  /** Then the builder and the driver walk to the same directory. */
  lemma {:induction false} TrailIsWalk(S: Tree, root: nat, d: nat, parts: seq<Name>)
    requires Unambiguous(S, root, d, parts)
    ensures Trail(S, root, d, parts) == Walk(S, root, d, parts)
    decreases |parts|
  {
    hide FindFrom, EntClus, ShortName;
    if parts != [] {
      var i := SpotIn(S, d, parts[0]).ref.slot;
      assert Wanted(S[d][i], ShortName(parts[0]));
      TrailIsWalk(S, root, Step(S, root, d, parts[0]).value, parts[1..]);
    }
  }

  lemma SizedPrefix(data: seq<seq<byte>>, ch: seq<nat>, per: nat, i: nat)
    requires Sized(data, ch, per) && i <= |ch|
    ensures Sized(data, ch[..i], per)
  {
  }

  lemma HopOf(fat: seq<nat>, limit: nat, ch: seq<nat>, i: nat)
    requires IsChain(fat, limit, ch) && i < |ch|
    ensures 2 <= ch[i] < limit <= |fat| && (forall j :: 0 <= j < i ==> ch[j] != ch[i])
    ensures if i + 1 < |ch| then fat[ch[i]] == ch[i+1] && 2 <= ch[i+1] < EOC else fat[ch[i]] >= EOC
  {
  }

  /** Piece `k` of `blob`, `cb` bytes long. */
  function Piece(blob: seq<byte>, cb: nat, k: nat): (r: seq<byte>)
    requires k * cb + cb <= |blob|
    ensures |r| == cb
  {
    blob[k * cb..k * cb + cb]
  }

  /** The first `i` clusters of `ch` hold the pieces of `blob`; the others are as before. */
  ghost predicate Filled(was: seq<seq<byte>>, data: seq<seq<byte>>, ch: seq<nat>, cb: nat, blob: seq<byte>, i: nat) {
    && |data| == |was| && i <= |ch| && |blob| == |ch| * cb
         && (forall k :: 0 <= k < |ch| ==> ch[k] < |data| && k * cb + cb <= |blob|)
    && (forall k :: 0 <= k < i ==> data[ch[k]] == Piece(blob, cb, k))
    && forall c :: 0 <= c < |data| && c !in ch[..i] ==> data[c] == was[c]
  }

  lemma {:induction false} PieceFits(n: nat, cb: nat, k: nat)
    requires k < n
    ensures k * cb + cb <= n * cb
    decreases n
  {
    if k + 1 < n { PieceFits(n - 1, cb, k); }
    assert n * cb == (n - 1) * cb + cb;
  }

  lemma StoredNone(data: seq<seq<byte>>, ch: seq<nat>, cb: nat, blob: seq<byte>)
    requires |blob| == |ch| * cb && forall k :: 0 <= k < |ch| ==> ch[k] < |data|
    ensures Filled(data, data, ch, cb, blob, 0)
  {
    forall k | 0 <= k < |ch| ensures k * cb + cb <= |blob| { PieceFits(|ch|, cb, k); }
  }

  lemma StoredMore(was: seq<seq<byte>>, data: seq<seq<byte>>, ch: seq<nat>, cb: nat, blob: seq<byte>, i: nat)
    requires Filled(was, data, ch, cb, blob, i) && i < |ch| && forall j :: 0 <= j < i ==> ch[j] != ch[i]
    ensures i * cb + cb <= |blob| && Filled(was, data[ch[i] := Piece(blob, cb, i)], ch, cb, blob, i + 1)
  {
    assert ch[..i+1] == ch[..i] + [ch[i]];
  }

  lemma PieceIs(blob: seq<byte>, cb: nat, i: nat)
    requires i * cb + cb <= |blob|
    ensures blob[i * cb..i * cb + cb] == Piece(blob, cb, i)
  {
  }

  lemma PieceEnd(n: nat, cb: nat, i: nat)
    requires cb > 0
    ensures i < n ==> i * cb < n * cb
    ensures i > 0 ==> i * cb == (i - 1) * cb + cb
  {
    if i < n { PieceFits(n, cb, i); }
  }

  /** The loop of _write_dir_entries before cluster number `i` of the chain. */
  predicate Standing(ch: seq<nat>, cb: nat, size: nat, i: nat, clus: nat, pos: nat) {
    && i <= |ch| && pos == i * cb && (if i < |ch| then clus == ch[i] && 2 <= clus < EOC && pos < size else clus >= EOC)
  }

  lemma StoredShape(v: Vol, data: seq<seq<byte>>, limit: nat, per: nat, first: nat, blob: seq<byte>)
    requires Fine(v, limit, per) && first in v.L.chains
        && Filled(v.data, data, v.L.chains[first], per * 32, blob, |v.L.chains[first]|)
    ensures DataShape(data, limit, per) && Fits(data, v.L, per) && PerOk(per)
  {
    hide ChainsOk, Sized;
    var ch := v.L.chains[first];
    forall c | 2 <= c < limit ensures |data[c]| == per * 32 {
      if c in ch[..|ch|] {
        var k :| 0 <= k < |ch| && ch[k] == c;
        assert data[ch[k]] == Piece(blob, per * 32, k);
      }
    }
    ChainsFit(v.fat, data, limit, v.L, per);
  }

  lemma StoredSlots(v: Vol, data: seq<seq<byte>>, limit: nat, per: nat, first: nat, blob: seq<byte>)
    requires Fine(v, limit, per) && first in v.L.chains
        && Filled(v.data, data, v.L.chains[first], per * 32, blob, |v.L.chains[first]|)
    requires Fits(data, v.L, per)
    ensures SlotsAt(data, v.L, per, first) == SlotsOf(blob)
  {
    hide ChainsOk, DirSlots, SlotsOf, Fits, DataShape;
    var ch := v.L.chains[first];
    StoredShape(v, data, limit, per, first, blob);
    assert Sized(data, ch, per) by { FitsSized(data, v.L, per, first); }
    HoldingPieces(data, ch, per, blob, |ch|);
    assert ch[..|ch|] == ch && blob[..|ch| * (per * 32)] == blob;
  }

  lemma FitsSized(data: seq<seq<byte>>, L: Layout, per: nat, h: nat)
    requires Fits(data, L, per) && h in L.chains
    ensures Sized(data, L.chains[h], per)
  {
  }

  /** A directory written back with a run of records in it. */
  lemma RunWritten(v: Vol, data: seq<seq<byte>>, limit: nat, per: nat, first: nat, s: nat, recs: seq<Entry>,
                   blob: seq<byte>)
    requires Fine(v, limit, per) && PerOk(per) && first in v.L.depth && first in v.L.chains
    requires Filled(v.data, data, v.L.chains[first], per * 32, blob, |v.L.chains[first]|)
    requires s + |recs| <= |SlotsAt(v.data, v.L, per, first)|
        && SlotsOf(blob) == Overlay(SlotsAt(v.data, v.L, per, first), s, recs)
    ensures Fine(Vol(v.fat, data, v.L), limit, per) && |data| == |v.data|
        && PutRun(v.data, data, v.L, per, first, s, recs)
  {
    hide ChainsOk, DirSlots, SlotsOf, Overlay, DataShape, Sized;
    StoredShape(v, data, limit, per, first, blob);
    StoredSlots(v, data, limit, per, first, blob);
    var ch := v.L.chains[first];
    forall k | k in v.L.depth && k != first
      ensures k in v.L.chains && SlotsAt(data, v.L, per, k) == SlotsAt(v.data, v.L, per, k) {
      Elsewhere(v, data, limit, per, first, k, blob);
    }
    assert ch[..|ch|] == ch;
  }

  lemma Elsewhere(v: Vol, data: seq<seq<byte>>, limit: nat, per: nat, first: nat, k: nat, blob: seq<byte>)
    requires Fine(v, limit, per) && first in v.L.chains && k in v.L.depth && k != first
    requires Filled(v.data, data, v.L.chains[first], per * 32, blob, |v.L.chains[first]|) && Fits(data, v.L, per)
    ensures k in v.L.chains && SlotsAt(data, v.L, per, k) == SlotsAt(v.data, v.L, per, k)
  {
    hide ChainsOk, DirSlots;
    ChainFacts(v.fat, limit, v.L, first);
    ChainFacts(v.fat, limit, v.L, k);
    Apart(v.L, first, k);
    FitsSized(v.data, v.L, per, k);
    SameSlots(v.data, data, v.L.chains[k], per);
  }

  lemma HoldingGrown(data: seq<seq<byte>>, ch: seq<nat>, per: nat, blob: seq<byte>, nw: nat)
    requires Holding(data, ch, per, blob) && nw < |data| && nw !in ch
    ensures Holding(data[nw := Zeros(per * 32)], ch + [nw], per, blob + Zeros(per * 32))
  {
    hide DirSlots, SlotsOf;
    var z := data[nw := Zeros(per * 32)];
    SameSlots(data, z, ch, per);
    assert Sized(z, ch + [nw], per);
    HoldingMore(z, ch, per, blob, nw);
  }

  lemma LastInside(v: Vol, limit: nat, per: nat, h: nat)
    requires Fine(v, limit, per) && h in v.L.chains
    ensures v.L.chains[h] != [] && LastOf(v.L, h) < limit <= |v.fat|
  {
    ChainsAreChains(v.fat, limit, v.L, h);
  }

  lemma FreeNotEmpty(fat: seq<nat>, limit: nat, c: nat)
    requires 3 <= c < limit <= |fat| && fat[c] == 0
    ensures |FreeSet(fat, limit)| > 0
  {
    assert c in FreeSet(fat, limit);
  }

  lemma NoneFree(fat: seq<nat>, limit: nat)
    requires limit <= |fat| && forall k :: 2 <= k < limit && k < |fat| ==> fat[k] != 0
    ensures |FreeSet(fat, limit)| == 0
  {
    assert FreeSet(fat, limit) == {};
  }

  /** `dir` has grown by cluster `nw`, if that is not 0. */
  ghost predicate GrewBy(v: Vol, z: Vol, limit: nat, per: nat, dir: nat, nw: nat)
    requires Fine(v, limit, per) && Fine(z, limit, per) && dir in v.L.depth
  {
    if nw == 0 then z == v else Grew(v.fat, v.data, v.L, z.fat, z.data, z.L, limit, per, dir, nw)
  }

  /** _free_slots: byte offset of the first `n` free slots in a row, -1 for none (make_fat.py:386-397). */
  method FreeSlots(blob: seq<byte>, n: nat, ghost s: nat) returns (at: int)
    requires n >= 1 && |blob| % 32 == 0 && OpenAt(SlotsOf(blob), s)
    ensures at == if s + n <= |blob| / 32 then 32 * s else -1
  {
    hide OpenAt;
    var j := 0;
    while 32 * (j + n) <= |blob|
      invariant 0 <= j <= s
    {
      var ok, k := true, 0;
      while k < n && ok
        invariant 0 <= k <= n && ok == (k == 0 || j == s)
      {
        SlotTaken(blob, s, j + k);
        ok := blob[32 * (j + k)] == 0 || blob[32 * (j + k)] == 0xE5;
        k := k + 1;
      }
      if ok {
        return 32 * j;
      }
      j := j + 1;
    }
    at := -1;
  }

  lemma SlotTaken(blob: seq<byte>, s: nat, i: nat)
    requires OpenAt(SlotsOf(blob), s) && 32 * i + 32 <= |blob|
    ensures i >= s <==> blob[32 * i] == 0 || blob[32 * i] == 0xE5
  {
    assert SlotsOf(blob)[i] == blob[i * 32..i * 32 + 32];
    assert SlotsOf(blob)[i][0] == blob[32 * i];
  }

  /** Records a name takes. */
  function RunLength(name: Name): (n: nat)
    ensures n >= 1
  {
    if NeedsLfn(name) then SlotCount(name) + 1 else 1
  }

  /** A run of `n` records fits, in a new cluster if need be. */
  predicate HasRun(slots: Slots, per: nat, free: nat, n: nat) {
    FreeAt(slots) + n <= |slots| || (free > 0 && FreeAt(slots) + n <= |slots| + per)
  }

  lemma OpenIsFreeAt(slots: Slots, s: nat)
    requires OpenAt(slots, s)
    ensures FreeAt(slots) == s
  {
    var r := FreeAt(slots);
    assert r < |slots| ==> FreeSlot(slots[r]);
    assert s < |slots| ==> Ended(slots[s]);
  }

  lemma OpenGrown(slots: Slots, more: Slots, s: nat)
    requires OpenAt(slots, s) && AllEnded(more)
    ensures OpenAt(slots + more, s)
  {
    var b := slots + more;
    assert forall j :: |slots| <= j < |b| ==> b[j] == more[j - |slots|];
  }

  /** What growing did to the slots. */
  lemma GrewBySlots(v: Vol, z: Vol, limit: nat, per: nat, dir: nat, nw: nat, s: nat)
    requires Fine(v, limit, per) && Fine(z, limit, per) && PerOk(per) && dir in v.L.depth
        && GrewBy(v, z, limit, per, dir, nw)
    requires OpenAt(SlotsAt(v.data, v.L, per, dir), s)
    ensures dir in z.L.depth && SlotsAt(z.data, z.L, per, dir) == SlotsAt(v.data, v.L, per, dir) + More(nw, per)
    ensures |More(nw, per)| == (if nw == 0 then 0 else per) && OpenAt(SlotsAt(z.data, z.L, per, dir), s)
        && |z.fat| == |v.fat|
  {
    hide ChainsOk, DirSlots, DirItems, DataShape, Sized, Grown;
    MoreEnded(nw, per);
    OpenGrown(SlotsAt(v.data, v.L, per, dir), More(nw, per), s);
    assert nw == 0 ==> SlotsAt(v.data, v.L, per, dir) + [] == SlotsAt(v.data, v.L, per, dir);
  }

  lemma GrewByNone(v: Vol, limit: nat, per: nat, dir: nat)
    requires Fine(v, limit, per) && dir in v.L.depth
    ensures GrewBy(v, v, limit, per, dir, 0)
  {
  }

  lemma RunLengthIs(recs: seq<Entry>, name: Name, attr: byte, clus: nat, size: nat)
    requires clus < 0x1_0000_0000 && size < 0x1_0000_0000 && RecordsOf(recs, name, attr, clus, size)
    ensures |recs| == RunLength(name)
  {
    hide NeedsLfn, ShortEntry, Fragment;
  }

  lemma BlobIs(data: seq<seq<byte>>, L: Layout, per: nat, d: nat, blob: seq<byte>)
    requires d in L.chains && Holding(data, L.chains[d], per, blob)
    ensures SlotsOf(blob) == SlotsAt(data, L, per, d)
        && |blob| == |L.chains[d]| * (per * 32) == 32 * |SlotsAt(data, L, per, d)|
  {
    hide DirSlots, SlotsOf;
    assert |L.chains[d]| * per * 32 == |L.chains[d]| * (per * 32);
  }

  // ---------------------------------------------------------------- a whole addition

  /** Where an addition stands once its records are written: see `Appending`, with the directory grown at will. */
  ghost predicate Entering(v: Vol, x: Vol, x1: Vol, y: Vol, limit: nat, per: nat, dir: nat, nw: nat, s: nat,
                           recs: seq<Entry>, ch: seq<nat>)
    requires Fine(v, limit, per) && Fine(x, limit, per) && Fine(x1, limit, per) && Fine(y, limit, per) && PerOk(per)
  {
    && dir in v.L.depth && dir in x.L.depth && s == FreeAt(SlotsAt(v.data, v.L, per, dir))
    && Growing(v.fat, x.fat, limit, ch) && Distinct(ch) && AllKept(v, x, 0) && x.L == Joined(v.L, ch, NOWHERE)
    && x.L.depth == v.L.depth && AllSlots(x.data, x.L, per) == AllSlots(v.data, v.L, per)
    && GrewBy(x, x1, limit, per, dir, nw)
    && y.fat == x1.fat && y.L == x1.L && dir in x1.L.depth && PutRun(x1.data, y.data, x1.L, per, dir, s, recs)
    && OpenAt(SlotsAt(x1.data, x1.L, per, dir), s)
  }

  /** `b` is `a` with the records behind its last entry, and any number of end marks. */
  ghost predicate Behind(a: Slots, b: Slots, recs: seq<Entry>) {
    var s := FreeAt(a);
    && s + |recs| <= |b| && b[..s] == a[..s] && b[s..s + |recs|] == recs
    && (forall i :: s <= i < |a| ==> Ended(a[i])) && forall i :: s + |recs| <= i < |b| ==> Ended(b[i])
  }

  /** The records lie behind the last entry of `dir`; the other directories are as they were. */
  ghost predicate Lies(S: Tree, S': Tree, dir: nat, recs: seq<Entry>) {
    && dir in S && dir in S' && Behind(S[dir], S'[dir], recs)
    && forall k :: k in S && k != dir ==> k in S' && S'[k] == S[k]
  }

  lemma BehindIs(a: Slots, more: Slots, s: nat, recs: seq<Entry>)
    requires AllEnded(more) && OpenAt(a + more, s) && s == FreeAt(a) && s + |recs| <= |a + more|
    ensures Behind(a, Overlay(a + more, s, recs), recs)
  {
    OpenBefore(a, more, s);
    assert (a + more)[..s] == a[..s];
  }

  /** What an addition did to the slots, whatever the name. */
  lemma EnteringLies(v: Vol, x: Vol, x1: Vol, y: Vol, limit: nat, per: nat, dir: nat, nw: nat, s: nat, recs: seq<Entry>,
                     ch: seq<nat>)
    requires Fine(v, limit, per) && Fine(x, limit, per) && Fine(x1, limit, per) && Fine(y, limit, per) && PerOk(per)
    requires Entering(v, x, x1, y, limit, per, dir, nw, s, recs, ch)
    ensures y.L.depth == v.L.depth && Lies(TreeOf(v, per), TreeOf(y, per), dir, recs)
    ensures |SlotsAt(y.data, y.L, per, dir)| == |SlotsAt(v.data, v.L, per, dir)| + if nw == 0 then 0 else per
  {
    hide ChainsOk, DirSlots, DirItems, AllSlots, Overlay, Sized, Growing, Joined, AllKept, DataShape, OpenAt, FreeAt,
         More, Grown, Behind;
    SameTree(v, x, per, dir);
    GrewMore(x, x1, limit, per, dir, nw);
    BehindIs(SlotsAt(v.data, v.L, per, dir), More(nw, per), s, recs);
    forall k | k in v.L.depth && k != dir ensures SlotsAt(y.data, y.L, per, k) == SlotsAt(v.data, v.L, per, k) {
      SameTree(v, x, per, k);
    }
    LiesIs(v, y, per, dir, recs);
  }

  lemma LiesIs(v: Vol, y: Vol, per: nat, dir: nat, recs: seq<Entry>)
    requires Fits(v.data, v.L, per) && Fits(y.data, y.L, per) && dir in v.L.depth && y.L.depth == v.L.depth
    requires Behind(SlotsAt(v.data, v.L, per, dir), SlotsAt(y.data, y.L, per, dir), recs)
    requires forall k :: k in v.L.depth && k != dir ==> SlotsAt(y.data, y.L, per, k) == SlotsAt(v.data, v.L, per, k)
    ensures Lies(TreeOf(v, per), TreeOf(y, per), dir, recs)
  {
    hide DirSlots, Behind;
  }

  lemma GrewMore(x: Vol, x1: Vol, limit: nat, per: nat, dir: nat, nw: nat)
    requires Fine(x, limit, per) && Fine(x1, limit, per) && PerOk(per) && dir in x.L.depth
        && GrewBy(x, x1, limit, per, dir, nw)
    ensures x1.L.depth == x.L.depth
        && SlotsAt(x1.data, x1.L, per, dir) == SlotsAt(x.data, x.L, per, dir) + More(nw, per)
    ensures AllEnded(More(nw, per)) && |More(nw, per)| == if nw == 0 then 0 else per
    ensures forall k :: k in x.L.depth && k != dir ==> SlotsAt(x1.data, x1.L, per, k) == SlotsAt(x.data, x.L, per, k)
  {
    hide ChainsOk, DirSlots, DirItems, DataShape, Sized, Grew;
    MoreEnded(nw, per);
    if nw == 0 {
      assert SlotsAt(x.data, x.L, per, dir) + [] == SlotsAt(x.data, x.L, per, dir);
    } else {
      GrewIs(x, x1, limit, per, dir, nw);
    }
  }

  lemma GrewIs(x: Vol, x1: Vol, limit: nat, per: nat, dir: nat, nw: nat)
    requires Fits(x.data, x.L, per) && Fits(x1.data, x1.L, per) && PerOk(per) && dir in x.L.depth && nw != 0
        && limit <= |x.fat|
    requires Grew(x.fat, x.data, x.L, x1.fat, x1.data, x1.L, limit, per, dir, nw)
    ensures x1.L.depth == x.L.depth
        && SlotsAt(x1.data, x1.L, per, dir) == SlotsAt(x.data, x.L, per, dir) + More(nw, per)
    ensures |More(nw, per)| == per
    ensures forall k :: k in x.L.depth && k != dir ==> SlotsAt(x1.data, x1.L, per, k) == SlotsAt(x.data, x.L, per, k)
  {
    hide DirSlots, DirItems;
  }

  /** Names given to chains move no slot; a new directory comes with its own. */
  lemma LiesNamed(v: Vol, y: Vol, z: Vol, per: nat, dir: nat, recs: seq<Entry>)
    requires Fits(v.data, v.L, per) && Fits(y.data, y.L, per) && Fits(z.data, z.L, per)
    requires Lies(TreeOf(v, per), TreeOf(y, per), dir, recs) && z.data == y.data && z.L.chains == y.L.chains
    requires forall k :: k in y.L.depth ==> k in z.L.depth
    ensures Lies(TreeOf(v, per), TreeOf(z, per), dir, recs)
  {
    hide DirSlots, Behind;
    forall k | k in y.L.depth ensures TreeOf(z, per)[k] == TreeOf(y, per)[k] {}
  }

  /** The files of the volume before are as they were. */
  lemma EnteringKeeps(v: Vol, x: Vol, x1: Vol, y: Vol, limit: nat, per: nat, dir: nat, nw: nat, s: nat,
                      recs: seq<Entry>, ch: seq<nat>)
    requires Fine(v, limit, per) && Fine(x, limit, per) && Fine(x1, limit, per) && Fine(y, limit, per) && PerOk(per)
    requires Entering(v, x, x1, y, limit, per, dir, nw, s, recs, ch) && 0 !in v.L.chains
    ensures Kept(v, y, 0) && |y.fat| == |v.fat|
  {
    hide ChainsOk, DirSlots, AllSlots, Joined, OpenAt, FreeAt, Sized, Overlay, GrewBy, PutRun, SameChain, ChainAlone,
         Growing, DataShape;
    GrowingElsewhere(v.fat, x.fat, limit, ch);
    GrewSizes(x, x1, limit, per, dir, nw);
    forall k | k in v.L.chains && k !in v.L.depth ensures SameChain(v.fat, v.data, v.L, y.fat, y.data, y.L, k) {
      AloneAt(v, x, x1, y, limit, per, dir, nw, s, recs, k);
      StillSame(v, x, x1, y, limit, per, dir, nw, k);
    }
  }

  lemma StillSame(v: Vol, x: Vol, x1: Vol, y: Vol, limit: nat, per: nat, dir: nat, nw: nat, k: nat)
    requires Fine(x, limit, per) && Fine(x1, limit, per) && dir in x.L.depth && k != dir
        && GrewBy(x, x1, limit, per, dir, nw) && y.L == x1.L
    requires k in v.L.chains && SameChain(v.fat, v.data, v.L, x.fat, x.data, x.L, k) && ChainAlone(v, y, k)
    ensures SameChain(v.fat, v.data, v.L, y.fat, y.data, y.L, k)
  {
    hide ChainsOk, DirSlots, AllSlots, Sized, DirItems, DataShape;
  }

  lemma EnteringAppends(v: Vol, x: Vol, x1: Vol, y: Vol, limit: nat, per: nat, dir: nat, nw: nat, s: nat,
                        recs: seq<Entry>, ch: seq<nat>)
    requires Fine(v, limit, per) && Fine(x, limit, per) && Fine(x1, limit, per) && Fine(y, limit, per) && PerOk(per)
    requires Entering(v, x, x1, y, limit, per, dir, nw, s, recs, ch) && Records(recs)
        && |SlotsAt(y.data, y.L, per, dir)| <= MAX_SLOTS
    ensures Appending(v, x, x1, y, limit, per, dir, nw, s, recs, ch) && dir in v.L.depth
        && s == FreeAt(SlotsAt(v.data, v.L, per, dir))
  {
    hide ChainsOk, DirSlots, DirItems, AllSlots, PutRun, Sized, Growing, Joined, AllKept, DataShape, Records, OpenAt,
         Grew, Appending, FreeAt;
    AppendingHolds(v, x, x1, y, limit, per, dir, nw, s, recs, ch);
  }

  /** The directories stay neat through an addition. */
  lemma EnteringNeat(v: Vol, x: Vol, x1: Vol, y: Vol, limit: nat, root: nat, per: nat, dir: nat, nw: nat, s: nat,
                     recs: seq<Entry>, ch: seq<nat>, bad: nat)
    requires Sound(v, limit, root, per) && Fine(x, limit, per) && Fine(x1, limit, per) && Fine(y, limit, per)
        && PerOk(per)
    requires Appending(v, x, x1, y, limit, per, dir, nw, s, recs, ch) && NeatTree(TreeOf(v, per), bad)
        && dir in v.L.depth
    requires s == FreeAt(SlotsAt(v.data, v.L, per, dir)) && (forall i :: 0 <= i < |recs| ==> !Gone(recs[i]))
        && Records(recs)
    requires !IsLfn(recs[|recs|-1]) && (IsDir(recs[|recs|-1]) ==> EntClus(recs[|recs|-1]) != bad)
    ensures y.L.depth == v.L.depth && NeatTree(TreeOf(y, per), bad)
  {
    hide ChainsOk, TreeOk, DirSlots, DirItems, AllSlots, Sized, DataShape, Records, Appending, Neat, Shuns, Overlay,
         More, FreeAt, EntClus, IsDir;
    AppendedSlots(v, x, x1, y, limit, per, dir, nw, s, recs, ch);
    AppendingOpen(v, x, x1, y, limit, per, dir, nw, s, recs, ch);
    MoreEnded(nw, per);
    TreeFacts(v, limit, root, per);
    var S := TreeOf(v, per);
    forall d | d in y.L.depth ensures Neat(TreeOf(y, per)[d]) && Shuns(TreeOf(y, per)[d], bad) {
      assert Neat(S[d]) && Shuns(S[d], bad);
      if d == dir { NeatBehind(S[dir], More(nw, per), s, recs, bad); }
    }
  }

  lemma NeatBehind(a: Slots, more: Slots, s: nat, recs: seq<Entry>, bad: nat)
    requires Neat(a) && Shuns(a, bad) && Tidy(a) && s == FreeAt(a) && AllEnded(more) && OpenAt(a + more, s)
        && s + |recs| <= |a + more|
    requires Records(recs) && (forall i :: 0 <= i < |recs| ==> !Gone(recs[i])) && !IsLfn(recs[|recs|-1])
    requires IsDir(recs[|recs|-1]) ==> EntClus(recs[|recs|-1]) != bad
    ensures Neat(Overlay(a + more, s, recs)) && Shuns(Overlay(a + more, s, recs), bad)
  {
    hide Neat, Shuns, Records, OpenAt, AllEnded, EntClus, IsDir, IsLfn, Gone, Overlay;
    NeatOpen(a);
    NeatRun(a, more, s, recs, bad);
  }

  /** add_file, once its records are written. */
  lemma FileDone(v: Vol, x: Vol, x1: Vol, y: Vol, limit: nat, root: nat, per: nat, bad: nat, dir: nat, nw: nat, s: nat,
                 recs: seq<Entry>, ch: seq<nat>, name: Name, bytes: seq<byte>)
    requires Sound(v, limit, root, per) && Fine(x, limit, per) && Fine(x1, limit, per) && Fine(y, limit, per)
        && PerOk(per)
    requires NeatTree(TreeOf(v, per), bad) && Entering(v, x, x1, y, limit, per, dir, nw, s, recs, ch)
        && Chains.Stores(x.data, PerBytes(per), ch, bytes)
    requires HeadOf(ch) < 0x1_0000_0000 && |bytes| < 0x1_0000_0000 && Legible(name) && !DotName(NoSpaces(name))
    requires RecordsOf(recs, name, ATTR_ARC, HeadOf(ch), |bytes|) && |SlotsAt(y.data, y.L, per, dir)| <= MAX_SLOTS
    ensures var z := NamedVol(y, HeadOf(ch), Ref(dir, s + |recs| - 1));
            && Sound(z, limit, root, per) && NeatTree(TreeOf(z, per), bad) && z.L.depth == v.L.depth && Kept(v, z, 0)
            && s <= |SlotsAt(v.data, v.L, per, dir)| && FileAdded(v, z, limit, root, per, dir, s, recs, bytes)
            && Lies(TreeOf(v, per), TreeOf(z, per), dir, recs)
  {
    hide ChainsOk, TreeOk, DirSlots, DirItems, AllSlots, Sized, DataShape, Records, Appending, Stores, ShortEntry,
         Fragments, NeedsLfn, Dotted, NoSpaces, FileAdded, Kept, Fits, Neat, Shuns, EntClus, EntSize, IsDir, Growing,
         Joined, AllKept, GrewBy, PutRun, OpenAt, FreeAt, Lies;
    EnteringLies(v, x, x1, y, limit, per, dir, nw, s, recs, ch);
    RecordsAreRecords(recs, name, ATTR_ARC, HeadOf(ch), |bytes|);
    ShortEntryFields(name, ATTR_ARC, HeadOf(ch), |bytes|);
    EnteringAppends(v, x, x1, y, limit, per, dir, nw, s, recs, ch);
    FileAppended(v, x, x1, y, limit, root, per, dir, nw, s, recs, ch, bytes);
    EnteringNeat(v, x, x1, y, limit, root, per, dir, nw, s, recs, ch, bad);
    SameNeat(y, NamedVol(y, HeadOf(ch), Ref(dir, s + |recs| - 1)), per, bad);
    LiesNamed(v, y, NamedVol(y, HeadOf(ch), Ref(dir, s + |recs| - 1)), per, dir, recs);
  }

  lemma SameNeat(y: Vol, z: Vol, per: nat, bad: nat)
    requires Fits(y.data, y.L, per) && Fits(z.data, z.L, per) && z.data == y.data && z.L.chains == y.L.chains
    requires NeatTree(TreeOf(y, per), bad) && forall k :: k in z.L.depth ==>
        k in y.L.depth || (Neat(SlotsAt(z.data, z.L, per, k)) && Shuns(SlotsAt(z.data, z.L, per, k), bad))
    ensures NeatTree(TreeOf(z, per), bad)
  {
    hide DirSlots, Neat, Shuns;
    forall k | k in z.L.depth && k in y.L.depth ensures Neat(TreeOf(z, per)[k]) && Shuns(TreeOf(z, per)[k], bad) {
      assert TreeOf(z, per)[k] == TreeOf(y, per)[k];
    }
  }

  lemma NeatDots(s: Slots, c: nat, up: nat, bad: nat)
    requires DotSlots(s, c, up) && c != bad && up != bad
    ensures Neat(s) && Shuns(s, bad)
  {
    hide Dotted, Short, EntClus, EntSize;
    NewEntryFields([DOT], ATTR_DIR, c, 0);
    NewEntryFields([DOT, DOT], ATTR_DIR, up, 0);
    assert forall i :: 2 <= i < |s| ==> Ended(s[i]);
  }

  /** mkdir, once its records are written. */
  lemma DirDone(v: Vol, x: Vol, x1: Vol, y: Vol, limit: nat, root: nat, per: nat, bad: nat, dir: nat, nw: nat, s: nat,
                recs: seq<Entry>, c: nat, up: nat, name: Name)
    requires Sound(v, limit, root, per) && Fine(x, limit, per) && Fine(x1, limit, per) && Fine(y, limit, per)
        && PerOk(per)
    requires NeatTree(TreeOf(v, per), bad) && Entering(v, x, x1, y, limit, per, dir, nw, s, recs, [c])
    requires 2 <= c < limit <= 0x1000_0000 && DotSlots(SlotsOf(x.data[c]), c, up) && (up == dir || up == Up(dir, root))
        && c != bad && up != bad
    requires Legible(name) && !DotName(NoSpaces(name))
    requires RecordsOf(recs, name, ATTR_DIR, c, 0) && |SlotsAt(y.data, y.L, per, dir)| <= MAX_SLOTS
    ensures var z := y.(L := NamedDir(y.L, c, Ref(dir, s + |recs| - 1)));
            && Sound(z, limit, root, per) && NeatTree(TreeOf(z, per), bad) && Kept(v, z, 0)
                 && (forall k :: k in z.L.depth <==> k in v.L.depth || k == c)
            && s <= |SlotsAt(v.data, v.L, per, dir)| && DirAdded(v, z, limit, root, per, dir, s, recs, c)
            && Lies(TreeOf(v, per), TreeOf(z, per), dir, recs) && c !in v.L.depth && Vacant(TreeOf(z, per)[c])
  {
    hide ChainsOk, TreeOk, DirSlots, DirItems, AllSlots, Sized, DataShape, Records, Appending, ShortEntry, RecordsOf,
         DotSlots, SlotsOf, NamedDir, Dotted, NoSpaces, DirAdded, Kept, Fits, Neat, Shuns, NeatTree, EntClus, EntSize,
         IsDir, Entering, Lies, Vacant;
    DirRecords(recs, name, c);
    EnteringLies(v, x, x1, y, limit, per, dir, nw, s, recs, [c]);
    EnteringNew(v, x, x1, y, limit, per, dir, nw, s, recs, c);
    EnteringAppends(v, x, x1, y, limit, per, dir, nw, s, recs, [c]);
    DirAppended(v, x, x1, y, limit, root, per, dir, nw, s, recs, c, up);
    EnteringNeat(v, x, x1, y, limit, root, per, dir, nw, s, recs, [c], bad);
    var z := y.(L := NamedDir(y.L, c, Ref(dir, s + |recs| - 1)));
    DirNeat(y, z, per, c, up, dir, s + |recs| - 1, bad);
    NamedDirChains(y.L, c, Ref(dir, s + |recs| - 1));
    LiesNamed(v, y, z, per, dir, recs);
    DotsOnly(SlotsAt(z.data, z.L, per, c), c, up);
  }

  lemma NamedDirChains(T: Layout, c: nat, ref: Ref)
    ensures var L := NamedDir(T, c, ref); L.chains == T.chains && forall k :: k in T.depth ==> k in L.depth
  {
  }

  /** The cluster of a new directory was no directory's. */
  lemma EnteringNew(v: Vol, x: Vol, x1: Vol, y: Vol, limit: nat, per: nat, dir: nat, nw: nat, s: nat, recs: seq<Entry>,
                    c: nat)
    requires Fine(v, limit, per) && Fine(x, limit, per) && Fine(x1, limit, per) && Fine(y, limit, per) && PerOk(per)
    requires Entering(v, x, x1, y, limit, per, dir, nw, s, recs, [c])
    ensures c !in v.L.chains && c !in v.L.depth
  {
    hide ChainsOk, DirSlots, AllSlots, Joined, OpenAt, FreeAt, Sized, GrewBy, PutRun, Growing, DataShape, AllKept;
    GrowingFresh(v.fat, x.fat, limit, v.L, [c]);
    assert [c][0] == c;
  }

  /** The only live entries are the two dot entries, and no fragments lie before them. */
  predicate Vacant(s: Slots) {
    && |s| >= 2
    && forall i :: 0 <= i < |s| && Dirs.Live(s[i]) ==> i < 2 && DotName(Dotted(s[i])) && LongAt(s, i) == []
  }

  lemma DotsOnly(s: Slots, c: nat, up: nat)
    requires DotSlots(s, c, up)
    ensures Vacant(s)
  {
    hide Dotted, Short, NewEntry, LongName, EntClus, EntSize;
    NewEntryFields([DOT], ATTR_DIR, c, 0);
    NewEntryFields([DOT, DOT], ATTR_DIR, up, 0);
    DotNames();
    NoPend(s);
  }

  /** The last record of a directory's run. */
  lemma DirRecords(recs: seq<Entry>, name: Name, c: nat)
    requires c < 0x1000_0000 && Legible(name) && !DotName(NoSpaces(name))
        && RecordsOf(recs, name, ATTR_DIR, c, 0)
    ensures recs != [] && Records(recs) && !IsLfn(recs[|recs|-1]) && (forall i :: 0 <= i < |recs| ==> !Gone(recs[i]))
    ensures IsDir(recs[|recs|-1]) && !DotName(Dotted(recs[|recs|-1])) && EntClus(recs[|recs|-1]) == c
  {
    hide ShortEntry, Fragments, NeedsLfn, Dotted, NoSpaces, EntClus, EntSize, IsDir, Records;
    RecordsAreRecords(recs, name, ATTR_DIR, c, 0);
    ShortEntryFields(name, ATTR_DIR, c, 0);
  }

  lemma DirNeat(y: Vol, z: Vol, per: nat, c: nat, up: nat, dir: nat, slot: nat, bad: nat)
    requires Fits(y.data, y.L, per) && Fits(z.data, z.L, per) && z.data == y.data
        && z.L == NamedDir(y.L, c, Ref(dir, slot))
    requires NeatTree(TreeOf(y, per), bad) && (forall k :: k in z.L.depth ==> k in y.L.depth || k == c)
    requires c in z.L.chains && DotSlots(SlotsAt(z.data, z.L, per, c), c, up) && c != bad && up != bad
    ensures NeatTree(TreeOf(z, per), bad)
  {
    hide DirSlots, Neat, Shuns, NeatTree, DotSlots;
    NeatDots(SlotsAt(z.data, z.L, per, c), c, up, bad);
    SameNeat(y, z, per, bad);
  }

  /** An addition leaves the clusters of every other directory alone. */
  lemma EnteringAlone(v: Vol, x: Vol, x1: Vol, y: Vol, limit: nat, per: nat, dir: nat, nw: nat, s: nat,
                      recs: seq<Entry>, ch: seq<nat>)
    requires Fine(v, limit, per) && Fine(x, limit, per) && Fine(x1, limit, per) && Fine(y, limit, per) && PerOk(per)
    requires Entering(v, x, x1, y, limit, per, dir, nw, s, recs, ch)
    ensures OthersAlone(v, y, dir)
  {
    hide ChainsOk, DirSlots, AllSlots, Joined, OpenAt, FreeAt, Sized, Overlay, GrewBy, PutRun, SameChain, ChainAlone,
         Growing, DataShape;
    GrowingElsewhere(v.fat, x.fat, limit, ch);
    HeadsPositive(v.fat, limit, v.L);
    GrewSizes(x, x1, limit, per, dir, nw);
    forall k | k in v.L.depth && k != dir ensures k in v.L.chains && ChainAlone(v, y, k) {
      assert SameChain(v.fat, v.data, v.L, x.fat, x.data, x.L, k);
      AloneAt(v, x, x1, y, limit, per, dir, nw, s, recs, k);
    }
  }

  lemma GrewSizes(x: Vol, x1: Vol, limit: nat, per: nat, dir: nat, nw: nat)
    requires Fine(x, limit, per) && Fine(x1, limit, per) && dir in x.L.depth && GrewBy(x, x1, limit, per, dir, nw)
    ensures |x1.fat| == |x.fat| && |x1.data| == |x.data| && forall h :: h in x.L.chains ==> h in x1.L.chains
  {
    hide ChainsOk, DirSlots, AllSlots, Sized, DirItems;
  }

  lemma AloneAt(v: Vol, x: Vol, x1: Vol, y: Vol, limit: nat, per: nat, dir: nat, nw: nat, s: nat, recs: seq<Entry>,
                k: nat)
    requires Fine(x, limit, per) && Fine(x1, limit, per) && Fine(y, limit, per) && dir in x.L.depth && dir in x1.L.depth
    requires k in v.L.chains && k != dir && SameChain(v.fat, v.data, v.L, x.fat, x.data, x.L, k)
    requires GrewBy(x, x1, limit, per, dir, nw) && y.fat == x1.fat && y.L == x1.L
        && PutRun(x1.data, y.data, x1.L, per, dir, s, recs)
    ensures ChainAlone(v, y, k)
  {
    hide ChainsOk, DirSlots, Sized, GrewBy, PutRun, DataShape, DirItems;
    ChainFacts(x.fat, limit, x.L, dir);
    ChainFacts(x.fat, limit, x.L, k);
    Apart(x.L, dir, k);
    GrownAlone(x, x1, limit, per, dir, nw, k);
    WrittenAlone(x1, y, limit, per, dir, s, recs, k);
  }

  lemma GrownAlone(x: Vol, x1: Vol, limit: nat, per: nat, dir: nat, nw: nat, k: nat)
    requires Fine(x, limit, per) && Fine(x1, limit, per) && dir in x.L.depth && dir in x.L.chains
        && GrewBy(x, x1, limit, per, dir, nw)
    requires k in x.L.chains && k != dir && forall c :: c in x.L.chains[k] ==> c !in x.L.chains[dir]
    ensures k in x1.L.chains && x1.L.chains[k] == x.L.chains[k] && dir in x1.L.chains && |x1.fat| == |x.fat|
        && |x1.data| == |x.data|
    ensures forall c :: c in x.L.chains[k] ==> c !in x1.L.chains[dir]
    ensures forall c :: c in x.L.chains[k] && c < |x.fat| && c < |x.data| ==>
        x1.fat[c] == x.fat[c] && x1.data[c] == x.data[c]
  {
    hide ChainsOk, DirSlots, AllSlots, Sized, DirItems;
    if nw != 0 { FreeOffChains(x.fat, limit, x.L, nw); }
  }

  lemma WrittenAlone(x1: Vol, y: Vol, limit: nat, per: nat, dir: nat, s: nat, recs: seq<Entry>, k: nat)
    requires Fine(x1, limit, per) && Fine(y, limit, per) && dir in x1.L.depth && y.L == x1.L && y.fat == x1.fat
        && dir in x1.L.chains
    requires PutRun(x1.data, y.data, x1.L, per, dir, s, recs)
    requires k in x1.L.chains && forall c :: c in x1.L.chains[k] ==> c !in x1.L.chains[dir]
    ensures ChainAlone(x1, y, k)
  {
    hide DirSlots, AllSlots, DirItems, Overlay;
    ChainsAreChains(x1.fat, limit, x1.L, k);
  }

  /** A directory below the root has its dot slots in use. */
  lemma DotsInUse(v: Vol, limit: nat, root: nat, per: nat, d: nat)
    requires Sound(v, limit, root, per) && PerOk(per) && d in v.L.depth && d != root
    ensures FreeAt(SlotsAt(v.data, v.L, per, d)) >= 2
  {
    hide ChainsOk, DirSlots, EntriesOk, RefsOk, FreeAt, DataShape, View;
    var D := DirItems(v.data, v.L, per);
    assert DirOk(D, v.L, root, d);
    DotsNotFree(SlotsAt(v.data, v.L, per, d), d, v.L.refs[d].dir, root, PerBytes(per));
  }

  lemma DotsNotFree(s: Slots, d: nat, parent: nat, root: nat, cb: nat)
    requires cb > 0 && DotsOk(ItemsOf(s, cb), d, parent, root)
    ensures FreeAt(s) >= 2
  {
    hide Dotted, EntClus, EntSize, NumClus, FreeAt;
    var items := ItemsOf(s, cb);
    assert items[0] == View(s[0], cb) && items[1] == View(s[1], cb);
    var r := FreeAt(s);
    assert r < |s| ==> FreeSlot(s[r]);
  }

  /** A dot name entered anywhere, or more than 4096 slots in a directory: no longer well formed. */
  lemma EnteringSpoils(v: Vol, x: Vol, x1: Vol, y: Vol, limit: nat, root: nat, per: nat, dir: nat, nw: nat, s: nat,
                       recs: seq<Entry>, ch: seq<nat>, name: Name, attr: byte, clus: nat, size: nat)
    requires Sound(v, limit, root, per) && Fine(x, limit, per) && Fine(x1, limit, per) && Fine(y, limit, per)
        && PerOk(per)
    requires Entering(v, x, x1, y, limit, per, dir, nw, s, recs, ch) && clus < 0x1_0000_0000 && size < 0x1_0000_0000
    requires RecordsOf(recs, name, attr, clus, size) && attr in {ATTR_ARC, ATTR_DIR}
    requires DotName(NoSpaces(name)) || |SlotsAt(y.data, y.L, per, dir)| > MAX_SLOTS
    ensures !Mendable(y, limit, root, per)
  {
    hide ChainsOk, DirSlots, AllSlots, OpenAt, FreeAt, Sized, TreeOk, DirItems, NoSpaces, Dotted, ShortEntry, NeedsLfn,
         Fragments, Mendable, AllKept, Joined, GrewBy, Growing, DataShape;
    EnteringAlone(v, x, x1, y, limit, per, dir, nw, s, recs, ch);
    ShortEntryFields(name, attr, clus, size);
    if DotName(NoSpaces(name)) {
      ShortNameDots(name);
      if dir != root { DotsInUse(v, limit, root, per, dir); }
      assert SlotsAt(y.data, y.L, per, dir)[s + |recs| - 1] == recs[|recs|-1];
    }
    BadDirSpoils(v, y, limit, root, per, dir);
  }

  // ---------------------------------------------------------------- what a call promises

  /** A directory to put the entry in, clusters for its bytes, and room for its records. */
  ghost predicate CanTake(v: Vol, limit: nat, root: nat, per: nat, parts: seq<Name>, name: Name, need: nat) {
    && Fine(v, limit, per)
    && var d := Led(v, root, per, parts);
       && d.Some? && d.value in v.L.depth && |FreeSet(v.fat, limit)| >= need && Numbered(name)
       && HasRun(SlotsAt(v.data, v.L, per, d.value), per, |FreeSet(v.fat, limit)| - need, RunLength(name))
  }

  /** The records of `name` would end within the 4096 slots that the driver looks at. */
  predicate InSight(slots: Slots, name: Name) { FreeAt(slots) + RunLength(name) <= MAX_SLOTS }

  /** They would, in the directory the path leads to. */
  ghost predicate Sighted(v: Vol, root: nat, per: nat, parts: seq<Name>, name: Name) {
    && Fits(v.data, v.L, per)
    && var d := Led(v, root, per, parts);
       d.Some? && d.value in v.L.depth && InSight(SlotsAt(v.data, v.L, per, d.value), name)
  }

  /** Directories are whole clusters, and 4096 slots are too: a new cluster ends in sight if the records do. */
  lemma InSightIs(n: nat, per: nat, s: nat, k: nat, grown: bool)
    requires PerOk(per) && n * per <= MAX_SLOTS && s <= n * per && s + k <= n * per + (if grown then per else 0)
    requires grown ==> s + k > n * per
    ensures s + k <= MAX_SLOTS <==> n * per + (if grown then per else 0) <= MAX_SLOTS
  {
  }

  /** The directory written to is there before and after, and no chain was lost. */
  lemma EnteringDir(v: Vol, x: Vol, x1: Vol, y: Vol, limit: nat, per: nat, dir: nat, nw: nat, s: nat, recs: seq<Entry>,
                    ch: seq<nat>)
    requires Fine(v, limit, per) && Fine(x, limit, per) && Fine(x1, limit, per) && Fine(y, limit, per) && PerOk(per)
    requires Entering(v, x, x1, y, limit, per, dir, nw, s, recs, ch)
    ensures dir in v.L.depth && s == FreeAt(SlotsAt(v.data, v.L, per, dir))
    ensures dir in y.L.depth && forall h :: h in x.L.chains ==> h in y.L.chains
  {
    hide ChainsOk, DirSlots, AllSlots, PutRun, OpenAt, FreeAt, Growing, Joined, AllKept, DataShape, Fits, GrewBy;
    GrewSizes(x, x1, limit, per, dir, nw);
  }

  /** The directory is no longer than 4096 slots exactly if the records end in sight. */
  lemma EnteringInSight(v: Vol, x: Vol, x1: Vol, y: Vol, limit: nat, root: nat, per: nat, dir: nat, nw: nat, s: nat,
                        recs: seq<Entry>, ch: seq<nat>)
    requires Sound(v, limit, root, per) && Fine(x, limit, per) && Fine(x1, limit, per) && Fine(y, limit, per)
        && PerOk(per)
    requires Entering(v, x, x1, y, limit, per, dir, nw, s, recs, ch)
    requires nw != 0 ==> s + |recs| > |SlotsAt(v.data, v.L, per, dir)|
    ensures |SlotsAt(y.data, y.L, per, dir)| <= MAX_SLOTS <==>
            FreeAt(SlotsAt(v.data, v.L, per, dir)) + |recs| <= MAX_SLOTS
  {
    hide ChainsOk, DirItems, AllSlots, Sized, Growing, Joined, AllKept, DataShape, OpenAt, TreeOk, GrewBy, PutRun,
         DirSlots, FreeAt;
    EnteringLies(v, x, x1, y, limit, per, dir, nw, s, recs, ch);
    SlotsBounded(v, limit, root, per, dir);
    LiesBound(TreeOf(v, per), TreeOf(y, per), dir, recs);
    InSightIs(|v.L.chains[dir]|, per, s, |recs|, nw != 0);
  }

  lemma LiesBound(S: Tree, S': Tree, dir: nat, recs: seq<Entry>)
    requires Lies(S, S', dir, recs)
    ensures FreeAt(S[dir]) + |recs| <= |S'[dir]|
  {
  }

  lemma SlotsBounded(v: Vol, limit: nat, root: nat, per: nat, d: nat)
    requires Sound(v, limit, root, per) && PerOk(per) && d in v.L.depth
    ensures |SlotsAt(v.data, v.L, per, d)| == |v.L.chains[d]| * per <= MAX_SLOTS
  {
    hide ChainsOk, EntriesOk, RefsOk;
    var D := DirItems(v.data, v.L, per);
    assert d in D && DirOk(D, v.L, root, d);
    assert D[d] == ItemsOf(SlotsAt(v.data, v.L, per, d), PerBytes(per));
  }

  /** The records are in place; the other directories and all files are as they were. */
  ghost predicate Inserted(v: Vol, z: Vol, limit: nat, per: nat, dir: nat, recs: seq<Entry>) {
    && Fine(v, limit, per) && Fine(z, limit, per) && dir in v.L.depth && |z.fat| == |v.fat| && Kept(v, z, 0)
    && Lies(TreeOf(v, per), TreeOf(z, per), dir, recs)
  }

  lemma EnteringPlaces(v: Vol, x: Vol, x1: Vol, y: Vol, z: Vol, limit: nat, per: nat, dir: nat, nw: nat, s: nat,
                       recs: seq<Entry>, ch: seq<nat>)
    requires Fine(v, limit, per) && Fine(x, limit, per) && Fine(x1, limit, per) && Fine(y, limit, per) && PerOk(per)
    requires Entering(v, x, x1, y, limit, per, dir, nw, s, recs, ch)
    requires z.fat == y.fat && z.data == y.data && z.L.chains == y.L.chains && z.L.places == y.L.places
    requires (forall d :: d in z.L.depth ==> d in z.L.chains) && forall d :: d in y.L.depth ==> d in z.L.depth
    ensures Inserted(v, z, limit, per, dir, recs)
  {
    hide ChainsOk, DirSlots, AllSlots, PutRun, OpenAt, FreeAt, Growing, Joined, AllKept, DataShape, GrewBy, SameChain,
         Sized, Lies;
    HeadsPositive(v.fat, limit, v.L);
    EnteringLies(v, x, x1, y, limit, per, dir, nw, s, recs, ch);
    EnteringKeeps(v, x, x1, y, limit, per, dir, nw, s, recs, ch);
    ChainsIgnoreNames(y.fat, limit, y.L, z.L);
    ChainsFit(z.fat, z.data, limit, z.L, per);
    LiesNamed(v, y, z, per, dir, recs);
    KeptNamed(v, y, z);
  }

  lemma KeptNamed(v: Vol, y: Vol, z: Vol)
    requires Kept(v, y, 0) && z.fat == y.fat && z.data == y.data && z.L.chains == y.L.chains
    ensures Kept(v, z, 0)
  {
  }

  /** A file is entered in `dir`, behind all other entries. */
  ghost predicate Filed(v: Vol, z: Vol, limit: nat, root: nat, per: nat, dir: nat, recs: seq<Entry>, first: nat,
                        name: Name, bytes: seq<byte>) {
    && Fine(v, limit, per) && Fine(z, limit, per) && dir in v.L.depth && z.L.depth == v.L.depth && Kept(v, z, 0)
    && first < 0x1_0000_0000 && |bytes| < 0x1_0000_0000 && RecordsOf(recs, name, ATTR_ARC, first, |bytes|)
    && FileAdded(v, z, limit, root, per, dir, FreeAt(SlotsAt(v.data, v.L, per, dir)), recs, bytes)
    && Lies(TreeOf(v, per), TreeOf(z, per), dir, recs)
  }

  /** An empty directory is entered in `dir`, behind all other entries. */
  ghost predicate Made(v: Vol, z: Vol, limit: nat, root: nat, per: nat, dir: nat, recs: seq<Entry>, c: nat,
                       name: Name)
  {
    && Fine(v, limit, per) && Fine(z, limit, per) && dir in v.L.depth
         && (forall k :: k in z.L.depth <==> k in v.L.depth || k == c) && Kept(v, z, 0)
    && c < 0x1_0000_0000 && RecordsOf(recs, name, ATTR_DIR, c, 0)
    && DirAdded(v, z, limit, root, per, dir, FreeAt(SlotsAt(v.data, v.L, per, dir)), recs, c)
    && Lies(TreeOf(v, per), TreeOf(z, per), dir, recs) && c !in v.L.depth && Vacant(TreeOf(z, per)[c])
  }

  /** A dot entry (make_fat.py:327-336, make_floppy.py:280-288). */
  function DotEntry(name: Name, clus: nat): (e: Entry)
    requires DotName(name) && clus < 0x1_0000_0000
    ensures e == NewEntry(name, ATTR_DIR, clus, 0)
  {
    var raw: Entry := name + Spaces(11 - |name|) + [ATTR_DIR] + Zeros(20);
    W16(W16(raw, 20, clus / 0x10000), 26, clus % 0x10000)
  }

  /** The two dot entries in an empty cluster. */
  lemma DotsPut(cb: nat, c: nat, up: nat, dot: Entry, dots: Entry)
    requires cb >= 64 && cb % 32 == 0 && c < 0x1_0000_0000 && up < 0x1_0000_0000
    requires dot == NewEntry([DOT], ATTR_DIR, c, 0) && dots == NewEntry([DOT, DOT], ATTR_DIR, up, 0)
    ensures DotSlots(SlotsOf(Put(Zeros(cb), 0, dot + dots)), c, up)
  {
    hide NewEntry, SlotsOf, Flat;
    var z := Zeros(cb);
    TwoFlat(dot, dots);
    SplicedSlots(z, 0, [dot, dots]);
    var r := z[..32 * 0] + Flat([dot, dots]) + z[32 * (0 + |[dot, dots]|)..];
    assert r == Put(z, 0, dot + dots);
    ZerosEnded(cb);
  }

  lemma TwoFlat(a: Entry, b: Entry)
    ensures Flat([a, b]) == a + b
  {
    assert [a, b][1..] == [b] && [b][1..] == [];
    assert Flat([b]) == b + Flat([]);
  }

  lemma ZerosEnded(cb: nat)
    ensures AllEnded(SlotsOf(Zeros(cb))) && |SlotsOf(Zeros(cb))| == cb / 32
  {
  }

  /** The root of a new image: a volume label that starts with an A, and end marks. */
  lemma LabelRoot(cb: nat, e: Entry)
    requires e[0] == 65 && e[11] == ATTR_VOL && cb >= 64 && cb % 32 == 0
    ensures var s := SlotsOf(Put(Zeros(cb), 0, e));
        FreshRoot(s) && Neat(s) && |s| == cb / 32 && forall bad: nat :: Shuns(s, bad)
  {
    hide SlotsOf, Flat;
    var z := Zeros(cb);
    SplicedSlots(z, 0, [e]);
    assert Flat([e]) == e by { OneFlat(e); }
    assert z[..32 * 0] + Flat([e]) + z[32 * (0 + |[e]|)..] == Put(z, 0, e);
    ZerosEnded(cb);
    assert |SlotsOf(z)| == cb / 32 by { SlotsCount(z); }
  }

  lemma OneFlat(e: Entry)
    ensures Flat([e]) == e
  {
    assert [e][1..] == [];
    assert Flat([e]) == e + Flat([]);
  }

  lemma SlotsCount(c: seq<byte>)
    ensures |SlotsOf(c)| == |c| / 32
  {
  }

  lemma PutPad(piece: seq<byte>, cb: nat)
    requires |piece| <= cb
    ensures Put(Zeros(cb), 0, piece) == Pad(piece, cb)
  {
    assert Zeros(cb)[|piece|..] == Zeros(cb - |piece|);
  }

  lemma EndsHead(ch: seq<nat>, first: nat, prev: nat)
    requires Ends(ch, first, prev)
    ensures first == HeadOf(ch)
  {
  }

  lemma AsideIs(v: Vol, x: Vol, limit: nat, per: nat)
    requires Fine(v, limit, per) && Fine(x, limit, per) && |x.data| == |v.data| && x.L.depth == v.L.depth
    requires forall k :: k in v.L.chains ==> SameChain(v.fat, v.data, v.L, x.fat, x.data, x.L, k)
    ensures AllKept(v, x, 0) && AllSlots(x.data, x.L, per) == AllSlots(v.data, v.L, per)
  {
    hide ChainsOk, DirSlots, DirItems, AllSlots, SameChain;
    FilesAlone(v, x, limit, per);
  }

  /** The same directory in another volume with the same directories. */
  lemma SameTree(v: Vol, x: Vol, per: nat, d: nat)
    requires Fits(v.data, v.L, per) && Fits(x.data, x.L, per) && d in v.L.depth && x.L.depth == v.L.depth
    requires AllSlots(x.data, x.L, per) == AllSlots(v.data, v.L, per)
    ensures d in x.L.depth && SlotsAt(x.data, x.L, per, d) == SlotsAt(v.data, v.L, per, d)
  {
    hide DirSlots;
    SameHit2(v, x, per, d);
  }

  lemma GrowingOne(fat: seq<nat>, limit: nat, c: nat)
    requires 2 <= c < limit <= |fat| && 3 <= limit <= BAD && fat[c] == 0
    ensures Growing(fat, fat[c := EOC_MARK], limit, [c])
  {
  }

  lemma JoinedHas(T: Layout, c: nat)
    ensures c in Joined(T, [c], NOWHERE).chains
  {
  }
}
