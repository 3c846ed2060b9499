/**
 * A run of records at the end of a directory: long-name fragments and the entry behind them, as
 * the image builder writes them (tools/make_fat.py:369-420), and what they change for the
 * driver's lookups.
 */
module Runs {
  import opened Options
  import opened Bytes
  import opened Names
  import opened Chains
  import opened Dirs
  import opened Trees
  import opened Wellformed
  import opened Ops
  import opened Paths

  /** `recs` written over the slots from `s` on. */
  function Overlay(slots: Slots, s: nat, recs: seq<Entry>): (r: Slots)
    requires s + |recs| <= |slots|
    ensures |r| == |slots|
    ensures forall i :: 0 <= i < |r| ==> r[i] == if s <= i < s + |recs| then recs[i - s] else slots[i]
  {
    slots[..s] + recs + slots[s + |recs|..]
  }

  /** Fragments, and the live entry they belong to. */
  predicate Records(recs: seq<Entry>) {
    recs != [] && Dirs.Live(recs[|recs|-1]) && forall i :: 0 <= i < |recs| - 1 ==> IsLfn(recs[i])
  }

  /** Slots before `s` are taken, those from `s` on are end marks. */
  predicate OpenAt(slots: Slots, s: nat) {
    && s <= |slots| && (forall j :: 0 <= j < s ==> !FreeSlot(slots[j]))
    && forall j :: s <= j < |slots| ==> Ended(slots[j])
  }

  // ---------------------------------------------------------------- fragments alone

  /** `b` is `a` with `k` fragments behind its last entry, and any number of end marks. */
  predicate Padded(a: Slots, b: Slots, s: nat, k: nat) {
    && OpenAt(a, s) && s + k <= |b| && b[..s] == a[..s]
    && (forall j :: s <= j < s + k ==> IsLfn(b[j])) && forall j :: s + k <= j < |b| ==> Ended(b[j])
  }

  lemma {:induction false} NoneBehind(a: Slots, b: Slots, s: nat, k: nat, n: Name, i: nat)
    requires Padded(a, b, s, k) && s <= i <= |b|
    ensures FindFrom(b, n, i) == None
    decreases |b| - i
  {
    if i < |b| { NoneBehind(a, b, s, k, n, i + 1); }
  }

  /** Fragments without an entry change no lookup. */
  lemma {:induction false} PaddedFinds(a: Slots, b: Slots, s: nat, k: nat, n: Name, i: nat)
    requires Padded(a, b, s, k) && i <= s
    ensures FindFrom(b, n, i) == FindFrom(a, n, i)
    decreases s - i
  {
    hide Dotted, NameEq, LongName;
    if i == s {
      NoneBehind(a, b, s, k, n, s);
    } else {
      PaddedInfo(a, b, s, k, i);
      PaddedFinds(a, b, s, k, n, i + 1);
    }
  }

  lemma PaddedInfo(a: Slots, b: Slots, s: nat, k: nat, i: nat)
    requires Padded(a, b, s, k) && i < s
    ensures i < |a| && i < |b| && b[i] == a[i] && PendAt(b, i) == PendAt(a, i)
  {
    assert b[i] == b[..s][i] == a[..s][i];
    assert a[..i] == a[..s][..i] && b[..i] == b[..s][..i];
    PendPrefix(a, b, i);
  }

  ghost predicate PaddedTree(S: Tree, S1: Tree, dir: nat, s: nat, k: nat) {
    && dir in S && dir in S1 && Padded(S[dir], S1[dir], s, k)
    && (forall d :: d in S1 <==> d in S) && forall d :: d in S && d != dir ==> S1[d] == S[d]
  }

  lemma PaddedSpot(S: Tree, S1: Tree, root: nat, dir: nat, s: nat, k: nat, d: nat, n: Name)
    requires PaddedTree(S, S1, dir, s, k)
    ensures SpotIn(S1, d, n) == SpotIn(S, d, n) && Step(S1, root, d, n) == Step(S, root, d, n)
  {
    hide FindFrom, Dirs.Live, IsDir, EntClus, Dotted, LongName;
    if d == dir {
      PaddedFinds(S[dir], S1[dir], s, k, n, 0);
      var spot := SpotIn(S, d, n);
      if spot.At? {
        assert spot.ref.slot < s;
        PaddedInfo(S[dir], S1[dir], s, k, spot.ref.slot);
      }
    }
  }

  lemma {:induction false} PaddedWalk(S: Tree, S1: Tree, root: nat, dir: nat, s: nat, k: nat, d: nat, parts: seq<Name>)
    requires PaddedTree(S, S1, dir, s, k)
    ensures Walk(S1, root, d, parts) == Walk(S, root, d, parts)
    decreases |parts|
  {
    hide PaddedTree, Step;
    if parts != [] {
      PaddedSpot(S, S1, root, dir, s, k, d, parts[0]);
      if Step(S, root, d, parts[0]).Some?
        { PaddedWalk(S, S1, root, dir, s, k, Step(S, root, d, parts[0]).value, parts[1..]); }
    }
  }

  /** Every path names what it named. */
  lemma PaddedLocate(S: Tree, S1: Tree, root: nat, dir: nat, s: nat, k: nat, q: seq<Name>)
    requires PaddedTree(S, S1, dir, s, k)
    ensures Locate(S1, root, q) == Locate(S, root, q) && (q != [] ==> Parent(S1, root, q) == Parent(S, root, q))
  {
    hide PaddedTree, SpotIn, Step;
    if q != [] {
      PaddedWalk(S, S1, root, dir, s, k, root, q[..|q|-1]);
      if Parent(S, root, q).Some? { PaddedSpot(S, S1, root, dir, s, k, Parent(S, root, q).value, Last(q)); }
    }
  }

  /** The slot of the first fragment was nobody's, and all entries read as before. */
  lemma PaddedSame(S: Tree, S1: Tree, root: nat, dir: nat, s: nat, k: nat, q: seq<Name>)
    requires PaddedTree(S, S1, dir, s, k)
    ensures SameEntries(S, S1, dir, s) && Locate(S, root, q) != At(Ref(dir, s))
  {
    hide Dotted, LongName, FindFrom, IsDir, EntClus, EntSize, Walk;
    forall d: nat, i: nat | d in S && d in S1 && i < |S[d]| && i < |S1[d]| && (d != dir || i != s) && Dirs.Live(S[d][i])
      ensures S1[d][i] == S[d][i] && InfoAt(S1[d], i) == InfoAt(S[d], i)
    {
      if d == dir { PaddedInfo(S[dir], S1[dir], s, k, i); }
    }
  }

  // ---------------------------------------------------------------- the entry behind them

  /** `e` goes into the first free slot, an end mark; if it names a directory, `dead`, that one is empty. */
  ghost predicate Tacked(S: Tree, S': Tree, root: nat, dir: nat, slot: nat, e: Entry, dead: nat) {
    && dir in S && Edited(S, S', dir, [], slot, e) && OpenAt(S[dir], slot) && slot < |S[dir]| && slot < MAX_SLOTS
         && Dirs.Live(e)
    && (forall k :: k in S' ==> k in S || k == dead) && dead !in S && root in S
    && (IsDir(e) ==> EntClus(e) == dead != 0)
    && (forall n: Name :: !DotName(n) ==> SpotIn(S', dead, n) == Nowhere)
  }

  /** The names that find the new entry: its own two, where they found nothing before. */
  lemma TackedFinds(S: Tree, S': Tree, root: nat, dir: nat, slot: nat, e: Entry, dead: nat, d: nat, n: Name)
    requires Tacked(S, S', root, dir, slot, e, dead) && !DotName(n)
    ensures SpotIn(S', d, n) == if d == dir && SpotIn(S, dir, n) == Nowhere
        && Answers(S[dir], slot, Dotted(e), n) then At(Ref(dir, slot))
                                else SpotIn(S, d, n)
  {
    hide FindFrom, IsDir, EntClus, Dotted, NameEq, LongName;
    if d == dir {
      var a := S[dir];
      assert a + [] == a;
      FindAdded(a, slot, e, n);
      PendPrefix(a, a[slot := e], slot);
    }
  }

  lemma TackedDiffers(S: Tree, S': Tree, root: nat, dir: nat, slot: nat, e: Entry, dead: nat)
    requires Tacked(S, S', root, dir, slot, e, dead)
    ensures Differ(S, S', root, dir, slot, dead)
  {
    hide FindFrom, SameEntries, EntClus, Dotted, NameEq, Answers;
    assert S[dir] + [] == S[dir];
    EditedSame(S, S', dir, [], slot, e);
    EnteredStep(S, S', root, dir, [], slot, e, dead);
    forall d: nat, n: Name | !DotName(n)
      ensures SpotIn(S', d, n) == SpotIn(S, d, n)
          || (Loose(SpotIn(S, d, n), dir, slot) && Loose(SpotIn(S', d, n), dir, slot)) {
      TackedFinds(S, S', root, dir, slot, e, dead, d, n);
    }
    forall n: Name ensures SpotIn(S, dir, n) != At(Ref(dir, slot)) { NotYet(S, dir, slot, n); }
  }

  lemma NotYet(S: Tree, dir: nat, slot: nat, n: Name)
    requires dir in S && OpenAt(S[dir], slot)
    ensures SpotIn(S, dir, n) != At(Ref(dir, slot))
  {
    hide FindFrom;
  }

  /** The path leads to nothing yet, and to the new entry by one of its names. */
  ghost predicate NamesRun(S: Tree, root: nat, dir: nat, slots: Slots, slot: nat, e: Entry, q: seq<Name>)
    requires slot <= |slots|
  {
    && q != [] && Parent(S, root, q) == Some(dir) && Locate(S, root, q) == Nowhere
    && Answers(slots, slot, Dotted(e), Last(q))
  }

  lemma TackedLocate(S: Tree, S': Tree, root: nat, dir: nat, slot: nat, e: Entry, dead: nat, q: seq<Name>)
    requires Tacked(S, S', root, dir, slot, e, dead) && Plain(q)
    ensures SameEntries(S, S', dir, slot)
    ensures if NamesRun(S, root, dir, S[dir], slot, e, q) then Locate(S', root, q) == At(Ref(dir, slot))
            else Locate(S', root, q) == Locate(S, root, q) != At(Ref(dir, slot))
  {
    hide FindFrom, SameEntries, NameEq, Dotted, EntClus, IsDir, Edited, Walk, Answers;
    TackedDiffers(S, S', root, dir, slot, e, dead);
    DifferEntries(S, S', root, dir, slot, dead);
    LocateAgrees(S, S', root, dir, slot, dead, q);
    if q != [] && Parent(S, root, q) == Some(dir) {
      assert !DotName(Last(q));
      TackedFinds(S, S', root, dir, slot, e, dead, dir, Last(q));
      NotYet(S, dir, slot, Last(q));
    }
  }

  // ---------------------------------------------------------------- the tree

  /** A fragment in the first slot of the end marks. */
  lemma TreeNote(D: DirMap, L: Layout, root: nat, d: nat, s: nat)
    requires TreeOk(D, L, root) && d in D && s < |D[d]| && D[d][s].End? && forall i :: 0 <= i < s ==> !D[d][i].End?
    ensures TreeOk(Added(D, d, s, Note), L, root)
  {
    hide EntriesOk, RefsOk;
    var D' := Added(D, d, s, Note);
    assert DirOk(D, L, root, d);
    forall k | k in D' ensures DirOk(D', L, root, k) {
      assert DirOk(D, L, root, k);
      if k == d { TidySet(D[d], s, Note); }
      DirKept(D, L, D', L, root, k);
    }
    NoteEntries(D, L, root, d, s);
    NoteRefs(D, L, root, d, s);
  }

  lemma NoteEntries(D: DirMap, L: Layout, root: nat, d: nat, s: nat)
    requires TreeOk(D, L, root) && d in D && s < |D[d]| && D[d][s].End?
    ensures EntriesOk(Added(D, d, s, Note), L, root)
  {
    hide RefsOk, DirsOk, EntriesOk, SlotsKept;
    EntriesKept(D, L, Added(D, d, s, Note), L, root, d, s, 0);
  }

  lemma NoteRefs(D: DirMap, L: Layout, root: nat, d: nat, s: nat)
    requires TreeOk(D, L, root) && d in D && s < |D[d]| && D[d][s].End?
    ensures RefsOk(Added(D, d, s, Note), L, root)
  {
    forall k | k in L.refs ensures L.refs[k] != Ref(d, s) && L.refs[k].dir in D { assert RefOk(D, L, root, k); }
    hide RefOk, RefsOk, SlotsKept, DirsOk, EntriesOk;
    RefsKept(D, L, Added(D, d, s, Note), L, root, d, s, 0);
  }

  /** `k` fragments from slot `s` on. */
  ghost function Noted(D: DirMap, d: nat, s: nat, k: nat): (r: DirMap)
    requires d in D && s + k <= |D[d]|
    ensures forall x :: x in r <==> x in D
    ensures forall x :: x in D && x != d ==> r[x] == D[x]
    ensures |r[d]| == |D[d]| && forall i :: 0 <= i < |D[d]| ==> r[d][i] == if s <= i < s + k then Note else D[d][i]
  {
    if k == 0 then D else Added(Noted(D, d, s, k - 1), d, s + k - 1, Note)
  }

  lemma {:induction false} TreeNotes(D: DirMap, L: Layout, root: nat, d: nat, s: nat, k: nat)
    requires TreeOk(D, L, root) && d in D && s + k <= |D[d]|
    requires (forall i :: 0 <= i < s ==> !D[d][i].End?) && forall i :: s <= i < |D[d]| ==> D[d][i].End?
    ensures TreeOk(Noted(D, d, s, k), L, root)
  {
    hide TreeOk, Noted, Added;
    NotedStep(D, d, s, k);
    if k > 0 {
      TreeNotes(D, L, root, d, s, k - 1);
      TreeNote(Noted(D, d, s, k - 1), L, root, d, s + k - 1);
    }
  }

  lemma NotedStep(D: DirMap, d: nat, s: nat, k: nat)
    requires d in D && s + k <= |D[d]|
    requires (forall i :: 0 <= i < s ==> !D[d][i].End?) && forall i :: s <= i < |D[d]| ==> D[d][i].End?
    ensures if k == 0 then Noted(D, d, s, k) == D
            else
              var N := Noted(D, d, s, k - 1);
              && Noted(D, d, s, k) == Added(N, d, s + k - 1, Note)
              && N[d][s + k - 1].End? && forall i :: 0 <= i < s + k - 1 ==> !N[d][i].End?
  {
    hide Added;
  }

  // ---------------------------------------------------------------- the volume

  /** The slots of directory `d` from `s` on are now `recs`, and nothing else changed. */
  ghost predicate PutRun(data: seq<seq<byte>>, data': seq<seq<byte>>, L: Layout, per: nat, d: nat, s: nat,
                         recs: seq<Entry>)
    requires Fits(data, L, per) && Fits(data', L, per) && d in L.depth
  {
    && s + |recs| <= |SlotsAt(data, L, per, d)|
         && SlotsAt(data', L, per, d) == Overlay(SlotsAt(data, L, per, d), s, recs)
    && (forall k :: k in L.depth && k != d ==> SlotsAt(data', L, per, k) == SlotsAt(data, L, per, k))
    && (forall c :: 0 <= c < |data| && c < |data'| && c !in L.chains[d] ==> data'[c] == data[c])
  }

  /** `e` in place of slot `q` of a cluster. */
  function Patched(c: seq<byte>, q: nat, e: Entry): (r: seq<byte>)
    requires q * 32 + 32 <= |c|
    ensures |r| == |c| && SlotsOf(r) == SlotsOf(c)[q := e]
  {
    var r := c[..q * 32] + e + c[q * 32 + 32..];
    SlotsOfPut(c, r, q, e);
    r
  }

  /** One slot set to `e`, in the cluster that holds it. */
  lemma PatchSlot(fat: seq<nat>, data: seq<seq<byte>>, limit: nat, L: Layout, per: nat, d: nat, s: nat, e: Entry)
    returns (data': seq<seq<byte>>)
    requires ChainsOk(fat, limit, L) && DataShape(data, limit, per) && Fits(data, L, per) && d in L.depth
        && s < |SlotsAt(data, L, per, d)|
    ensures |data'| == |data| && DataShape(data', limit, per) && Fits(data', L, per)
        && PutAt(data, data', L, per, d, s, e)
    ensures PutAt(data', data, L, per, d, s, SlotsAt(data, L, per, d)[s])
  {
    hide ChainsOk, DirSlots, SlotsOf, PutAt, Patched, DirItems, View;
    var ch, q := L.chains[d], s % per;
    assert Sized(data, ch, per);
    SlotPlace(data, ch, per, s);
    var k := ch[s / per];
    SlotRoom(q, per);
    data' := data[k := Patched(data[k], q, e)];
    ItemsPut(fat, data, limit, L, per, d, s, Patched(data[k], q, e), e);
    var was := SlotsAt(data, L, per, d)[s];
    assert SlotsOf(data[k]) == SlotsOf(data'[k])[q := was];
    ItemsPut(fat, data', limit, L, per, d, s, data[k], was);
    assert data'[k := data[k]] == data;
  }

  lemma SlotRoom(q: nat, per: nat)
    requires q < per
    ensures q * 32 + 32 <= per * 32
  {
  }

  lemma OverlayLess(a: Slots, s: nat, recs: seq<Entry>)
    requires recs != [] && s + |recs| <= |a|
    ensures var slot := s + |recs| - 1;
            && Overlay(a, s, recs)[slot := a[slot]] == Overlay(a, s, recs[..|recs|-1])
                 && Overlay(a, s, recs)[slot] == recs[|recs|-1]
  {
  }

  /** What `PutAt` says of the slots. */
  lemma PutSlots(data: seq<seq<byte>>, data': seq<seq<byte>>, L: Layout, per: nat, d: nat, s: nat, e: Entry)
    requires Fits(data, L, per) && Fits(data', L, per) && d in L.depth && s < |SlotsAt(data, L, per, d)|
    requires PutAt(data, data', L, per, d, s, e)
    ensures SlotsAt(data', L, per, d) == SlotsAt(data, L, per, d)[s := e]
    ensures forall k :: k in L.depth && k != d ==> SlotsAt(data', L, per, k) == SlotsAt(data, L, per, k)
    ensures forall c :: 0 <= c < |data| && c < |data'| && c !in L.chains[d] ==> data'[c] == data[c]
  {
    hide DirItems, DirSlots, Added;
  }

  /** A run is its fragments, then its last record. */
  lemma SplitRun(fat: seq<nat>, data: seq<seq<byte>>, data': seq<seq<byte>>, limit: nat, L: Layout, per: nat, d: nat,
                 s: nat, recs: seq<Entry>)
    returns (data2: seq<seq<byte>>)
    requires ChainsOk(fat, limit, L) && DataShape(data', limit, per) && Fits(data, L, per) && Fits(data', L, per)
        && d in L.depth
    requires |data| == |data'| && recs != [] && PutRun(data, data', L, per, d, s, recs)
    ensures |data2| == |data| && DataShape(data2, limit, per) && Fits(data2, L, per)
    ensures PutRun(data, data2, L, per, d, s, recs[..|recs|-1])
    ensures PutAt(data2, data', L, per, d, s + |recs| - 1, recs[|recs|-1])
  {
    hide ChainsOk, DirSlots, DataShape, DirItems, View, Sized, PutAt, Overlay;
    var slot := s + |recs| - 1;
    var was := SlotsAt(data, L, per, d)[slot];
    OverlayLess(SlotsAt(data, L, per, d), s, recs);
    data2 := PatchSlot(fat, data', limit, L, per, d, slot, was);
    PutSlots(data', data2, L, per, d, slot, was);
  }

  /**
   * Adding a run of records: from `v`, a chain `ch` is filled and kept aside (`x`), directory
   * `dir` may grow by `nw` (`x1`), and the records go behind its last entry (`y`).
   */
  ghost predicate Appending(v: Vol, x: Vol, x1: Vol, y: Vol, limit: nat, per: nat, dir: nat, nw: nat, s: nat,
                            recs: seq<Entry>, ch: seq<nat>)
    requires Fine(v, limit, per) && Fine(x, limit, per) && Fine(x1, limit, per) && Fine(y, limit, per) && PerOk(per)
  {
    && dir in v.L.depth && Growing(v.fat, x.fat, limit, ch) && Distinct(ch) && AllKept(v, x, 0)
         && x.L == Joined(v.L, ch, NOWHERE)
    && x.L.depth == v.L.depth && AllSlots(x.data, x.L, per) == AllSlots(v.data, v.L, per)
    && MaybeGrew(x.fat, x.data, x.L, x1.fat, x1.data, x1.L, limit, per, dir, nw) && |x1.fat| == |x.fat|
    && y.fat == x1.fat && y.L == x1.L && dir in x1.L.depth && PutRun(x1.data, y.data, x1.L, per, dir, s, recs)
    && Records(recs) && OpenAt(SlotsAt(x1.data, x1.L, per, dir), s) && s + |recs| <= MAX_SLOTS
  }

  /** The table once `dir` alone has grown. */
  ghost function GrownFat(fat: seq<nat>, L: Layout, dir: nat, nw: nat): seq<nat>
    requires dir in L.chains && L.chains[dir] != [] && nw < |fat| && LastOf(L, dir) < |fat|
  {
    if nw == 0 then fat else fat[nw := EOC_MARK][LastOf(L, dir) := nw]
  }

  /** Growing a directory and keeping a chain aside commute. */
  lemma LayoutsCommute(L: Layout, ch: seq<nat>, dir: nat, nw: nat)
    requires Distinct(ch) && dir in L.chains && (ch != [] ==> ch[0] !in L.chains) && nw !in ch
    ensures dir in Joined(L, ch, NOWHERE).chains
    ensures TreeThen(Joined(L, ch, NOWHERE), dir, nw) == Joined(TreeThen(L, dir, nw), ch, NOWHERE)
  {
    if ch != [] && nw != 0 {
      MapsCommute(L.chains, ch[0], ch, dir, L.chains[dir] + [nw]);
      PlacesCommute(L.places, Placed(ch), nw, Place(dir, |L.chains[dir]|));
    }
  }

  lemma MapsCommute<T>(m: map<nat, T>, a: nat, x: T, b: nat, y: T)
    requires a != b
    ensures m[a := x][b := y] == m[b := y][a := x]
  {
  }

  lemma PlacesCommute(m: map<nat, Place>, more: map<nat, Place>, c: nat, p: Place)
    requires c !in more
    ensures (m + more)[c := p] == m[c := p] + more
  {
  }

  lemma GrowingCommutes(fat: seq<nat>, fat': seq<nat>, limit: nat, L: Layout, ch: seq<nat>, dir: nat, nw: nat)
    requires ChainsOk(fat, limit, L) && Growing(fat, fat', limit, ch) && dir in L.chains && nw < limit
    requires nw != 0 ==> nw >= 3 && fat'[nw] == 0
    ensures nw !in ch && L.chains[dir] != [] && LastOf(L, dir) < |fat| && (nw != 0 ==> fat[nw] == 0)
    ensures Growing(GrownFat(fat, L, dir, nw), GrownFat(fat', L, dir, nw), limit, ch)
  {
    hide ChainsOk;
    GrowingFresh(fat, fat', limit, L, ch);
    ChainsAreChains(fat, limit, L, dir);
    assert LastOf(L, dir) in L.chains[dir];
    GrowingUsed(fat, fat', limit, ch);
  }

  /** The table of the directory grown alone. */
  lemma GrownTable(fat: seq<nat>, limit: nat, L: Layout, dir: nat, nw: nat)
    requires ChainsOk(fat, limit, L) && dir in L.chains && L.chains[dir] != [] && LastOf(L, dir) < |fat|
        && nw < limit <= |fat|
    requires nw != 0 ==> nw >= 3 && fat[nw] == 0
    ensures ChainsOk(GrownFat(fat, L, dir, nw), limit, TreeThen(L, dir, nw))
  {
    hide ChainsOk;
    ChainFacts(fat, limit, L, dir);
    if nw != 0 { ChainsGrown(fat, GrownFat(fat, L, dir, nw), limit, L, dir, nw); }
  }

  lemma GrewFacts(x: Vol, x1: Vol, limit: nat, per: nat, dir: nat, nw: nat)
    requires Fine(x, limit, per) && Fine(x1, limit, per) && dir in x.L.depth
    requires MaybeGrew(x.fat, x.data, x.L, x1.fat, x1.data, x1.L, limit, per, dir, nw)
    ensures nw < limit && (nw != 0 ==> nw >= 3 && x.fat[nw] == 0)
    ensures dir in x.L.chains && x.L.chains[dir] != [] && LastOf(x.L, dir) < |x.fat|
    ensures x1.L == TreeThen(x.L, dir, nw) && x1.fat == GrownFat(x.fat, x.L, dir, nw) && x1.L.depth == x.L.depth
  {
    hide DirSlots, DirItems, ChainsOk;
    ChainsAreChains(x.fat, limit, x.L, dir);
    MaybeGrewDepth(x, x1, limit, per, dir, nw);
  }

  /** What would be there without the chain and without the entry: the fragments alone. */
  ghost function Before(v: Vol, data2: seq<seq<byte>>, dir: nat, nw: nat): Vol
    requires dir in v.L.chains && v.L.chains[dir] != [] && nw < |v.fat| && LastOf(v.L, dir) < |v.fat|
  {
    Vol(GrownFat(v.fat, v.L, dir, nw), data2, TreeThen(v.L, dir, nw))
  }

  lemma BeforeChains(v: Vol, x: Vol, x1: Vol, data2: seq<seq<byte>>, limit: nat, per: nat, dir: nat, nw: nat,
                     ch: seq<nat>)
    requires Fine(v, limit, per) && Fine(x, limit, per) && Fine(x1, limit, per) && PerOk(per) && dir in v.L.depth
    requires Growing(v.fat, x.fat, limit, ch) && Distinct(ch) && x.L == Joined(v.L, ch, NOWHERE)
        && x.L.depth == v.L.depth
    requires MaybeGrew(x.fat, x.data, x.L, x1.fat, x1.data, x1.L, limit, per, dir, nw)
    requires DataShape(data2, limit, per)
    ensures dir in v.L.chains && v.L.chains[dir] != [] && nw < |v.fat| && LastOf(v.L, dir) < |v.fat| && nw !in ch
    ensures var w := Before(v, data2, dir, nw);
            && Fine(w, limit, per) && Growing(w.fat, x1.fat, limit, ch) && x1.L == Joined(w.L, ch, NOWHERE)
                 && w.L.depth == v.L.depth
            && (ch != [] ==> ch[0] > 0 && ch[0] !in w.L.chains)
  {
    hide ChainsOk, DirSlots, DirItems, Growing, MaybeGrew, With, DataShape, Sized, Grown;
    GrewFacts(x, x1, limit, per, dir, nw);
    GrowingFresh(v.fat, x.fat, limit, v.L, ch);
    GrowingCommutes(v.fat, x.fat, limit, v.L, ch, dir, nw);
    SameLast(v.L, ch, dir);
    LayoutsCommute(v.L, ch, dir, nw);
    GrownTable(v.fat, limit, v.L, dir, nw);
    var w := Before(v, data2, dir, nw);
    ChainsFit(w.fat, data2, limit, w.L, per);
    TreeThenIs(v.L, dir, nw);
  }

  lemma SameLast(L: Layout, ch: seq<nat>, dir: nat)
    requires Distinct(ch) && dir in L.chains && L.chains[dir] != [] && (ch != [] ==> ch[0] !in L.chains)
    ensures dir in Joined(L, ch, NOWHERE).chains && Joined(L, ch, NOWHERE).chains[dir] == L.chains[dir]
  {
  }

  lemma TreeThenIs(L: Layout, dir: nat, nw: nat)
    requires dir in L.chains
    ensures TreeThen(L, dir, nw).depth == L.depth && forall k :: k in TreeThen(L, dir, nw).chains <==> k in L.chains
  {
  }

  /** With the chain kept aside, the same directories. */
  lemma BeforeJoined(w: Vol, x2: Vol, limit: nat, per: nat, ch: seq<nat>)
    requires Fine(w, limit, per) && DataShape(x2.data, limit, per) && PerOk(per) && x2.data == w.data
        && Growing(w.fat, x2.fat, limit, ch)
    requires Distinct(ch) && x2.L == Joined(w.L, ch, NOWHERE)
    ensures Fine(x2, limit, per) && AllKept(w, x2, 0) && x2.L.depth == w.L.depth
        && (ch != [] ==> ch[0] > 0 && ch[0] !in w.L.chains)
    ensures DirItems(x2.data, x2.L, per) == DirItems(w.data, w.L, per)
        && AllSlots(x2.data, x2.L, per) == AllSlots(w.data, w.L, per)
  {
    hide ChainsOk, DirItems, DirSlots, Joined, SameChain, AllSlots;
    AddChain(w.fat, x2.fat, w.data, x2.data, limit, w.L, per, ch, NOWHERE);
    FilesAlone(w, x2, limit, per);
    assert |x2.fat| == |w.fat| by { GrowingElsewhere(w.fat, x2.fat, limit, ch); }
  }

  /** The directories of `w`, given those of `v`. */
  ghost predicate Fragmented(v: Vol, w: Vol, per: nat, dir: nat, more: Slots, s: nat, notes: seq<Entry>) {
    && Fits(v.data, v.L, per) && Fits(w.data, w.L, per) && dir in v.L.depth && w.L.depth == v.L.depth
    && s + |notes| <= |SlotsAt(v.data, v.L, per, dir) + more|
    && SlotsAt(w.data, w.L, per, dir) == Overlay(SlotsAt(v.data, v.L, per, dir) + more, s, notes)
    && forall k :: k in v.L.depth && k != dir ==> SlotsAt(w.data, w.L, per, k) == SlotsAt(v.data, v.L, per, k)
  }

  lemma BeforeSlots(v: Vol, x: Vol, x1: Vol, w: Vol, x2: Vol, limit: nat, per: nat, dir: nat, nw: nat, s: nat,
                    notes: seq<Entry>)
    requires Fine(v, limit, per) && Fine(x, limit, per) && Fine(x1, limit, per) && Fine(w, limit, per)
        && Fine(x2, limit, per)
    requires dir in v.L.depth && x.L.depth == v.L.depth == w.L.depth
        && AllSlots(x.data, x.L, per) == AllSlots(v.data, v.L, per)
    requires MaybeGrew(x.fat, x.data, x.L, x1.fat, x1.data, x1.L, limit, per, dir, nw)
    requires x2.L == x1.L && dir in x1.L.depth && PutRun(x1.data, x2.data, x1.L, per, dir, s, notes)
    requires AllSlots(x2.data, x2.L, per) == AllSlots(w.data, w.L, per)
    ensures Fragmented(v, w, per, dir, More(nw, per), s, notes)
  {
    hide ChainsOk, DirSlots, DirItems, MaybeGrew, More, Overlay, DataShape, Sized;
    GrownSlots(x, x1, limit, per, dir, nw);
    SameHit2(v, x, per, dir);
    var A, B := AllSlots(x2.data, x2.L, per), AllSlots(w.data, w.L, per);
    assert dir in A && A[dir] == B[dir];
    forall k | k in v.L.depth && k != dir ensures SlotsAt(w.data, w.L, per, k) == SlotsAt(v.data, v.L, per, k) {
      assert k in B && A[k] == B[k];
      SameHit2(v, x, per, k);
    }
  }

  /** The items of a directory that may grow. */
  ghost function ItemsGrown1(D: DirMap, dir: nat, nw: nat, per: nat): (r: DirMap)
    requires dir in D
    ensures (forall k :: k in r <==> k in D) && forall k :: k in D && k != dir ==> r[k] == D[k]
    ensures r[dir] == D[dir] + if nw == 0 then [] else EndItems(per)
  {
    if nw == 0 then D else WithSlots(D, dir, D[dir] + EndItems(per))
  }

  lemma ItemsOfMore(a: Slots, nw: nat, per: nat)
    requires PerOk(per)
    ensures ItemsOf(a + More(nw, per), PerBytes(per)) == ItemsOf(a, PerBytes(per)) + if nw == 0 then []
        else EndItems(per)
  {
    hide View, SlotsOf;
    var b := a + More(nw, per);
    MoreEnded(nw, per);
    assert |More(nw, per)| == if nw == 0 then 0 else per;
    forall i | 0 <= i < |b|
      ensures ItemsOf(b, PerBytes(per))[i] == (ItemsOf(a, PerBytes(per)) + if nw == 0 then [] else EndItems(per))[i] {
      if i >= |a| { assert b[i] == More(nw, per)[i - |a|]; }
    }
  }

  lemma ItemsOfOverlay(a: Slots, s: nat, notes: seq<Entry>, cb: nat, i: nat)
    requires cb > 0 && s + |notes| <= |a| && i < |a| && forall i :: 0 <= i < |notes| ==> IsLfn(notes[i])
    ensures ItemsOf(Overlay(a, s, notes), cb)[i] == if s <= i < s + |notes| then Note else ItemsOf(a, cb)[i]
  {
  }

  /** The same, for well-formedness. */
  lemma FragmentedItems(v: Vol, w: Vol, per: nat, dir: nat, nw: nat, s: nat, notes: seq<Entry>)
    requires Fragmented(v, w, per, dir, More(nw, per), s, notes) && PerOk(per) && forall i :: 0 <= i < |notes| ==>
        IsLfn(notes[i])
    ensures var D1 := ItemsGrown1(DirItems(v.data, v.L, per), dir, nw, per);
            s + |notes| <= |D1[dir]| && DirItems(w.data, w.L, per) == Noted(D1, dir, s, |notes|)
  {
    hide DirSlots, View, Sized, Overlay, ItemsOf, More, Noted, ItemsGrown1, IsLfn;
    var W, D1 := DirItems(w.data, w.L, per), ItemsGrown1(DirItems(v.data, v.L, per), dir, nw, per);
    var a := SlotsAt(v.data, v.L, per, dir);
    ItemsOfMore(a, nw, per);
    assert D1[dir] == ItemsOf(a + More(nw, per), PerBytes(per));
    var N := Noted(D1, dir, s, |notes|);
    forall i | 0 <= i < |W[dir]|
      ensures W[dir][i] == N[dir][i] { ItemsOfOverlay(a + More(nw, per), s, notes, PerBytes(per), i); }
    assert W[dir] == N[dir];
    assert forall k :: k in W <==> k in N;
    assert forall k :: k in W ==> W[k] == N[k];
  }

  /** Fragments at the end of a directory leave a tree. */
  lemma FragmentedTree(v: Vol, w: Vol, limit: nat, root: nat, per: nat, dir: nat, nw: nat, s: nat, notes: seq<Entry>)
    requires Sound(v, limit, root, per) && Fine(w, limit, per) && PerOk(per) && dir in v.L.chains
        && w.L == TreeThen(v.L, dir, nw)
    requires Fragmented(v, w, per, dir, More(nw, per), s, notes) && (forall i :: 0 <= i < |notes| ==> IsLfn(notes[i]))
    requires OpenAt(SlotsAt(v.data, v.L, per, dir) + More(nw, per), s)
    requires nw != 0 ==> nw !in v.L.chains && |SlotsAt(v.data, v.L, per, dir)| + per <= MAX_SLOTS
    ensures Sound(w, limit, root, per)
  {
    hide ChainsOk, TreeOk, DirSlots, DirItems, Noted, Grown, Sized, IsLfn, Overlay, View, DataShape, More, OpenAt,
         EndItems;
    var D := DirItems(v.data, v.L, per);
    FragmentedItems(v, w, per, dir, nw, s, notes);
    if nw != 0 { TreeMaybeGrown(D, v.L, root, dir, nw, per); }
    OpenItems(v, per, dir, nw, s);
    TreeNotes(ItemsGrown1(D, dir, nw, per), w.L, root, dir, s, |notes|);
  }

  lemma OpenItems(v: Vol, per: nat, dir: nat, nw: nat, s: nat)
    requires Fits(v.data, v.L, per) && PerOk(per) && dir in v.L.depth
        && OpenAt(SlotsAt(v.data, v.L, per, dir) + More(nw, per), s)
    ensures var D1 := ItemsGrown1(DirItems(v.data, v.L, per), dir, nw, per);
            s <= |D1[dir]| && (forall i :: 0 <= i < s ==> !D1[dir][i].End?) && forall i :: s <= i < |D1[dir]| ==>
              D1[dir][i].End?
  {
    hide DirSlots, View, Sized, More, ItemsGrown1;
    ItemsOfMore(SlotsAt(v.data, v.L, per, dir), nw, per);
  }

  /** The fragments are put behind all entries of `dir`. */
  lemma FragmentedPadded(v: Vol, w: Vol, limit: nat, root: nat, per: nat, dir: nat, nw: nat, s: nat, notes: seq<Entry>)
    requires Fragmented(v, w, per, dir, More(nw, per), s, notes) && (forall i :: 0 <= i < |notes| ==> IsLfn(notes[i]))
    requires OpenAt(SlotsAt(v.data, v.L, per, dir) + More(nw, per), s)
    ensures PaddedTree(TreeOf(v, per), TreeOf(w, per), dir, s, |notes|)
    ensures OpenAt(TreeOf(w, per)[dir], s + |notes|)
  {
    hide DirSlots, IsLfn, More, FreeSlot;
    var a, more := SlotsAt(v.data, v.L, per, dir), More(nw, per);
    MoreEnded(nw, per);
    OpenBefore(a, more, s);
    LfnTaken(notes);
    assert TreeOf(w, per)[dir][..s] == a[..s];
  }

  lemma LfnTaken(notes: seq<Entry>)
    ensures forall i :: 0 <= i < |notes| && IsLfn(notes[i]) ==> !FreeSlot(notes[i])
  {
  }

  lemma OpenBefore(a: Slots, more: Slots, s: nat)
    requires OpenAt(a + more, s) && AllEnded(more)
    ensures s <= |a| && OpenAt(a, s)
  {
    assert more != [] ==> (a + more)[|a|] == more[0] && Ended(more[0]);
    assert forall j :: 0 <= j < |a| ==> (a + more)[j] == a[j];
  }

  lemma FragmentedKept(v: Vol, x: Vol, x1: Vol, w: Vol, x2: Vol, limit: nat, per: nat, dir: nat, nw: nat, s: nat,
                       notes: seq<Entry>, ch: seq<nat>)
    requires Fine(v, limit, per) && Fine(x, limit, per) && Fine(x1, limit, per) && Fine(w, limit, per)
        && Fine(x2, limit, per)
    requires dir in v.L.depth && AllKept(v, x, 0) && x.L.depth == v.L.depth && |x1.fat| == |x.fat|
    requires MaybeGrew(x.fat, x.data, x.L, x1.fat, x1.data, x1.L, limit, per, dir, nw)
    requires x2.L == x1.L && x2.fat == x1.fat && dir in x1.L.depth && PutRun(x1.data, x2.data, x1.L, per, dir, s, notes)
    requires Growing(v.fat, x.fat, limit, ch) && Growing(w.fat, x2.fat, limit, ch) && x2.data == w.data
    requires dir in v.L.chains && w.L == TreeThen(v.L, dir, nw)
    ensures Kept(v, w, 0)
  {
    hide ChainsOk, DirSlots, DirItems, MaybeGrew, Overlay, Sized, Growing, Grown, Fits, FilesKept;
    AllKeptFiles(v, x, 0);
    KeptGrew(x.fat, x.data, x.L, x1.fat, x1.data, x1.L, limit, per, dir, nw, 0);
    KeptPut(x1.fat, x1.data, x2.data, limit, x1.L, x2.L, per, dir, 0);
    MaybeGrewDepth(x, x1, limit, per, dir, nw);
    KeptTrans(x.fat, x.data, x.L, x1.fat, x1.data, x1.L, x2.fat, x2.data, x2.L, 0);
    KeptTrans(v.fat, v.data, v.L, x.fat, x.data, x.L, x2.fat, x2.data, x2.L, 0);
    GrowingElsewhere(w.fat, x2.fat, limit, ch);
    GrowingFresh(v.fat, x.fat, limit, v.L, ch);
    TreeThenIs(v.L, dir, nw);
    forall h | h in v.L.chains && h !in v.L.depth && h != 0
      ensures SameChain(v.fat, v.data, v.L, w.fat, w.data, w.L, h) {
      OneKept(v, x2, h);
      ChainStays(v.L, dir, nw, h);
    }
    AllAreKept(v, w);
  }

  lemma AllAreKept(v: Vol, z: Vol)
    requires forall h :: h in v.L.chains && h !in v.L.depth && h != 0 ==>
        SameChain(v.fat, v.data, v.L, z.fat, z.data, z.L, h)
    ensures Kept(v, z, 0)
  {
  }

  lemma OneKept(v: Vol, z: Vol, h: nat)
    requires Kept(v, z, 0) && h in v.L.chains && h !in v.L.depth && h != 0
    ensures SameChain(v.fat, v.data, v.L, z.fat, z.data, z.L, h)
  {
  }

  lemma ChainStays(L: Layout, dir: nat, nw: nat, h: nat)
    requires dir in L.chains && h in L.chains && h != dir
    ensures TreeThen(L, dir, nw).chains[h] == L.chains[h]
  {
  }

  /** The slots up to the new entry. */
  function Front(slots: Slots, s: nat, recs: seq<Entry>): Slots
    requires s <= |slots| && recs != []
  {
    slots[..s] + recs[..|recs|-1]
  }

  lemma AppendingOpen(v: Vol, x: Vol, x1: Vol, y: Vol, limit: nat, per: nat, dir: nat, nw: nat, s: nat,
                      recs: seq<Entry>, ch: seq<nat>)
    requires Fine(v, limit, per) && Fine(x, limit, per) && Fine(x1, limit, per) && Fine(y, limit, per) && PerOk(per)
    requires Appending(v, x, x1, y, limit, per, dir, nw, s, recs, ch)
    ensures OpenAt(SlotsAt(v.data, v.L, per, dir) + More(nw, per), s)
        && s + |recs| <= |SlotsAt(v.data, v.L, per, dir) + More(nw, per)|
    ensures recs != [] && forall i :: 0 <= i < |recs| - 1 ==> IsLfn(recs[i])
    ensures nw != 0 ==> nw !in v.L.chains && |SlotsAt(v.data, v.L, per, dir)| + per <= MAX_SLOTS
  {
    hide ChainsOk, DirSlots, DirItems, AllSlots, More, Overlay, Sized, Growing, Joined, AllKept, View, Grown, DataShape,
         IsLfn;
    GrownSlots(x, x1, limit, per, dir, nw);
    SameHit2(v, x, per, dir);
    GrowingFresh(v.fat, x.fat, limit, v.L, ch);
    if nw != 0 {
      FreeOffChains(x.fat, limit, x.L, nw);
      JoinDirs(v.L, ch, NOWHERE);
    }
  }

  lemma FirstOpen(w: Vol, x2: Vol, per: nat, dir: nat, slot: nat)
    requires Fits(w.data, w.L, per) && Fits(x2.data, x2.L, per)
        && AllSlots(x2.data, x2.L, per) == AllSlots(w.data, w.L, per)
    requires dir in TreeOf(w, per) && slot < |TreeOf(w, per)[dir]| && slot < MAX_SLOTS
        && OpenAt(TreeOf(w, per)[dir], slot)
    ensures dir in x2.L.depth && FirstSlot(SlotsAt(x2.data, x2.L, per, dir), slot)
  {
    hide DirSlots;
    assert dir in AllSlots(x2.data, x2.L, per);
  }

  lemma AppendingPut(v: Vol, x: Vol, x1: Vol, y: Vol, limit: nat, per: nat, dir: nat, nw: nat, s: nat, recs: seq<Entry>,
                     ch: seq<nat>)
    requires Fine(v, limit, per) && Fine(x, limit, per) && Fine(x1, limit, per) && Fine(y, limit, per) && PerOk(per)
    requires Appending(v, x, x1, y, limit, per, dir, nw, s, recs, ch)
    ensures y.fat == x1.fat && y.L == x1.L && s + |recs| <= MAX_SLOTS && dir in v.L.depth && dir in x1.L.depth
        && recs != []
    ensures |x1.fat| == |x.fat| == |v.fat| && |v.data| == |x.data| == |x1.data| == |y.data| == limit
    ensures PutRun(x1.data, y.data, x1.L, per, dir, s, recs)
    ensures Growing(v.fat, x.fat, limit, ch) && Distinct(ch) && AllKept(v, x, 0) && x.L == Joined(v.L, ch, NOWHERE)
    ensures x.L.depth == v.L.depth && AllSlots(x.data, x.L, per) == AllSlots(v.data, v.L, per)
    ensures MaybeGrew(x.fat, x.data, x.L, x1.fat, x1.data, x1.L, limit, per, dir, nw)
  {
    hide PutRun, MaybeGrew, Joined, AllSlots, SlotsAt, Growing, OpenAt;
    assert |v.fat| == |x.fat| by { GrowingElsewhere(v.fat, x.fat, limit, ch); }
  }

  /** The volume before the entry: well formed, with the fragments in place and every path as it was. */
  lemma Prepared(v: Vol, x: Vol, x1: Vol, y: Vol, limit: nat, root: nat, per: nat, dir: nat, nw: nat, s: nat,
                 recs: seq<Entry>, ch: seq<nat>)
    returns (w: Vol, x2: Vol)
    requires Sound(v, limit, root, per) && Fine(x, limit, per) && Fine(x1, limit, per) && Fine(y, limit, per)
        && PerOk(per)
    requires Appending(v, x, x1, y, limit, per, dir, nw, s, recs, ch)
    ensures Sound(w, limit, root, per) && Fine(x2, limit, per) && |w.fat| == |v.fat| && |w.data| == |v.data|
    ensures x2.data == w.data && w.L.depth == v.L.depth
    ensures Adding(w, x2, x2, y, limit, per, dir, 0, s + |recs| - 1, ch, recs[|recs|-1])
    ensures Kept(v, w, 0) && PaddedTree(TreeOf(v, per), TreeOf(w, per), dir, s, |recs| - 1)
    ensures dir in TreeOf(w, per) && s + |recs| - 1 < |TreeOf(w, per)[dir]|
        && OpenAt(TreeOf(w, per)[dir], s + |recs| - 1)
    ensures s <= |TreeOf(v, per)[dir]| && TreeOf(w, per)[dir][..s + |recs| - 1] == Front(TreeOf(v, per)[dir], s, recs)
  {
    hide ChainsOk, TreeOk, DirSlots, DirItems, AllSlots, MaybeGrew, More, Overlay, Sized, Growing, Joined, AllKept,
         Kept, PaddedTree, PutAt, PutRun, OpenAt, View, Grown, SameChain, Records, IsLfn, Appending, GrownFat, TreeThen,
         Fragmented, FirstSlot, Distinct, FreeSlot, Fits;
    AppendingPut(v, x, x1, y, limit, per, dir, nw, s, recs, ch);
    var notes, slot := recs[..|recs|-1], s + |recs| - 1;
    AppendingOpen(v, x, x1, y, limit, per, dir, nw, s, recs, ch);
    var data2 := SplitRun(x1.fat, x1.data, y.data, limit, x1.L, per, dir, s, recs);
    BeforeChains(v, x, x1, data2, limit, per, dir, nw, ch);
    w, x2 := Before(v, data2, dir, nw), Vol(x1.fat, data2, x1.L);
    BeforeJoined(w, x2, limit, per, ch);
    BeforeSlots(v, x, x1, w, x2, limit, per, dir, nw, s, notes);
    FragmentedTree(v, w, limit, root, per, dir, nw, s, notes);
    FragmentedPadded(v, w, limit, root, per, dir, nw, s, notes);
    FragmentedKept(v, x, x1, w, x2, limit, per, dir, nw, s, notes, ch);
    FragmentedRoom(v, w, per, dir, nw, s, notes);
    FragmentedFront(v, w, per, dir, nw, s, recs);
    FirstOpen(w, x2, per, dir, slot);
    AddingHere(w, x2, y, limit, per, dir, slot, ch, recs[|recs|-1]);
    assert |w.fat| == |x2.fat| by { GrowingElsewhere(w.fat, x2.fat, limit, ch); }
  }

  lemma AddingHere(w: Vol, x2: Vol, y: Vol, limit: nat, per: nat, dir: nat, slot: nat, ch: seq<nat>, e: Entry)
    requires Fine(w, limit, per) && Fine(x2, limit, per) && Fine(y, limit, per) && PerOk(per)
    requires dir in w.L.depth && Distinct(ch) && (ch != [] ==> ch[0] > 0 && ch[0] !in w.L.chains)
    requires AllKept(w, x2, 0) && x2.L == Joined(w.L, ch, NOWHERE) && x2.L.depth == w.L.depth
    requires DirItems(x2.data, x2.L, per) == DirItems(w.data, w.L, per)
        && AllSlots(x2.data, x2.L, per) == AllSlots(w.data, w.L, per)
    requires dir in x2.L.depth && FirstSlot(SlotsAt(x2.data, x2.L, per, dir), slot)
    requires y.fat == x2.fat && y.L == x2.L && PutAt(x2.data, y.data, x2.L, per, dir, slot, e)
    ensures Adding(w, x2, x2, y, limit, per, dir, 0, slot, ch, e)
  {
    hide ChainsOk, DirItems, DirSlots, AllSlots, AllKept, Joined, FirstSlot, PutAt, Sized;
  }

  lemma FragmentedFront(v: Vol, w: Vol, per: nat, dir: nat, nw: nat, s: nat, recs: seq<Entry>)
    requires recs != [] && Fragmented(v, w, per, dir, More(nw, per), s, recs[..|recs|-1])
    requires OpenAt(SlotsAt(v.data, v.L, per, dir) + More(nw, per), s)
    ensures dir in TreeOf(v, per) && dir in TreeOf(w, per) && s <= |TreeOf(v, per)[dir]|
        && s + |recs| - 1 <= |TreeOf(w, per)[dir]|
    ensures TreeOf(w, per)[dir][..s + |recs| - 1] == Front(TreeOf(v, per)[dir], s, recs)
  {
    hide DirSlots, More;
    MoreEnded(nw, per);
    OpenBefore(SlotsAt(v.data, v.L, per, dir), More(nw, per), s);
  }

  lemma FragmentedRoom(v: Vol, w: Vol, per: nat, dir: nat, nw: nat, s: nat, notes: seq<Entry>)
    requires Fragmented(v, w, per, dir, More(nw, per), s, notes)
        && s + |notes| + 1 <= |SlotsAt(v.data, v.L, per, dir) + More(nw, per)|
    ensures dir in TreeOf(w, per) && s + |notes| < |TreeOf(w, per)[dir]|
  {
    hide DirSlots;
  }

  // ---------------------------------------------------------------- what paths see

  /** A name of the new entry: its own, or the one its fragments spell. */
  predicate RunName(slots: Slots, s: nat, recs: seq<Entry>, n: Name)
    requires s <= |slots| && recs != []
  {
    Answers(Front(slots, s, recs), |Front(slots, s, recs)|, Dotted(recs[|recs|-1]), n)
  }

  /** The path led to nothing, and leads to the new entry by one of its names. */
  ghost predicate Reaching(S: Tree, root: nat, dir: nat, s: nat, recs: seq<Entry>, q: seq<Name>)
    requires dir in S && s <= |S[dir]| && recs != []
  {
    q != [] && Parent(S, root, q) == Some(dir) && Locate(S, root, q) == Nowhere && RunName(S[dir], s, recs, Last(q))
  }

  lemma RunNameIs(a: Slots, b: Slots, s: nat, recs: seq<Entry>, n: Name)
    requires recs != [] && s <= |a| && s + |recs| - 1 <= |b| && b[..s + |recs| - 1] == Front(a, s, recs)
    ensures RunName(a, s, recs, n) == Answers(b, s + |recs| - 1, Dotted(recs[|recs|-1]), n)
  {
    hide Dotted, NameEq, LongName;
    var f := Front(a, s, recs);
    assert f[..|f|] == f;
    PendPrefix(b, f, |f|);
  }

  /** Nothing is seen of the fragments. */
  lemma FragmentsUnseen(v: Vol, w: Vol, limit: nat, root: nat, per: nat, dir: nat, s: nat, k: nat, q: seq<Name>)
    requires Sound(v, limit, root, per) && Fine(w, limit, per) && |w.fat| == |v.fat| && Kept(v, w, 0) && PerOk(per)
        && Plain(q)
    requires PaddedTree(TreeOf(v, per), TreeOf(w, per), dir, s, k)
    ensures Unseen(v, w, limit, root, per, q)
    ensures Locate(TreeOf(w, per), root, q) == Locate(TreeOf(v, per), root, q)
    ensures q != [] ==> Parent(TreeOf(w, per), root, q) == Parent(TreeOf(v, per), root, q)
  {
    hide ChainsOk, TreeOk, DirItems, DirSlots, Kept, PaddedTree, Stat, SameEntries, Sized, AllSlots, Contents;
    var S, W := TreeOf(v, per), TreeOf(w, per);
    PaddedLocate(S, W, root, dir, s, k, q);
    PaddedSame(S, W, root, dir, s, k, q);
    OthersSame(v, w, limit, root, per, dir, s, 0, q);
  }

  /** A file entry tacked on: paths to it read its bytes, every other is as before. */
  lemma TackedFile(w: Vol, z: Vol, limit: nat, root: nat, per: nat, dir: nat, slot: nat, e: Entry, src: seq<byte>,
                   q: seq<Name>)
    requires Sound(w, limit, root, per) && Fine(z, limit, per) && |z.fat| == |w.fat| && PerOk(per) && Plain(q)
    requires Stored(w, z, per, dir, [], slot, e, src, 0) && Dirs.Live(e) && !IsDir(e)
    requires dir in TreeOf(w, per) && slot < |TreeOf(w, per)[dir]| && slot < MAX_SLOTS
        && OpenAt(TreeOf(w, per)[dir], slot)
    ensures if NamesRun(TreeOf(w, per), root, dir, TreeOf(w, per)[dir], slot, e, q) then FileAt(z, limit, root, per,
          q) == Some(src)
            else Unseen(w, z, limit, root, per, q)
  {
    hide ChainsOk, TreeOk, DirSlots, FindFrom, Kept, HoldsFile, DirItems, Sized, Contents, Dotted, LongName, PendAt,
         Dirs.Live, SameEntries, AllSlots, Parent, EntClus, EntSize, IsDir, NamesRun, OpenAt;
    var S, S' := TreeOf(w, per), TreeOf(z, per);
    TreeFacts(w, limit, root, per);
    assert Tacked(S, S', root, dir, slot, e, 0);
    TackedLocate(S, S', root, dir, slot, e, 0, q);
    if NamesRun(S, root, dir, S[dir], slot, e, q) {
      EditedSlot(S, S', dir, [], slot, e);
      HeldBytes(z, limit, per, EntClus(e), src);
    } else {
      OthersSame(w, z, limit, root, per, dir, slot, 0, q);
    }
  }

  /** A directory entry tacked on: paths to it name an empty directory, every other is as before. */
  lemma TackedDir(w: Vol, z: Vol, limit: nat, root: nat, per: nat, dir: nat, slot: nat, e: Entry, c: nat, up: nat,
                  q: seq<Name>)
    requires Sound(w, limit, root, per) && Fine(z, limit, per) && |z.fat| == |w.fat| && PerOk(per) && Plain(q)
    requires MadeDir(w, z, per, dir, [], slot, e, c, up) && Dirs.Live(e) && IsDir(e) && c != 0
    requires dir in TreeOf(w, per) && slot < |TreeOf(w, per)[dir]| && slot < MAX_SLOTS
        && OpenAt(TreeOf(w, per)[dir], slot)
    ensures if NamesRun(TreeOf(w, per), root, dir, TreeOf(w, per)[dir], slot, e, q) then
              Enter(TreeOf(z, per), root, Locate(TreeOf(z, per), root, q)) == Some(c)
            else Unseen(w, z, limit, root, per, q)
    ensures forall n: Name :: !DotName(n) ==> SpotIn(TreeOf(z, per), c, n) == Nowhere
  {
    hide ChainsOk, TreeOk, DirSlots, FindFrom, Kept, HoldsFile, DirItems, Sized, Contents, Dotted, LongName, PendAt,
         Dirs.Live, SameEntries, AllSlots, Parent, EntClus, EntSize, IsDir, NamesRun, OpenAt, DotSlots, Stat;
    var S, S' := TreeOf(w, per), TreeOf(z, per);
    TreeFacts(w, limit, root, per);
    assert S'[c] == SlotsAt(z.data, z.L, per, c);
    forall n: Name | !DotName(n) ensures SpotIn(S', c, n) == Nowhere { DotSlotsEmpty(S'[c], c, up, n); }
    assert Tacked(S, S', root, dir, slot, e, c);
    TackedLocate(S, S', root, dir, slot, e, c, q);
    if NamesRun(S, root, dir, S[dir], slot, e, q) {
      EditedSlot(S, S', dir, [], slot, e);
    } else {
      OthersSame(w, z, limit, root, per, dir, slot, 0, q);
    }
  }

  /** What lies on the chain kept aside is not touched. */
  lemma AsideKept(v: Vol, x: Vol, x1: Vol, y: Vol, x2: Vol, limit: nat, per: nat, dir: nat, nw: nat, s: nat,
                  recs: seq<Entry>, ch: seq<nat>, i: nat)
    requires Fine(v, limit, per) && Fine(x, limit, per) && Fine(x1, limit, per) && Fine(y, limit, per) && PerOk(per)
    requires Appending(v, x, x1, y, limit, per, dir, nw, s, recs, ch) && DataShape(x2.data, limit, per)
        && Fits(x2.data, x1.L, per)
    requires s + |recs| - 1 < |SlotsAt(x2.data, x1.L, per, dir)|
    requires PutAt(x2.data, y.data, x1.L, per, dir, s + |recs| - 1, recs[|recs|-1]) && i < |ch|
    ensures ch[i] < limit && x2.data[ch[i]] == x.data[ch[i]]
  {
    hide ChainsOk, DirSlots, DirItems, AllSlots, MaybeGrew, Overlay, Sized, View, Grown, With, FilesKept;
    AppendingPut(v, x, x1, y, limit, per, dir, nw, s, recs, ch);
    GrowingFresh(v.fat, x.fat, limit, v.L, ch);
    WithIs(v.L, ch, NOWHERE);
    NotDir(v, per, ch);
    MaybeGrewDepth(x, x1, limit, per, dir, nw);
    KeptGrew(x.fat, x.data, x.L, x1.fat, x1.data, x1.L, limit, per, dir, nw, 0);
    KeptPut(x1.fat, x1.data, x2.data, limit, x1.L, x1.L, per, dir, 0);
    KeptTrans(x.fat, x.data, x.L, x1.fat, x1.data, x1.L, x1.fat, x2.data, x1.L, 0);
    OneKept(x, Vol(x1.fat, x2.data, x1.L), ch[0]);
  }

  lemma NotDir(v: Vol, per: nat, ch: seq<nat>)
    requires Fits(v.data, v.L, per) && ch != [] && ch[0] !in v.L.chains
    ensures ch[0] !in v.L.depth
  {
  }

  /** What each plain path sees of a new file. */
  ghost predicate FileAdded(v: Vol, z: Vol, limit: nat, root: nat, per: nat, dir: nat, s: nat, recs: seq<Entry>,
                            src: seq<byte>)
    requires Fine(v, limit, per) && Fine(z, limit, per) && dir in v.L.depth && s <= |SlotsAt(v.data, v.L, per, dir)|
        && recs != []
  {
    forall q: seq<Name> :: Plain(q) ==>
      if Reaching(TreeOf(v, per), root, dir, s, recs, q) then FileAt(z, limit, root, per, q) == Some(src)
        else Unseen(v, z, limit, root, per, q)
  }

  /** What each plain path sees of a new directory. */
  ghost predicate DirAdded(v: Vol, z: Vol, limit: nat, root: nat, per: nat, dir: nat, s: nat, recs: seq<Entry>, c: nat)
    requires Fine(v, limit, per) && Fine(z, limit, per) && dir in v.L.depth && s <= |SlotsAt(v.data, v.L, per, dir)|
        && recs != []
  {
    && (forall n: Name :: !DotName(n) ==> SpotIn(TreeOf(z, per), c, n) == Nowhere)
    && forall q: seq<Name> :: Plain(q) ==>
         if Reaching(TreeOf(v, per), root, dir, s, recs, q) then Enter(TreeOf(z, per), root,
             Locate(TreeOf(z, per), root, q)) == Some(c)
         else Unseen(v, z, limit, root, per, q)
  }

  lemma UnseenTwice(v: Vol, w: Vol, z: Vol, limit: nat, root: nat, per: nat, q: seq<Name>)
    requires Fine(v, limit, per) && Fine(w, limit, per) && Fine(z, limit, per)
    requires Unseen(v, w, limit, root, per, q) && Unseen(w, z, limit, root, per, q)
    ensures Unseen(v, z, limit, root, per, q)
  {
    hide Stat, FileAt, ChainsOk;
  }

  /** Reaching the new entry means the same before and after the fragments. */
  lemma ReachingIs(v: Vol, w: Vol, limit: nat, root: nat, per: nat, dir: nat, s: nat, recs: seq<Entry>, q: seq<Name>)
    requires Fine(v, limit, per) && Fine(w, limit, per) && recs != [] && dir in v.L.depth
    requires PaddedTree(TreeOf(v, per), TreeOf(w, per), dir, s, |recs| - 1) && s + |recs| - 1 <= |TreeOf(w, per)[dir]|
    requires s <= |TreeOf(v, per)[dir]| && TreeOf(w, per)[dir][..s + |recs| - 1] == Front(TreeOf(v, per)[dir], s, recs)
    requires Locate(TreeOf(w, per), root, q) == Locate(TreeOf(v, per), root, q)
    requires q != [] ==> Parent(TreeOf(w, per), root, q) == Parent(TreeOf(v, per), root, q)
    ensures Reaching(TreeOf(v, per), root, dir, s, recs, q)
        <==> NamesRun(TreeOf(w, per), root, dir, TreeOf(w, per)[dir], s + |recs| - 1, recs[|recs|-1], q)
  {
    hide ChainsOk, DirSlots, Locate, Parent, Answers, RunName, Front, OpenAt;
    if q != [] { RunNameIs(TreeOf(v, per)[dir], TreeOf(w, per)[dir], s, recs, Last(q)); }
  }

  lemma AppendedRecords(v: Vol, x: Vol, x1: Vol, y: Vol, limit: nat, per: nat, dir: nat, nw: nat, s: nat,
                        recs: seq<Entry>, ch: seq<nat>)
    requires Fine(v, limit, per) && Fine(x, limit, per) && Fine(x1, limit, per) && Fine(y, limit, per) && PerOk(per)
    requires Appending(v, x, x1, y, limit, per, dir, nw, s, recs, ch)
    ensures recs != [] && Dirs.Live(recs[|recs|-1]) && s + |recs| - 1 < MAX_SLOTS && |y.fat| == |v.fat|
        && dir in v.L.depth
  {
    hide ChainsOk, DirSlots, DirItems, MaybeGrew, AllSlots, Growing, Joined, AllKept, PutRun, Dirs.Live, IsLfn, OpenAt;
    assert |v.fat| == |x.fat| by { GrowingElsewhere(v.fat, x.fat, limit, ch); }
  }

  lemma AppendedStores(v: Vol, x: Vol, x1: Vol, y: Vol, w: Vol, x2: Vol, limit: nat, per: nat, dir: nat, nw: nat,
                       s: nat, recs: seq<Entry>, ch: seq<nat>, src: seq<byte>)
    requires Fine(v, limit, per) && Fine(x, limit, per) && Fine(x1, limit, per) && Fine(y, limit, per) && PerOk(per)
    requires Fine(w, limit, per) && Fine(x2, limit, per)
    requires Appending(v, x, x1, y, limit, per, dir, nw, s, recs, ch) && Stores(x.data, PerBytes(per), ch, src)
    requires recs != [] && Adding(w, x2, x2, y, limit, per, dir, 0, s + |recs| - 1, ch, recs[|recs|-1])
    ensures Stores(x2.data, PerBytes(per), ch, src)
  {
    hide ChainsOk, DirSlots, DirItems, Appending, Adding, PutAt, Stores, Sized, MaybeGrew, AllSlots, PutRun, Growing,
         Joined, AllKept;
    AppendedRecords(v, x, x1, y, limit, per, dir, nw, s, recs, ch);
    AddingPut(w, x2, y, limit, per, dir, s + |recs| - 1, ch, recs[|recs|-1]);
    AppendingPut(v, x, x1, y, limit, per, dir, nw, s, recs, ch);
    forall c | c in ch ensures c < |x.data| && x2.data[c] == x.data[c] {
      var i :| 0 <= i < |ch| && ch[i] == c;
      AsideKept(v, x, x1, y, x2, limit, per, dir, nw, s, recs, ch, i);
    }
    StoresKept(x.data, x2.data, PerBytes(per), ch, src);
  }

  lemma AddingPut(w: Vol, x2: Vol, y: Vol, limit: nat, per: nat, dir: nat, slot: nat, ch: seq<nat>, e: Entry)
    requires Fine(w, limit, per) && Fine(x2, limit, per) && Fine(y, limit, per) && PerOk(per)
    requires Adding(w, x2, x2, y, limit, per, dir, 0, slot, ch, e)
    ensures y.L == x2.L && y.fat == x2.fat && dir in x2.L.depth && slot < |SlotsAt(x2.data, x2.L, per, dir)|
    ensures PutAt(x2.data, y.data, x2.L, per, dir, slot, e)
  {
    hide ChainsOk, DirItems, DirSlots, AllSlots, AllKept, Joined, PutAt, Sized, MaybeGrew;
  }

  lemma KeptTwice(v: Vol, w: Vol, z: Vol)
    requires Kept(v, w, 0) && Kept(w, z, 0) && w.L.depth == v.L.depth
    ensures Kept(v, z, 0)
  {
    KeptTrans(v.fat, v.data, v.L, w.fat, w.data, w.L, z.fat, z.data, z.L, 0);
  }

  /** From the old volume to the new one, over the one with the fragments. */
  lemma FileSeen(v: Vol, w: Vol, z: Vol, limit: nat, root: nat, per: nat, dir: nat, s: nat, recs: seq<Entry>,
                 src: seq<byte>)
    requires Sound(v, limit, root, per) && Sound(w, limit, root, per) && Fine(z, limit, per)
        && |z.fat| == |w.fat| == |v.fat| && PerOk(per)
    requires recs != [] && dir in v.L.depth && Kept(v, w, 0)
        && PaddedTree(TreeOf(v, per), TreeOf(w, per), dir, s, |recs| - 1)
    requires Stored(w, z, per, dir, [], s + |recs| - 1, recs[|recs|-1], src, 0) && Dirs.Live(recs[|recs|-1])
        && !IsDir(recs[|recs|-1])
    requires dir in TreeOf(w, per) && s + |recs| - 1 < |TreeOf(w, per)[dir]| && s + |recs| - 1 < MAX_SLOTS
        && OpenAt(TreeOf(w, per)[dir], s + |recs| - 1)
    requires s <= |TreeOf(v, per)[dir]| && TreeOf(w, per)[dir][..s + |recs| - 1] == Front(TreeOf(v, per)[dir], s, recs)
    ensures FileAdded(v, z, limit, root, per, dir, s, recs, src)
  {
    hide ChainsOk, TreeOk, DirSlots, DirItems, Kept, Sized, Dotted, EntClus, EntSize, IsDir, Dirs.Live, PaddedTree,
         OpenAt, Front, Fits, Stored, Unseen, FileAt, Locate, Parent, Reaching, NamesRun, AllSlots, DataShape;
    forall q: seq<Name> | Plain(q)
      ensures if Reaching(TreeOf(v, per), root, dir, s, recs, q) then FileAt(z, limit, root, per, q) == Some(src)
          else Unseen(v, z, limit, root, per, q)
    {
      FragmentsUnseen(v, w, limit, root, per, dir, s, |recs| - 1, q);
      ReachingIs(v, w, limit, root, per, dir, s, recs, q);
      TackedFile(w, z, limit, root, per, dir, s + |recs| - 1, recs[|recs|-1], src, q);
      if !Reaching(TreeOf(v, per), root, dir, s, recs, q) { UnseenTwice(v, w, z, limit, root, per, q); }
    }
  }

  lemma StoredKept(w: Vol, z: Vol, per: nat, dir: nat, slot: nat, e: Entry, src: seq<byte>)
    requires Stored(w, z, per, dir, [], slot, e, src, 0)
    ensures Kept(w, z, 0) && z.L.depth == w.L.depth
  {
    hide DirSlots, Kept, HoldsFile, Edited;
  }

  /** A file appended with its records: well formed again, and seen by its names alone. */
  lemma FileAppended(v: Vol, x: Vol, x1: Vol, y: Vol, limit: nat, root: nat, per: nat, dir: nat, nw: nat, s: nat,
                     recs: seq<Entry>, ch: seq<nat>, src: seq<byte>)
    requires Sound(v, limit, root, per) && Fine(x, limit, per) && Fine(x1, limit, per) && Fine(y, limit, per)
        && PerOk(per)
    requires Appending(v, x, x1, y, limit, per, dir, nw, s, recs, ch) && Stores(x.data, PerBytes(per), ch, src)
    requires var e := recs[|recs|-1];
        !IsDir(e) && !DotName(Dotted(e)) && EntClus(e) == HeadOf(ch) && EntSize(e) == |src|
    ensures var z := NamedVol(y, HeadOf(ch), Ref(dir, s + |recs| - 1));
            && Sound(z, limit, root, per) && s <= |SlotsAt(v.data, v.L, per, dir)|
                 && FileAdded(v, z, limit, root, per, dir, s, recs, src)
            && Kept(v, z, 0) && z.L.depth == v.L.depth
  {
    hide ChainsOk, TreeOk, DirSlots, DirItems, Kept, Stores, Sized, Appending, Adding, PutAt, HoldsFile, Dotted,
         EntClus, EntSize, IsDir, PaddedTree, OpenAt, Front, Fits, Unseen, FileAt, Locate, Parent, Reaching, NamesRun,
         AllSlots, Stored, FileAdded, DataShape, Named;
    AppendedRecords(v, x, x1, y, limit, per, dir, nw, s, recs, ch);
    var slot, e := s + |recs| - 1, recs[|recs|-1];
    var w, x2 := Prepared(v, x, x1, y, limit, root, per, dir, nw, s, recs, ch);
    AppendedStores(v, x, x1, y, w, x2, limit, per, dir, nw, s, recs, ch, src);
    EnteredFile(w, x2, x2, y, limit, root, per, dir, 0, slot, ch, e, src);
    var z := NamedVol(y, HeadOf(ch), Ref(dir, slot));
    assert z.fat == y.fat;
    StoredKept(w, z, per, dir, slot, e, src);
    KeptTwice(v, w, z);
    FileSeen(v, w, z, limit, root, per, dir, s, recs, src);
  }

  lemma DirSeen(v: Vol, w: Vol, z: Vol, limit: nat, root: nat, per: nat, dir: nat, s: nat, recs: seq<Entry>, c: nat,
                up: nat)
    requires Sound(v, limit, root, per) && Sound(w, limit, root, per) && Fine(z, limit, per)
        && |z.fat| == |w.fat| == |v.fat| && PerOk(per)
    requires recs != [] && dir in v.L.depth && Kept(v, w, 0)
        && PaddedTree(TreeOf(v, per), TreeOf(w, per), dir, s, |recs| - 1)
    requires MadeDir(w, z, per, dir, [], s + |recs| - 1, recs[|recs|-1], c, up) && Dirs.Live(recs[|recs|-1])
        && IsDir(recs[|recs|-1]) && c != 0
    requires dir in TreeOf(w, per) && s + |recs| - 1 < |TreeOf(w, per)[dir]| && s + |recs| - 1 < MAX_SLOTS
        && OpenAt(TreeOf(w, per)[dir], s + |recs| - 1)
    requires s <= |TreeOf(v, per)[dir]| && TreeOf(w, per)[dir][..s + |recs| - 1] == Front(TreeOf(v, per)[dir], s, recs)
    ensures DirAdded(v, z, limit, root, per, dir, s, recs, c)
  {
    hide ChainsOk, TreeOk, DirSlots, DirItems, Kept, Sized, Dotted, EntClus, EntSize, IsDir, Dirs.Live, PaddedTree,
         OpenAt, Front, Fits, MadeDir, Unseen, FileAt, Locate, Parent, Reaching, NamesRun, AllSlots, DataShape, Enter,
         SpotIn;
    var slot, e := s + |recs| - 1, recs[|recs|-1];
    TackedDir(w, z, limit, root, per, dir, slot, e, c, up, []);
    forall q: seq<Name> | Plain(q)
      ensures if Reaching(TreeOf(v, per), root, dir, s, recs, q) then Enter(TreeOf(z, per), root,
            Locate(TreeOf(z, per), root, q)) == Some(c)
              else Unseen(v, z, limit, root, per, q)
    {
      FragmentsUnseen(v, w, limit, root, per, dir, s, |recs| - 1, q);
      ReachingIs(v, w, limit, root, per, dir, s, recs, q);
      TackedDir(w, z, limit, root, per, dir, slot, e, c, up, q);
      if !Reaching(TreeOf(v, per), root, dir, s, recs, q) { UnseenTwice(v, w, z, limit, root, per, q); }
    }
  }

  lemma MadeKept(w: Vol, z: Vol, per: nat, dir: nat, slot: nat, e: Entry, c: nat, up: nat)
    requires MadeDir(w, z, per, dir, [], slot, e, c, up)
    ensures Kept(w, z, 0) && forall k :: k in z.L.depth <==> k in w.L.depth || k == c
    ensures Fits(z.data, z.L, per) && c in z.L.depth && c in z.L.chains && Sized(z.data, z.L.chains[c], per)
        && DotSlots(SlotsAt(z.data, z.L, per, c), c, up)
  {
    hide DirSlots, Kept, DotSlots, Edited;
  }

  /** A directory appended with its records: well formed again, empty, and seen by its names alone. */
  lemma DirAppended(v: Vol, x: Vol, x1: Vol, y: Vol, limit: nat, root: nat, per: nat, dir: nat, nw: nat, s: nat,
                    recs: seq<Entry>, c: nat, up: nat)
    requires Sound(v, limit, root, per) && Fine(x, limit, per) && Fine(x1, limit, per) && Fine(y, limit, per)
        && PerOk(per)
    requires Appending(v, x, x1, y, limit, per, dir, nw, s, recs, [c]) && 2 <= c < limit
        && DotSlots(SlotsOf(x.data[c]), c, up)
    requires var e := recs[|recs|-1]; IsDir(e) && !DotName(Dotted(e)) && EntClus(e) == c
    requires (up == dir || up == Up(dir, root)) && limit <= 0x1000_0000
    ensures var z := y.(L := NamedDir(y.L, c, Ref(dir, s + |recs| - 1)));
            && Sound(z, limit, root, per) && s <= |SlotsAt(v.data, v.L, per, dir)|
                 && DirAdded(v, z, limit, root, per, dir, s, recs, c)
            && Kept(v, z, 0) && (forall k :: k in z.L.depth <==> k in v.L.depth || k == c)
    ensures var L' := NamedDir(y.L, c, Ref(dir, s + |recs| - 1));
            c in L'.chains && Sized(y.data, L'.chains[c], per) && DotSlots(SlotsAt(y.data, L', per, c), c, up)
  {
    hide ChainsOk, TreeOk, DirSlots, DirItems, Kept, Sized, Appending, Adding, PutAt, Dotted, EntClus, EntSize, IsDir,
         DotSlots, SlotsOf, NamedDir, PaddedTree, OpenAt, Front, Fits, Unseen, Locate, Parent, Reaching, AllSlots,
         MadeDir, DirAdded, Dirs.Live, Growing, Joined, AllKept, PutRun;
    AppendedRecords(v, x, x1, y, limit, per, dir, nw, s, recs, [c]);
    AppendingPut(v, x, x1, y, limit, per, dir, nw, s, recs, [c]);
    GrowingFresh(v.fat, x.fat, limit, v.L, [c]);
    var slot, e := s + |recs| - 1, recs[|recs|-1];
    var w, x2 := Prepared(v, x, x1, y, limit, root, per, dir, nw, s, recs, [c]);
    AddingPut(w, x2, y, limit, per, dir, slot, [c], e);
    AsideKept(v, x, x1, y, x2, limit, per, dir, nw, s, recs, [c], 0);
    NotYetThere(w, x2, y, limit, per, dir, slot, c, e);
    EnteredDir(w, x2, x2, y, limit, root, per, dir, 0, slot, c, up, e);
    var z := y.(L := NamedDir(y.L, c, Ref(dir, slot)));
    MadeKept(w, z, per, dir, slot, e, c, up);
    KeptTwice(v, w, z);
    DirSeen(v, w, z, limit, root, per, dir, s, recs, c, up);
  }

  lemma NotYetThere(w: Vol, x2: Vol, y: Vol, limit: nat, per: nat, dir: nat, slot: nat, c: nat, e: Entry)
    requires Fine(w, limit, per) && Fine(x2, limit, per) && Fine(y, limit, per) && PerOk(per)
    requires Adding(w, x2, x2, y, limit, per, dir, 0, slot, [c], e)
    ensures c !in w.L.chains
  {
    hide ChainsOk, DirItems, DirSlots, AllSlots, AllKept, Joined, PutAt, Sized, MaybeGrew;
    assert [c][0] == c;
  }

  /** What an appended run did to the slots. */
  lemma AppendedSlots(v: Vol, x: Vol, x1: Vol, y: Vol, limit: nat, per: nat, dir: nat, nw: nat, s: nat,
                      recs: seq<Entry>, ch: seq<nat>)
    requires Fine(v, limit, per) && Fine(x, limit, per) && Fine(x1, limit, per) && Fine(y, limit, per) && PerOk(per)
    requires Appending(v, x, x1, y, limit, per, dir, nw, s, recs, ch)
    ensures y.L.depth == v.L.depth && dir in v.L.depth && s + |recs| <= |SlotsAt(v.data, v.L, per, dir) + More(nw, per)|
    ensures SlotsAt(y.data, y.L, per, dir) == Overlay(SlotsAt(v.data, v.L, per, dir) + More(nw, per), s, recs)
    ensures forall k :: k in v.L.depth && k != dir ==> SlotsAt(y.data, y.L, per, k) == SlotsAt(v.data, v.L, per, k)
  {
    hide ChainsOk, DirSlots, DirItems, AllSlots, MaybeGrew, More, Overlay, Sized, Growing, Joined, AllKept, View,
         DataShape, Records, OpenAt;
    GrownSlots(x, x1, limit, per, dir, nw);
    SameHit2(v, x, per, dir);
    forall k | k in v.L.depth && k != dir ensures SlotsAt(y.data, y.L, per, k) == SlotsAt(v.data, v.L, per, k) {
      SameHit2(v, x, per, k);
    }
  }

  /** The pieces of an addition, put together. */
  lemma AppendingHolds(v: Vol, x: Vol, x1: Vol, y: Vol, limit: nat, per: nat, dir: nat, nw: nat, s: nat,
                       recs: seq<Entry>, ch: seq<nat>)
    requires Fine(v, limit, per) && Fine(x, limit, per) && Fine(x1, limit, per) && Fine(y, limit, per) && PerOk(per)
    requires dir in v.L.depth && Growing(v.fat, x.fat, limit, ch) && Distinct(ch) && AllKept(v, x, 0)
        && x.L == Joined(v.L, ch, NOWHERE)
    requires x.L.depth == v.L.depth && AllSlots(x.data, x.L, per) == AllSlots(v.data, v.L, per)
    requires if nw == 0 then x1 == x else Grew(x.fat, x.data, x.L, x1.fat, x1.data, x1.L, limit, per, dir, nw)
    requires y.fat == x1.fat && y.L == x1.L && dir in x1.L.depth && PutRun(x1.data, y.data, x1.L, per, dir, s, recs)
    requires Records(recs) && OpenAt(SlotsAt(x1.data, x1.L, per, dir), s)
    requires |SlotsAt(y.data, y.L, per, dir)| <= MAX_SLOTS
    ensures Appending(v, x, x1, y, limit, per, dir, nw, s, recs, ch)
  {
    hide ChainsOk, DirSlots, DirItems, AllSlots, Overlay, Sized, Growing, Joined, AllKept, View, DataShape, Records,
         OpenAt;
  }
}
