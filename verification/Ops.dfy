/**
 * What the three operations that change a directory do to a well-formed volume:
 * overwrite or create a file, create a directory, remove an entry.
 */
module Ops {
  import opened Options
  import opened Bytes
  import opened Names
  import opened Chains
  import opened Dirs
  import opened Trees
  import opened Wellformed

  /** A head whose chain and clusters are as before. */
  ghost predicate SameChain(fat: seq<nat>, data: seq<seq<byte>>, L: Layout, fat': seq<nat>, data': seq<seq<byte>>,
                            L': Layout, h: nat) {
    && h in L.chains && h in L'.chains && L'.chains[h] == L.chains[h]
    && forall c :: c in L.chains[h] ==>
         c < |fat| && c < |fat'| && c < |data| && c < |data'| && fat'[c] == fat[c] && data'[c] == data[c]
  }

  /** The layout once head `h`, kept so far without a name, is named by `ref`. */
  ghost function Named(L: Layout, h: nat, ref: Ref): (r: Layout)
    ensures r.chains == L.chains && r.places == L.places && r.depth == L.depth
  {
    if h == 0 then L else L.(refs := L.refs[h := ref])
  }

  ghost const NOWHERE: Ref := Ref(0, 0)

  /** Names and depths play no part in the table. */
  lemma ChainsIgnoreNames(fat: seq<nat>, limit: nat, L: Layout, L': Layout)
    requires ChainsOk(fat, limit, L) && L'.chains == L.chains && L'.places == L.places
    ensures ChainsOk(fat, limit, L')
  {
    forall h | h in L'.chains ensures HeadOk(L', h) { assert HeadOk(L, h); }
    forall c | c in L'.places ensures PlaceOk(fat, limit, L', c) { PlaceIgnoresNames(fat, limit, L, L', c); }
  }

  lemma PlaceIgnoresNames(fat: seq<nat>, limit: nat, L: Layout, L': Layout, c: nat)
    requires limit <= |fat| && c in L.places && PlaceOk(fat, limit, L, c) && L'.chains == L.chains
        && L'.places == L.places
    ensures PlaceOk(fat, limit, L', c)
  {
  }

  ghost function Dropped(L: Layout, h: nat): Layout { if h in L.chains then Without(L, h) else L }

  /** Overwriting a file: its old chain dropped, a new one named by the same slot. */
  lemma TreeOverwritten(D: DirMap, L: Layout, root: nat, d: nat, s: nat, e: Item, ch: seq<nat>)
    requires TreeOk(D, L, root) && Owned(D, root, d, s) && D[d][s].File?
    requires forall i :: 0 <= i < s ==> !D[d][i].End?
    requires e.File? && e.dots == 0 && |ch| == e.need && Distinct(ch)
    requires e.clus == if ch == [] then 0 else ch[0]
    requires ch != [] ==> ch[0] > 0 && (ch[0] in L.chains ==> ch[0] == D[d][s].clus)
    ensures TreeOk(Added(D, d, s, e), Joined(Dropped(L, D[d][s].clus), ch, Ref(d, s)), root)
  {
    hide TreeOk, Joined, Without;
    var h := D[d][s].clus;
    var D1, L1 := Removed(D, d, s), Dropped(L, h);
    RemovedFile(D, L, root, d, s);
    TreeRemove(D, L, root, d, s);
    WithoutKeeps(L, h);
    if h !in L.chains { TreeIgnoresPlaces(D1, Without(L, h), L, root); }
    TreeAddFile(D1, L1, root, d, s, e, ch);
    assert forall k :: k in D ==> Added(D1, d, s, e)[k] == Added(D, d, s, e)[k];
    assert Added(D1, d, s, e) == Added(D, d, s, e);
  }

  lemma RemovedFile(D: DirMap, L: Layout, root: nat, d: nat, s: nat)
    requires TreeOk(D, L, root) && Owned(D, root, d, s) && D[d][s].File?
    ensures CanRemove(D, L, root, d, s)
    ensures forall k :: k in Removed(D, d, s) <==> k in D
    ensures D[d][s].clus !in L.chains ==> D[d][s].clus !in L.refs && D[d][s].clus !in L.depth
  {
    assert EntryOk(D, L, d, s);
  }

  lemma WithoutKeeps(L: Layout, h: nat)
    ensures forall k :: k in Without(L, h).chains <==> k in L.chains && k != h
    ensures h !in L.chains && h !in L.refs && h !in L.depth ==>
              Without(L, h).chains == L.chains && Without(L, h).refs == L.refs && Without(L, h).depth == L.depth
  {
  }

  lemma TreeIgnoresPlaces(D: DirMap, L: Layout, L': Layout, root: nat)
    requires TreeOk(D, L, root) && L'.chains == L.chains && L'.refs == L.refs && L'.depth == L.depth
    ensures TreeOk(D, L', root)
  {
    forall d: nat, i: nat | Owned(D, root, d, i) ensures EntryOk(D, L', d, i) { assert EntryOk(D, L, d, i); }
    forall d | d in D ensures DirOk(D, L', root, d) { assert DirOk(D, L, root, d); }
    forall h | h in L'.refs ensures RefOk(D, L', root, h) { assert RefOk(D, L, root, h); }
  }

  /** The tree after a directory may have grown, the new chains kept aside in `L` but not in `T`. */
  lemma TreeMaybeGrown(D: DirMap, T: Layout, root: nat, d: nat, nw: nat, per: nat)
    requires TreeOk(D, T, root) && d in D && nw !in T.chains && |D[d]| + per <= MAX_ITEMS
    ensures TreeOk(WithSlots(D, d, D[d] + EndItems(per)), Grown(T, d, nw), root)
  {
    TreeGrow(D, T, root, d, nw, EndItems(per));
  }

  ghost function TreeThen(T: Layout, d: nat, nw: nat): Layout
    requires d in T.chains
  {
    if nw == 0 then T else Grown(T, d, nw)
  }

  /** `ch`, kept aside, commutes with growing a directory. */
  lemma GrownExtends(T: Layout, ch: seq<nat>, d: nat, nw: nat, ref: Ref)
    requires Distinct(ch) && d in T.chains && (ch != [] ==> ch[0] > 0 && ch[0] !in T.chains)
    ensures var h := if ch == [] then 0 else ch[0];
            d in Joined(T, ch, NOWHERE).chains
            && Extends(TreeThen(T, d, nw), Named(TreeThen(Joined(T, ch, NOWHERE), d, nw), h, ref), h, ref)
            && Named(TreeThen(Joined(T, ch, NOWHERE), d, nw), h, ref).depth == T.depth
            && (ch != [] ==> Named(TreeThen(Joined(T, ch, NOWHERE), d, nw), h, ref).chains[h] == ch)
  {
    hide Joined;
    JoinedExtends(T, ch, NOWHERE);
    ThenExtends(T, Joined(T, ch, NOWHERE), if ch == [] then 0 else ch[0], d, nw, ref);
  }

  lemma ThenExtends(T: Layout, J: Layout, h: nat, d: nat, nw: nat, ref: Ref)
    requires d in T.chains && d in J.chains && Extends(T, J, h, NOWHERE) && (h != 0 ==> h !in T.chains)
    ensures Extends(TreeThen(T, d, nw), Named(TreeThen(J, d, nw), h, ref), h, ref)
    ensures Named(TreeThen(J, d, nw), h, ref).depth == J.depth
    ensures h != 0 ==> Named(TreeThen(J, d, nw), h, ref).chains[h] == J.chains[h]
  {
    hide Named, Grown;
    if nw != 0 { BothGrown(T, J, h, d, nw); }
    ThenNamed(TreeThen(T, d, nw), TreeThen(J, d, nw), h, ref);
  }

  lemma BothGrown(T: Layout, J: Layout, h: nat, d: nat, nw: nat)
    requires d in T.chains && d in J.chains && Extends(T, J, h, NOWHERE) && (h != 0 ==> h !in T.chains)
    ensures Extends(Grown(T, d, nw), Grown(J, d, nw), h, NOWHERE)
    ensures Grown(J, d, nw).depth == J.depth && (h != 0 ==> Grown(J, d, nw).chains[h] == J.chains[h])
    ensures forall k :: k in Grown(T, d, nw).chains <==> k in T.chains
  {
  }

  lemma ThenNamed(T: Layout, J: Layout, h: nat, ref: Ref)
    requires Extends(T, J, h, NOWHERE) && (h != 0 ==> h !in T.chains)
    ensures Extends(T, Named(J, h, ref), h, ref) && Named(J, h, ref).depth == J.depth
        && Named(J, h, ref).chains == J.chains
  {
  }

  /** A file entry in the first free slot. */
  lemma TreeCreated(D: DirMap, T: Layout, root: nat, d: nat, nw: nat, per: nat, D1: DirMap, s: nat, e: Item,
                    ch: seq<nat>)
    requires TreeOk(D, T, root) && d in D && d in T.chains
    requires D1 == if nw == 0 then D else WithSlots(D, d, D[d] + EndItems(per))
    requires nw != 0 ==> nw !in T.chains && |D[d]| + per <= MAX_ITEMS
    requires s < |D1[d]| && D1[d][s].Free() && forall i :: 0 <= i < s ==> !D1[d][i].End?
    requires e.File? && e.dots == 0 && |ch| == e.need && Distinct(ch)
    requires e.clus == if ch == [] then 0 else ch[0]
    requires ch != [] ==> ch[0] > 0 && ch[0] !in T.chains && ch[0] != nw
    ensures d in Joined(T, ch, NOWHERE).chains
    ensures TreeOk(Added(D1, d, s, e), Named(TreeThen(Joined(T, ch, NOWHERE), d, nw), e.clus, Ref(d, s)), root)
  {
    hide TreeOk, Joined, Added, Extends;
    if nw != 0 { TreeMaybeGrown(D, T, root, d, nw, per); }
    GrownExtends(T, ch, d, nw, Ref(d, s));
    AddFileTree(D1, TreeThen(T, d, nw), Named(TreeThen(Joined(T, ch, NOWHERE), d, nw), e.clus, Ref(d, s)), root, d, s,
        e);
  }

  /** The layout once the new directory `c` is named. */
  ghost function NamedDir(L: Layout, c: nat, ref: Ref): Layout {
    var L1 := Named(L, c, ref);
    if ref.dir in L.depth then L1.(depth := L.depth[c := L.depth[ref.dir] + 1]) else L1
  }

  /** A directory entry in the first free slot. */
  lemma TreeMade(D: DirMap, T: Layout, root: nat, d: nat, nw: nat, per: nat, D1: DirMap, s: nat, c: nat, slots: Items)
    requires TreeOk(D, T, root) && d in D && d in T.chains
    requires D1 == if nw == 0 then D else WithSlots(D, d, D[d] + EndItems(per))
    requires nw != 0 ==> nw !in T.chains && |D[d]| + per <= MAX_ITEMS
    requires s < |D1[d]| && D1[d][s].Free() && forall i :: 0 <= i < s ==> !D1[d][i].End?
    requires c > 0 && c !in T.chains && c != nw
    requires |slots| <= MAX_ITEMS && DotsOk(slots, c, d, root) && forall i :: 2 <= i < |slots| ==> slots[i].End?
    ensures d in Joined(T, [c], NOWHERE).chains
    ensures TreeOk(WithSlots(Added(D1, d, s, Folder(0, c)), c, slots),
                   NamedDir(TreeThen(Joined(T, [c], NOWHERE), d, nw), c, Ref(d, s)), root)
  {
    hide TreeOk, Joined, Added, Extends, DotsOk;
    if nw != 0 { TreeMaybeGrown(D, T, root, d, nw, per); }
    GrownExtends(T, [c], d, nw, Ref(d, s));
    NamedDirExtends(T, c, d, nw, s);
    AddDirTree(D1, TreeThen(T, d, nw), NamedDir(TreeThen(Joined(T, [c], NOWHERE), d, nw), c, Ref(d, s)), root, d, s, c,
        slots);
  }

  lemma NamedDirExtends(T: Layout, c: nat, d: nat, nw: nat, s: nat)
    requires d in T.chains && c > 0 && c !in T.chains
    ensures d in Joined(T, [c], NOWHERE).chains
    ensures var L' := NamedDir(TreeThen(Joined(T, [c], NOWHERE), d, nw), c, Ref(d, s));
            Extends(TreeThen(T, d, nw), L', c, Ref(d, s)) && Deepens(TreeThen(T, d, nw), L', d, c)
  {
    GrownExtends(T, [c], d, nw, Ref(d, s));
  }

  // ---------------------------------------------------------------- steps on the table

  lemma DropChain(fat: seq<nat>, fat': seq<nat>, data: seq<seq<byte>>, limit: nat, L: Layout, per: nat, h: nat)
    requires ChainsOk(fat, limit, L) && Fits(data, L, per) && h in L.chains && h !in L.depth && limit <= |fat'| == |fat|
    requires forall k :: 0 <= k < |fat| ==> fat'[k] == if Reaches(fat, h, k) then 0 else fat[k]
    ensures ChainsOk(fat', limit, Without(L, h)) && Fits(data, Without(L, h), per)
    ensures forall k :: k in L.chains && k != h && |data| <= |fat| ==>
        SameChain(fat, data, L, fat', data, Without(L, h), k)
    ensures Without(L, h).depth == L.depth && DirItems(data, Without(L, h), per) == DirItems(data, L, per)
  {
    hide ChainsOk, HeadOk, IsChain, DirSlots, View, Reaches;
    ChainsAreChains(fat, limit, L, h);
    ChainFacts(fat, limit, L, h);
    HeadFirst(L, h);
    forall k: nat ensures Reaches(fat, h, k) <==> k in L.chains[h] { ChainReaches(fat, limit, L.chains[h], k); }
    ChainsFreed(fat, fat', limit, L, h);
    ItemsKept(data, data, L, Without(L, h), per);
    forall k | k in L.chains && k != h && |data| <= |fat|
      ensures SameChain(fat, data, L, fat', data, Without(L, h), k) {
      ChainFacts(fat, limit, L, k);
      Apart(L, h, k);
      assert Sized(data, L.chains[k], per);
    }
  }

  /** The clusters a write can use once the chain of `h` is given back. */
  ghost function Reusable(fat: seq<nat>, limit: nat, L: Layout, h: nat): set<nat>
    requires limit <= |fat|
  {
    FreeSet(fat, limit) + if h in L.chains then set c | c in L.chains[h] && 3 <= c < limit else {}
  }

  lemma DropSpace(fat: seq<nat>, fat': seq<nat>, limit: nat, L: Layout, h: nat)
    requires ChainsOk(fat, limit, L) && h in L.chains && limit <= |fat'| == |fat|
    requires forall k :: 0 <= k < |fat| ==> fat'[k] == if Reaches(fat, h, k) then 0 else fat[k]
    ensures FreeSet(fat', limit) == Reusable(fat, limit, L, h)
  {
    hide ChainsOk, HeadOk, IsChain, Reaches;
    ChainsAreChains(fat, limit, L, h);
    ChainFacts(fat, limit, L, h);
    HeadFirst(L, h);
    forall k: nat ensures Reaches(fat, h, k) <==> k in L.chains[h] { ChainReaches(fat, limit, L.chains[h], k); }
  }

  lemma HeadFirst(L: Layout, h: nat)
    requires h in L.chains && HeadOk(L, h)
    ensures L.chains[h] != [] && L.chains[h][0] == h
  {
  }

  /** Chains of different heads share nothing. */
  lemma Apart(L: Layout, h: nat, k: nat)
    requires h in L.chains && k in L.chains && h != k && HeadOk(L, h) && HeadOk(L, k)
    ensures forall c :: c in L.chains[k] ==> c !in L.chains[h]
  {
  }

  /** The clusters of an unfinished chain lay on no chain. */
  lemma GrowingFresh(fat: seq<nat>, fat': seq<nat>, limit: nat, L: Layout, ch: seq<nat>)
    requires ChainsOk(fat, limit, L) && Growing(fat, fat', limit, ch)
    ensures Distinct(ch) && (ch != [] ==> ch[0] > 0 && ch[0] !in L.chains)
    ensures forall h, c :: h in L.chains && c in L.chains[h] ==> c !in ch
  {
    hide ChainsOk;
    forall i | 0 <= i < |ch| ensures ch[i] !in L.chains && forall h :: h in L.chains ==> ch[i] !in L.chains[h] {
      FreeOffChains(fat, limit, L, ch[i]);
    }
  }

  lemma JoinTable(fat: seq<nat>, fat': seq<nat>, limit: nat, L: Layout, ch: seq<nat>, ref: Ref)
    requires ChainsOk(fat, limit, L) && Growing(fat, fat', limit, ch) && Distinct(ch)
    ensures ChainsOk(fat', limit, Joined(L, ch, ref))
  {
    hide ChainsOk, IsChain, With;
    if ch != [] {
      GrowingIsChain(fat, fat', limit, ch);
      assert forall c :: 2 <= c < limit && c !in ch ==> fat'[c] == fat[c];
      ChainsAdded(fat, fat', limit, L, ch, ref);
    } else {
      assert fat' == fat;
    }
  }

  /** What is on other chains stays, when a new one is joined. */
  lemma JoinSame(fat: seq<nat>, fat': seq<nat>, data: seq<seq<byte>>, data': seq<seq<byte>>, L: Layout, per: nat,
                 ch: seq<nat>, ref: Ref, k: nat)
    requires Distinct(ch) && k in L.chains && (ch != [] ==> ch[0] != k) && Sized(data, L.chains[k], per)
    requires |data| == |data'| <= |fat| == |fat'|
    requires forall c :: c in L.chains[k] ==> c !in ch
    requires forall c :: 0 <= c < |fat| && c !in ch ==> fat'[c] == fat[c]
    requires forall c :: 0 <= c < |data| && c !in ch ==> data'[c] == data[c]
    ensures SameChain(fat, data, L, fat', data', Joined(L, ch, ref), k)
  {
  }

  lemma GrowingElsewhere(fat: seq<nat>, fat': seq<nat>, limit: nat, ch: seq<nat>)
    requires Growing(fat, fat', limit, ch)
    ensures |fat'| == |fat| && limit <= |fat| && forall c :: 0 <= c < |fat| && c !in ch ==> fat'[c] == fat[c]
    ensures HeadOf(ch) < limit
  {
  }

  /** A finished chain over clusters that were free, kept under `ref`. */
  lemma AddChain(fat: seq<nat>, fat': seq<nat>, data: seq<seq<byte>>, data': seq<seq<byte>>, limit: nat, L: Layout,
                 per: nat, ch: seq<nat>, ref: Ref)
    requires ChainsOk(fat, limit, L) && Fits(data, L, per) && DataShape(data', limit, per) && |data'| == |data| == limit
    requires Growing(fat, fat', limit, ch)
    requires forall c :: 0 <= c < |data| && c !in ch ==> data'[c] == data[c]
    ensures Distinct(ch) && (ch != [] ==> ch[0] > 0 && ch[0] !in L.chains)
    ensures ChainsOk(fat', limit, Joined(L, ch, ref)) && Fits(data', Joined(L, ch, ref), per)
    ensures forall k :: k in L.chains ==> SameChain(fat, data, L, fat', data', Joined(L, ch, ref), k)
    ensures Joined(L, ch, ref).depth == L.depth && DirItems(data', Joined(L, ch, ref), per) == DirItems(data, L, per)
  {
    hide ChainsOk, DirSlots, View, SameChain, Growing, DataShape, DirItems, Sized, With;
    GrowingFresh(fat, fat', limit, L, ch);
    GrowingElsewhere(fat, fat', limit, ch);
    JoinTable(fat, fat', limit, L, ch, ref);
    ChainsFit(fat', data', limit, Joined(L, ch, ref), per);
    forall k | k in L.chains ensures SameChain(fat, data, L, fat', data', Joined(L, ch, ref), k) {
      JoinSame(fat, fat', data, data', L, per, ch, ref, k);
    }
    JoinDirs(L, ch, ref);
    SameChainItems(fat, data, L, fat', data', Joined(L, ch, ref), per);
  }

  lemma JoinDirs(L: Layout, ch: seq<nat>, ref: Ref)
    requires Distinct(ch)
    ensures Joined(L, ch, ref).depth == L.depth
    ensures forall k :: k in L.chains ==> k in Joined(L, ch, ref).chains
  {
  }

  /** Directories read the same when their chains are the same. */
  lemma SameChainItems(fat: seq<nat>, data: seq<seq<byte>>, L: Layout, fat': seq<nat>, data': seq<seq<byte>>,
                       L': Layout, per: nat)
    requires Fits(data, L, per) && Fits(data', L', per) && |data'| == |data| && L'.depth == L.depth
    requires forall k :: k in L.depth ==> SameChain(fat, data, L, fat', data', L', k)
    ensures DirItems(data', L', per) == DirItems(data, L, per)
    ensures forall k :: k in L.depth ==> SlotsAt(data', L', per, k) == SlotsAt(data, L, per, k)
  {
    hide DirSlots, View, DirItems;
    ItemsKept(data, data', L, L', per);
    forall k | k in L.depth ensures SlotsAt(data', L', per, k) == SlotsAt(data, L, per, k) {
      SameSlots(data, data', L.chains[k], per);
    }
  }

  // ---------------------------------------------------------------- what an operation did to the directories

  /** The slots of every directory. */
  type Tree = map<nat, Slots>

  ghost function AllSlots(data: seq<seq<byte>>, L: Layout, per: nat): (r: Tree)
    requires Fits(data, L, per)
    ensures forall d :: d in r <==> d in L.depth
    ensures forall d :: d in r ==> r[d] == SlotsAt(data, L, per, d)
  {
    map d | d in L.depth :: SlotsAt(data, L, per, d)
  }

  ghost predicate AllEnded(s: Slots) { forall i :: 0 <= i < |s| ==> Ended(s[i]) }

  /** Slot `s` of directory `d`, which may have got the end marks `more`, is now `e`; the rest is as before. */
  ghost predicate Edited(S: Tree, S': Tree, d: nat, more: Slots, s: nat, e: Entry) {
    && d in S && d in S' && AllEnded(more) && s < |S[d] + more| && S'[d] == (S[d] + more)[s := e]
    && (forall k :: k in S && k != d ==> k in S' && S'[k] == S[k])
    && (forall k :: k in S' ==> k in S || EndsAfterDots(S'[k]))
  }

  /** A directory that holds no more than its two dot entries. */
  ghost predicate EndsAfterDots(s: Slots) { forall i :: 2 <= i < |s| ==> Ended(s[i]) }

  // ---------------------------------------------------------------- what a lookup hits

  /** Neither dot slot answers to another name. */
  lemma DotSlotsMiss(slots: Slots, d: nat, parent: nat, root: nat, cb: nat, name: Name)
    requires cb > 0 && DotsOk(ItemsOf(slots, cb), d, parent, root) && !DotName(name)
    ensures !Matches(slots, 0, name) && !Matches(slots, 1, name)
  {
    hide Dotted, NameEq, NumClus;
    var items := ItemsOf(slots, cb);
    assert items[0] == View(slots[0], cb) && items[1] == View(slots[1], cb);
    assert LongAt(slots, 0) == [] && LongAt(slots, 1) == [];
    if NameEq(Dotted(slots[0]), name) { DotsDiffer(Dotted(slots[0]), name); }
    if NameEq(Dotted(slots[1]), name) { DotsDiffer(Dotted(slots[1]), name); }
  }

  /** An entry that a lookup hits, and that is not spelt like a dot name, owns what it names. */
  lemma HitOwned(data: seq<seq<byte>>, L: Layout, root: nat, per: nat, dir: nat, name: Name, slot: nat)
    requires Fits(data, L, per) && PerOk(per) && TreeOk(DirItems(data, L, per), L, root) && dir in L.depth
    requires Find(SlotsAt(data, L, per, dir), name) == Some(slot) && !DotName(Dotted(SlotsAt(data, L, per, dir)[slot]))
    ensures var D, e := DirItems(data, L, per), SlotsAt(data, L, per, dir)[slot];
            && Owned(D, root, dir, slot) && D[dir][slot] == View(e, PerBytes(per)) && D[dir][slot].dots == 0
            && D[dir][slot].clus == EntClus(e) && (D[dir][slot].Folder? <==> IsDir(e))
            && (forall i :: 0 <= i < slot ==> !D[dir][i].End?)
            && 0 !in L.chains && (EntClus(e) != 0 ==> EntClus(e) in L.chains) && EntClus(e) != root
            && (if IsDir(e) then EntClus(e) in L.depth && EntClus(e) != 0 else EntClus(e) !in L.depth)
  {
    hide DirSlots, Dotted, Matches, NumClus, Sized, TreeOk, Dirs.Live, EntClus, EntSize;
    var D, s := DirItems(data, L, per), SlotsAt(data, L, per, dir);
    MatchLive(s, slot, name);
    assert D[dir][slot] == View(s[slot], PerBytes(per));
    PastDots(D, L, root, dir, slot);
    assert Owned(D, root, dir, slot);
    OwnedFacts(D, L, root, dir, slot);
  }

  lemma PastDots(D: DirMap, L: Layout, root: nat, dir: nat, slot: nat)
    requires TreeOk(D, L, root) && dir in D && slot < |D[dir]| && D[dir][slot].Live() && D[dir][slot].dots == 0
    ensures dir == root || slot >= 2
  {
    hide EntriesOk, RefsOk;
    assert DirOk(D, L, root, dir);
  }

  /** In the root no name hits an entry spelt like a dot name, and elsewhere only the dot names do. */
  lemma HitIsPlain(data: seq<seq<byte>>, L: Layout, root: nat, per: nat, dir: nat, name: Name, slot: nat)
    requires Fits(data, L, per) && PerOk(per) && TreeOk(DirItems(data, L, per), L, root) && dir in L.depth
        && (dir == root || !DotName(name))
    requires Find(SlotsAt(data, L, per, dir), name) == Some(slot)
    ensures !DotName(Dotted(SlotsAt(data, L, per, dir)[slot]))
  {
    hide DirSlots, Dotted, Matches, NumClus, Sized, TreeOk, Dirs.Live, EntClus, EntSize;
    var D, s := DirItems(data, L, per), SlotsAt(data, L, per, dir);
    if dir != root { NotDotSlot(D, L, root, dir, s, PerBytes(per), name); }
    MatchLive(s, slot, name);
    assert D[dir][slot] == View(s[slot], PerBytes(per));
    assert Owned(D, root, dir, slot);
    OwnedFacts(D, L, root, dir, slot);
  }

  lemma NotDotSlot(D: DirMap, L: Layout, root: nat, dir: nat, s: Slots, cb: nat, name: Name)
    requires TreeOk(D, L, root) && dir in D && cb > 0 && D[dir] == ItemsOf(s, cb) && !DotName(name)
    ensures dir != root ==> |s| >= 2 && !Matches(s, 0, name) && !Matches(s, 1, name)
  {
    hide Matches, EntriesOk, RefsOk;
    assert DirOk(D, L, root, dir);
    if dir != root { DotSlotsMiss(s, dir, L.refs[dir].dir, root, cb, name); }
  }

  lemma OwnedFacts(D: DirMap, L: Layout, root: nat, d: nat, s: nat)
    requires TreeOk(D, L, root) && Owned(D, root, d, s)
    ensures var e := D[d][s];
            && e.dots == 0 && e.clus != root && 0 !in L.chains && (e.clus != 0 ==> e.clus in L.chains)
            && (if e.Folder? then e.clus in L.depth && e.clus != 0 else e.clus !in L.depth)
  {
    assert EntryOk(D, L, d, s);
  }

  lemma MatchLive(s: Slots, i: nat, name: Name)
    requires i < |s| && Matches(s, i, name)
    ensures Dirs.Live(s[i])
  {
  }

  // ---------------------------------------------------------------- files left alone

  /** Every file but the one at `gone` has the chain and the clusters it had. */
  ghost predicate FilesKept(fat: seq<nat>, data: seq<seq<byte>>, L: Layout, fat': seq<nat>, data': seq<seq<byte>>,
                            L': Layout, gone: nat) {
    forall h :: h in L.chains && h !in L.depth && h != gone ==> SameChain(fat, data, L, fat', data', L', h)
  }

  lemma KeptTrans(fat: seq<nat>, data: seq<seq<byte>>, L: Layout, fat1: seq<nat>, data1: seq<seq<byte>>, L1: Layout,
                  fat2: seq<nat>, data2: seq<seq<byte>>, L2: Layout, gone: nat)
    requires FilesKept(fat, data, L, fat1, data1, L1, gone) && FilesKept(fat1, data1, L1, fat2, data2, L2, gone)
    requires L1.depth == L.depth
    ensures FilesKept(fat, data, L, fat2, data2, L2, gone)
  {
    forall h | h in L.chains && h !in L.depth && h != gone ensures SameChain(fat, data, L, fat2, data2, L2, h) {
      assert SameChain(fat, data, L, fat1, data1, L1, h);
      assert SameChain(fat1, data1, L1, fat2, data2, L2, h);
    }
  }

  lemma KeptPut(fat: seq<nat>, data: seq<seq<byte>>, data': seq<seq<byte>>, limit: nat, L: Layout, L': Layout, per: nat,
                d: nat, gone: nat)
    requires ChainsOk(fat, limit, L) && Fits(data, L, per) && d in L.depth && |data'| == |data| <= |fat|
    requires L'.chains == L.chains
    requires forall c :: 0 <= c < |data| && c !in L.chains[d] ==> data'[c] == data[c]
    ensures FilesKept(fat, data, L, fat, data', L', gone)
  {
    hide ChainsOk, HeadOk;
    forall h | h in L.chains && h !in L.depth && h != gone ensures SameChain(fat, data, L, fat, data', L', h) {
      ChainFacts(fat, limit, L, h);
      ChainFacts(fat, limit, L, d);
      Apart(L, d, h);
      assert Sized(data, L.chains[h], per);
    }
  }

  lemma KeptGrew(fat: seq<nat>, data: seq<seq<byte>>, L: Layout, fat': seq<nat>, data': seq<seq<byte>>, L': Layout,
                 limit: nat, per: nat, d: nat, nw: nat, gone: nat)
    requires ChainsOk(fat, limit, L) && d in L.depth && Fits(data, L, per) && Fits(data', L', per) && limit <= |fat|
        && |data| <= |fat|
    requires MaybeGrew(fat, data, L, fat', data', L', limit, per, d, nw)
    ensures FilesKept(fat, data, L, fat', data', L', gone)
  {
    hide ChainsOk, HeadOk, DirItems, DirSlots, Grew, Sized, Grown;
    if nw != 0 {
      GrewIs(fat, data, L, fat', data', L', limit, per, d, nw);
      FreeOffChains(fat, limit, L, nw);
      ChainFacts(fat, limit, L, d);
    }
    forall h | h in L.chains && h !in L.depth && h != gone ensures SameChain(fat, data, L, fat', data', L', h) {
      InTable(fat, data, L, per, h);
      if nw != 0 {
        ChainFacts(fat, limit, L, h);
        Apart(L, d, h);
        GrewElsewhere(fat, data, L, per, d, nw, h);
      }
    }
  }

  lemma InTable(fat: seq<nat>, data: seq<seq<byte>>, L: Layout, per: nat, h: nat)
    requires Fits(data, L, per) && h in L.chains && |data| <= |fat|
    ensures SameChain(fat, data, L, fat, data, L, h)
  {
    assert Sized(data, L.chains[h], per);
  }

  lemma GrewIs(fat: seq<nat>, data: seq<seq<byte>>, L: Layout, fat': seq<nat>, data': seq<seq<byte>>, L': Layout,
               limit: nat, per: nat, d: nat, nw: nat)
    requires d in L.depth && Fits(data, L, per) && Fits(data', L', per) && limit <= |fat|
    requires Grew(fat, data, L, fat', data', L', limit, per, d, nw)
    ensures 3 <= nw < limit && nw < |data| && fat[nw] == 0 && d in L.chains && L.chains[d] != [] && LastOf(L, d) < |fat|
    ensures L' == Grown(L, d, nw) && data' == data[nw := Zeros(PerBytes(per))]
        && fat' == fat[nw := EOC_MARK][LastOf(L, d) := nw]
  {
    hide DirItems, DirSlots;
  }

  /** A chain the new cluster and the directory have no part in. */
  lemma GrewElsewhere(fat: seq<nat>, data: seq<seq<byte>>, L: Layout, per: nat, d: nat, nw: nat, h: nat)
    requires SameChain(fat, data, L, fat, data, L, h) && d in L.chains && L.chains[d] != [] && h != d
    requires nw < |fat| && nw < |data| && LastOf(L, d) < |fat| && nw !in L.chains[h]
    requires forall c :: c in L.chains[h] ==> c !in L.chains[d]
    ensures SameChain(fat, data, L, fat[nw := EOC_MARK][LastOf(L, d) := nw], data[nw := Zeros(PerBytes(per))],
          Grown(L, d, nw), h)
  {
    assert LastOf(L, d) in L.chains[d];
  }

  /** Stored bytes stay stored where the clusters do. */
  lemma StoresKept(data: seq<seq<byte>>, data': seq<seq<byte>>, cb: nat, ch: seq<nat>, src: seq<byte>)
    requires cb > 0 && Stores(data, cb, ch, src) && |data'| == |data| && forall c :: c in ch ==>
        c < |data| && data'[c] == data[c]
    ensures Stores(data', cb, ch, src)
  {
  }

  /** The bytes `src` lie on the chain that starts at `first`; no chain for no bytes. */
  ghost predicate HoldsFile(data: seq<seq<byte>>, L: Layout, cb: nat, first: nat, src: seq<byte>) {
    cb > 0 && if src == [] then first == 0
      else first in L.chains && first !in L.depth && Stores(data, cb, L.chains[first], src)
  }

  lemma HoldsKept(fat: seq<nat>, data: seq<seq<byte>>, L: Layout, fat': seq<nat>, data': seq<seq<byte>>, L': Layout,
                  cb: nat, first: nat, src: seq<byte>, gone: nat)
    requires HoldsFile(data, L, cb, first, src) && FilesKept(fat, data, L, fat', data', L', gone) && |data'| == |data|
    requires src != [] ==> gone != first && (first !in L.depth ==> first !in L'.depth)
    ensures HoldsFile(data', L', cb, first, src)
  {
    if src != [] {
      assert SameChain(fat, data, L, fat', data', L', first);
      StoresKept(data, data', cb, L.chains[first], src);
    }
  }

  lemma EditedByPut(data: seq<seq<byte>>, data': seq<seq<byte>>, L: Layout, L': Layout, per: nat, d: nat, s: nat,
                    e: Entry)
    requires d in L.depth && Fits(data, L, per) && Fits(data', L, per) && Fits(data', L', per)
        && s < |SlotsAt(data, L, per, d)|
    requires PutAt(data, data', L, per, d, s, e) && L'.chains == L.chains && L'.depth == L.depth
    ensures Edited(AllSlots(data, L, per), AllSlots(data', L', per), d, [], s, e)
  {
    hide DirSlots, DirItems, View;
    assert SlotsAt(data, L, per, d) + [] == SlotsAt(data, L, per, d);
  }

  /** What `Overwrite` leaves in the slot. */
  lemma ViewPointing(e: Entry, clus: nat, size: nat, cb: nat)
    requires clus < 0x1_0000_0000 && size < 0x1_0000_0000 && cb > 0 && Dirs.Live(e) && !IsDir(e)
    ensures View(Pointing(e, clus, size), cb) == File(Dots(Dotted(e)), clus, NumClus(size, cb))
  {
    hide Dotted, NumClus, Pointing;
    SameName(Pointing(e, clus, size), e);
  }

  // ---------------------------------------------------------------- operations as a whole

  /** A volume: its table, its clusters, and the witness of how they hang together. */
  datatype Vol = Vol(fat: seq<nat>, data: seq<seq<byte>>, L: Layout)

  ghost predicate Fine(v: Vol, limit: nat, per: nat) {
    && ChainsOk(v.fat, limit, v.L) && DataShape(v.data, limit, per) && Fits(v.data, v.L, per) && limit <= |v.fat|
  }

  ghost predicate Sound(v: Vol, limit: nat, root: nat, per: nat) {
    Fine(v, limit, per) && TreeOk(DirItems(v.data, v.L, per), v.L, root)
  }

  ghost predicate AllKept(v: Vol, w: Vol, gone: nat) {
    forall h :: h in v.L.chains && h != gone ==> SameChain(v.fat, v.data, v.L, w.fat, w.data, w.L, h)
  }

  ghost predicate Kept(v: Vol, w: Vol, gone: nat) { FilesKept(v.fat, v.data, v.L, w.fat, w.data, w.L, gone) }

  lemma AllKeptFiles(v: Vol, w: Vol, gone: nat)
    requires AllKept(v, w, gone)
    ensures Kept(v, w, gone)
  {
  }

  /** Dropping one chain and joining another leave the directories alone. */
  lemma DirsAlone(v: Vol, w: Vol, x: Vol, per: nat, gone: nat)
    requires Fits(v.data, v.L, per) && Fits(x.data, x.L, per) && gone !in v.L.depth && |x.data| == |v.data|
    requires AllKept(v, w, gone) && AllKept(w, x, 0) && w.L.depth == v.L.depth == x.L.depth && 0 !in w.L.chains
    ensures AllSlots(x.data, x.L, per) == AllSlots(v.data, v.L, per)
    ensures Kept(v, x, gone)
  {
    hide DirSlots, DirItems;
    forall k | k in v.L.chains && k != gone ensures SameChain(v.fat, v.data, v.L, x.fat, x.data, x.L, k) {
      assert SameChain(v.fat, v.data, v.L, w.fat, w.data, w.L, k);
      assert SameChain(w.fat, w.data, w.L, x.fat, x.data, x.L, k);
    }
    SameChainItems(v.fat, v.data, v.L, x.fat, x.data, x.L, per);
    assert forall k :: k in v.L.depth ==> AllSlots(x.data, x.L, per)[k] == AllSlots(v.data, v.L, per)[k];
  }

  lemma HeadsPositive(fat: seq<nat>, limit: nat, L: Layout)
    requires ChainsOk(fat, limit, L)
    ensures 0 !in L.chains
  {
    forall h | h in L.chains ensures h >= 2 {
      assert HeadOk(L, h);
      assert PlaceOk(fat, limit, L, h);
    }
  }

  lemma FineWith(y: Vol, data: seq<seq<byte>>, limit: nat, per: nat)
    requires Fine(y, limit, per) && DataShape(data, limit, per) && Fits(data, y.L, per)
    ensures Fine(Vol(y.fat, data, y.L), limit, per)
  {
  }

  /** Chains kept as they were keep the directories. */
  lemma FilesAlone(v: Vol, x: Vol, limit: nat, per: nat)
    requires Fine(v, limit, per) && Fits(x.data, x.L, per) && |x.data| == |v.data|
    requires AllKept(v, x, 0) && x.L.depth == v.L.depth
    ensures AllSlots(x.data, x.L, per) == AllSlots(v.data, v.L, per)
    ensures Kept(v, x, 0)
  {
    hide DirSlots, DirItems, ChainsOk;
    HeadsPositive(v.fat, limit, v.L);
    SameChainItems(v.fat, v.data, v.L, x.fat, x.data, x.L, per);
    assert forall k :: k in v.L.depth ==> AllSlots(x.data, x.L, per)[k] == AllSlots(v.data, v.L, per)[k];
  }

  /** The entry a lookup hit. */
  ghost function HitAt(v: Vol, per: nat, dir: nat, slot: nat): Entry
    requires Fits(v.data, v.L, per) && dir in v.L.depth && slot < |SlotsAt(v.data, v.L, per, dir)|
  {
    SlotsAt(v.data, v.L, per, dir)[slot]
  }

  lemma SameHit(v: Vol, w: Vol, per: nat, dir: nat, slot: nat)
    requires Fits(v.data, v.L, per) && Fits(w.data, w.L, per) && dir in v.L.depth
        && slot < |SlotsAt(v.data, v.L, per, dir)|
    requires AllSlots(w.data, w.L, per) == AllSlots(v.data, v.L, per)
    ensures dir in w.L.depth && SlotsAt(w.data, w.L, per, dir) == SlotsAt(v.data, v.L, per, dir)
    ensures HitAt(w, per, dir, slot) == HitAt(v, per, dir, slot)
  {
    hide DirSlots;
    assert dir in AllSlots(w.data, w.L, per);
    assert AllSlots(w.data, w.L, per)[dir] == AllSlots(v.data, v.L, per)[dir];
  }

  ghost function HeadOf(ch: seq<nat>): nat { if ch == [] then 0 else ch[0] }

  ghost predicate HitsFile(v: Vol, per: nat, dir: nat, name: Name, slot: nat) {
    && PerOk(per) && Fits(v.data, v.L, per) && dir in v.L.depth
    && Find(SlotsAt(v.data, v.L, per, dir), name) == Some(slot) && !IsDir(SlotsAt(v.data, v.L, per, dir)[slot])
    && !DotName(Dotted(SlotsAt(v.data, v.L, per, dir)[slot]))
  }

  /**
   * Overwriting a file: from `v`, drop its chain (`w`), store the bytes in chain `ch` (`x`),
   * point the entry at it (`y`).
   */
  ghost predicate Replaced(v: Vol, w: Vol, x: Vol, per: nat, dir: nat, slot: nat, ch: seq<nat>, src: seq<byte>)
    requires Fits(v.data, v.L, per) && dir in v.L.depth && slot < |SlotsAt(v.data, v.L, per, dir)|
    requires Fits(x.data, x.L, per) && PerOk(per)
  {
    var e := HitAt(v, per, dir, slot);
    && |src| < 0x1_0000_0000 && HeadOf(ch) < 0x1_0000_0000 && Distinct(ch)
    && AllKept(v, w, EntClus(e)) && w.L == Dropped(v.L, EntClus(e)) && w.L.depth == v.L.depth
    && AllKept(w, x, 0) && x.L == Joined(w.L, ch, Ref(dir, slot)) && x.L.depth == v.L.depth
    && (ch != [] ==> ch[0] > 0 && ch[0] !in w.L.chains)
    && Stores(x.data, PerBytes(per), ch, src) && DirItems(x.data, x.L, per) == DirItems(v.data, v.L, per)
    && |x.data| == |v.data|
  }

  ghost predicate Overwriting(v: Vol, w: Vol, x: Vol, y: Vol, per: nat, dir: nat, slot: nat, ch: seq<nat>,
                              src: seq<byte>)
    requires Fits(v.data, v.L, per) && dir in v.L.depth && slot < |SlotsAt(v.data, v.L, per, dir)|
    requires Fits(x.data, x.L, per) && Fits(y.data, y.L, per) && PerOk(per)
  {
    && Replaced(v, w, x, per, dir, slot, ch, src)
    && y.L == x.L && y.fat == x.fat && |y.data| == |x.data| && |y.data| <= |y.fat|
    && slot < |SlotsAt(x.data, x.L, per, dir)|
    && PutAt(x.data, y.data, x.L, per, dir, slot, Pointing(HitAt(v, per, dir, slot), HeadOf(ch), |src|))
  }

  lemma OverwriteTree(v: Vol, w: Vol, x: Vol, y: Vol, limit: nat, root: nat, per: nat, dir: nat, name: Name, slot: nat,
                      ch: seq<nat>, src: seq<byte>)
    requires Sound(v, limit, root, per) && HitsFile(v, per, dir, name, slot)
    requires Fits(x.data, x.L, per) && Fits(y.data, y.L, per)
    requires Overwriting(v, w, x, y, per, dir, slot, ch, src)
    ensures TreeOk(DirItems(y.data, y.L, per), y.L, root)
  {
    hide TreeOk, ChainsOk, DirSlots, Dotted, NumClus, FindFrom, Without, With, Joined, AllKept, DataShape, Chunks,
         Dirs.Live, View, DirItems, Pointing, EntClus, Sized, Owned, Added;
    HitOwned(v.data, v.L, root, per, dir, name, slot);
    HitIsLive(v, per, dir, name, slot);
    var e, cb := HitAt(v, per, dir, slot), PerBytes(per);
    ViewPointing(e, HeadOf(ch), |src|, cb);
    FileItem(e, cb);
    DroppedHeads(v.L, EntClus(e), ch);
    TreeOverwritten(DirItems(v.data, v.L, per), v.L, root, dir, slot, View(Pointing(e, HeadOf(ch), |src|), cb), ch);
  }

  lemma HitIsLive(v: Vol, per: nat, dir: nat, name: Name, slot: nat)
    requires HitsFile(v, per, dir, name, slot)
    ensures Dirs.Live(HitAt(v, per, dir, slot))
  {
    hide DirSlots;
    MatchLive(SlotsAt(v.data, v.L, per, dir), slot, name);
  }

  lemma FileItem(e: Entry, cb: nat)
    requires cb > 0 && Dirs.Live(e) && !IsDir(e)
    ensures View(e, cb).File? && View(e, cb).dots == Dots(Dotted(e)) && View(e, cb).clus == EntClus(e)
  {
  }

  lemma DroppedHeads(L: Layout, h: nat, ch: seq<nat>)
    requires ch != [] ==> ch[0] !in Dropped(L, h).chains
    ensures ch != [] && ch[0] in L.chains ==> ch[0] == h
  {
  }

  lemma OverwriteEdits(v: Vol, w: Vol, x: Vol, y: Vol, limit: nat, per: nat, dir: nat, slot: nat, ch: seq<nat>,
                       src: seq<byte>)
    requires Fits(v.data, v.L, per) && dir in v.L.depth && slot < |SlotsAt(v.data, v.L, per, dir)| && PerOk(per)
    requires Fits(x.data, x.L, per) && Fits(y.data, y.L, per) && Overwriting(v, w, x, y, per, dir, slot, ch, src)
    requires ChainsOk(x.fat, limit, x.L)
    requires EntClus(HitAt(v, per, dir, slot)) !in v.L.depth && 0 !in v.L.chains
    ensures Edited(AllSlots(v.data, v.L, per), AllSlots(y.data, y.L, per), dir, [], slot,
          Pointing(HitAt(v, per, dir, slot), HeadOf(ch), |src|))
    ensures Kept(v, y, EntClus(HitAt(v, per, dir, slot)))
    ensures Kept(x, y, EntClus(HitAt(v, per, dir, slot))) && Kept(x, y, 0)
  {
    hide ChainsOk, DirSlots, Without, Joined, AllKept, Pointing, EntClus, Sized, Added, Edited, View, Stores, DirItems,
         FilesKept, AllSlots;
    var h := EntClus(HitAt(v, per, dir, slot));
    DroppedNone(v.L, h);
    DirsAlone(v, w, x, per, h);
    EditedByPut(x.data, y.data, x.L, y.L, per, dir, slot, Pointing(HitAt(v, per, dir, slot), HeadOf(ch), |src|));
    KeptPut(x.fat, x.data, y.data, limit, x.L, y.L, per, dir, h);
    KeptPut(x.fat, x.data, y.data, limit, x.L, y.L, per, dir, 0);
    KeptTrans(v.fat, v.data, v.L, x.fat, x.data, x.L, y.fat, y.data, y.L, h);
  }

  lemma DroppedNone(L: Layout, h: nat)
    ensures 0 !in L.chains ==> 0 !in Dropped(L, h).chains
  {
  }

  lemma DroppedDepth(data: seq<seq<byte>>, L: Layout, per: nat, h: nat)
    requires Fits(data, L, per) && h !in L.depth
    ensures forall d :: d in L.depth ==> d in Dropped(L, h).chains
  {
  }

  lemma JoinedHolds(x: Vol, L: Layout, per: nat, ch: seq<nat>, ref: Ref, src: seq<byte>)
    requires PerOk(per) && Distinct(ch) && x.L == Joined(L, ch, ref) && Stores(x.data, PerBytes(per), ch, src)
    requires x.L.depth == L.depth && (forall d :: d in L.depth ==> d in L.chains)
        && (ch != [] ==> ch[0] > 0 && ch[0] !in L.chains)
    ensures HoldsFile(x.data, x.L, PerBytes(per), HeadOf(ch), src) && (src != [] ==> HeadOf(ch) != 0)
  {
    hide Chunks, With;
    WithIs(L, ch, ref);
    assert src == [] <==> ch == [] by { ChunksEmpty(src, PerBytes(per)); }
  }

  lemma WithIs(L: Layout, ch: seq<nat>, ref: Ref)
    requires Distinct(ch)
    ensures ch != [] ==> ch[0] in Joined(L, ch, ref).chains && Joined(L, ch, ref).chains[ch[0]] == ch
  {
  }

  lemma ChunksEmpty(src: seq<byte>, cb: nat)
    requires cb > 0
    ensures Chunks(src, cb) == [] <==> src == []
  {
  }

  /**
   * Adding an entry: from `v`, a chain `ch` is filled and kept aside (`x`), directory `dir`
   * may grow by `nw` (`x1`), and `e` goes into its first free slot (`y`).
   */
  ghost predicate Adding(v: Vol, x: Vol, x1: Vol, y: Vol, limit: nat, per: nat, dir: nat, nw: nat, slot: nat,
                         ch: seq<nat>, e: Entry)
    requires Fits(v.data, v.L, per) && Fits(x.data, x.L, per) && Fits(x1.data, x1.L, per) && Fits(y.data, y.L, per)
        && PerOk(per)
    requires limit <= |x.fat|
  {
    && dir in v.L.depth && Distinct(ch) && (ch != [] ==> ch[0] > 0 && ch[0] !in v.L.chains)
    && AllKept(v, x, 0) && x.L == Joined(v.L, ch, NOWHERE) && x.L.depth == v.L.depth
    && DirItems(x.data, x.L, per) == DirItems(v.data, v.L, per)
         && AllSlots(x.data, x.L, per) == AllSlots(v.data, v.L, per)
    && |x.data| == |v.data| == |x1.data| == |y.data| && |x.fat| == |x1.fat| && |x.data| <= |x.fat|
    && MaybeGrew(x.fat, x.data, x.L, x1.fat, x1.data, x1.L, limit, per, dir, nw)
    && dir in x1.L.depth && FirstSlot(SlotsAt(x1.data, x1.L, per, dir), slot)
    && y.fat == x1.fat && y.L == x1.L && PutAt(x1.data, y.data, x1.L, per, dir, slot, e)
  }

  /** What growing did to the layout and to the directories. */
  lemma AddingGrew(v: Vol, x: Vol, x1: Vol, limit: nat, root: nat, per: nat, dir: nat, nw: nat, ch: seq<nat>)
    requires Sound(v, limit, root, per) && Fine(x, limit, per) && Fits(x1.data, x1.L, per) && dir in v.L.depth
        && Distinct(ch)
    requires x.L == Joined(v.L, ch, NOWHERE) && x.L.depth == v.L.depth
    requires DirItems(x.data, x.L, per) == DirItems(v.data, v.L, per)
    requires MaybeGrew(x.fat, x.data, x.L, x1.fat, x1.data, x1.L, limit, per, dir, nw)
    ensures dir in x.L.chains && x1.L == TreeThen(x.L, dir, nw) && x1.L.depth == v.L.depth
    ensures var D := DirItems(v.data, v.L, per);
            && DirItems(x1.data, x1.L, per) == (if nw == 0 then D else WithSlots(D, dir, D[dir] + EndItems(per)))
            && (nw != 0 ==> |D[dir]| + per <= MAX_ITEMS)
    ensures nw != 0 ==> nw !in v.L.chains && (ch != [] ==> ch[0] != nw)
  {
    hide TreeOk, DirSlots, ChainsOk, With, View;
    if nw != 0 {
      FreeOffChains(x.fat, limit, x.L, nw);
      WithIs(v.L, ch, NOWHERE);
      JoinDirs(v.L, ch, NOWHERE);
      assert DirItems(x.data, x.L, per)[dir] == ItemsOf(SlotsAt(x.data, x.L, per, dir), PerBytes(per));
    }
  }

  /** The first free slot, as well-formedness sees it. */
  lemma FirstItem(data: seq<seq<byte>>, L: Layout, per: nat, dir: nat, slot: nat)
    requires Fits(data, L, per) && PerOk(per) && dir in L.depth && FirstSlot(SlotsAt(data, L, per, dir), slot)
    ensures var I := DirItems(data, L, per)[dir];
            slot < |I| && I[slot].Free() && forall i :: 0 <= i < slot ==> !I[i].End?
  {
    hide DirSlots, View;
    var s := SlotsAt(data, L, per, dir);
    assert DirItems(data, L, per)[dir] == ItemsOf(s, PerBytes(per));
  }

  lemma NamesAside(y: Vol, L': Layout, per: nat)
    requires Fits(y.data, y.L, per) && Fits(y.data, L', per) && L'.chains == y.L.chains && L'.depth == y.L.depth
    ensures DirItems(y.data, L', per) == DirItems(y.data, y.L, per)
  {
    hide DirSlots, View;
    ItemsKept(y.data, y.data, y.L, L', per);
  }

  ghost function NamedVol(y: Vol, h: nat, ref: Ref): Vol { y.(L := Named(y.L, h, ref)) }

  lemma CreateTree(v: Vol, x: Vol, x1: Vol, y: Vol, limit: nat, root: nat, per: nat, dir: nat, nw: nat, slot: nat,
                   ch: seq<nat>, e: Entry)
    requires Sound(v, limit, root, per) && Fine(x, limit, per) && Fits(x1.data, x1.L, per) && Fits(y.data, y.L, per)
    requires Adding(v, x, x1, y, limit, per, dir, nw, slot, ch, e)
    requires Dirs.Live(e) && !IsDir(e) && !DotName(Dotted(e)) && EntClus(e) == HeadOf(ch)
        && |ch| == NumClus(EntSize(e), PerBytes(per))
    ensures var z := NamedVol(y, HeadOf(ch), Ref(dir, slot));
            Fits(z.data, z.L, per) && TreeOk(DirItems(z.data, z.L, per), z.L, root)
  {
    hide TreeOk, ChainsOk, DirSlots, Dotted, NumClus, With, Joined, AllKept, Dirs.Live, DirItems, EntClus, EntSize,
         Added, MaybeGrew, AllSlots, FirstSlot, TreeThen, IsDir;
    AddingGrew(v, x, x1, limit, root, per, dir, nw, ch);
    FirstItem(x1.data, x1.L, per, dir, slot);
    var item := View(e, PerBytes(per));
    var z := NamedVol(y, HeadOf(ch), Ref(dir, slot));
    FileItem(e, PerBytes(per));
    FileNeed(e, PerBytes(per));
    FitsNamed(y, per, HeadOf(ch), Ref(dir, slot));
    NamesAside(y, z.L, per);
    assert dir in DirItems(v.data, v.L, per);
    TreeCreated(DirItems(v.data, v.L, per), v.L, root, dir, nw, per, DirItems(x1.data, x1.L, per), slot, item, ch);
  }

  lemma FileNeed(e: Entry, cb: nat)
    requires cb > 0 && Dirs.Live(e) && !IsDir(e)
    ensures View(e, cb).need == NumClus(EntSize(e), cb)
  {
  }

  lemma FitsNamed(y: Vol, per: nat, h: nat, ref: Ref)
    requires Fits(y.data, y.L, per)
    ensures Fits(y.data, Named(y.L, h, ref), per)
  {
  }

  /** The end marks a directory got by growing. */
  ghost function More(nw: nat, per: nat): Slots { if nw == 0 then [] else SlotsOf(Zeros(PerBytes(per))) }

  lemma MoreEnded(nw: nat, per: nat)
    ensures AllEnded(More(nw, per))
  {
  }

  lemma GrownSlots(x: Vol, x1: Vol, limit: nat, per: nat, dir: nat, nw: nat)
    requires Fits(x.data, x.L, per) && Fits(x1.data, x1.L, per) && limit <= |x.fat| && dir in x.L.depth
    requires MaybeGrew(x.fat, x.data, x.L, x1.fat, x1.data, x1.L, limit, per, dir, nw)
    ensures x1.L.depth == x.L.depth
    ensures SlotsAt(x1.data, x1.L, per, dir) == SlotsAt(x.data, x.L, per, dir) + More(nw, per)
    ensures forall k :: k in x.L.depth && k != dir ==> SlotsAt(x1.data, x1.L, per, k) == SlotsAt(x.data, x.L, per, k)
  {
    hide DirSlots, DirItems, SlotsOf;
    assert nw == 0 ==> SlotsAt(x.data, x.L, per, dir) + [] == SlotsAt(x.data, x.L, per, dir);
  }

  /** The edit an addition makes; `L'` may name one directory more than `y` does. */
  lemma AddEdits(v: Vol, x: Vol, x1: Vol, y: Vol, L': Layout, limit: nat, per: nat, dir: nat, nw: nat, slot: nat,
                 ch: seq<nat>, e: Entry)
    requires Fits(v.data, v.L, per) && Fits(x.data, x.L, per) && Fits(x1.data, x1.L, per) && Fits(y.data, y.L, per)
        && PerOk(per)
    requires limit <= |x.fat| && Adding(v, x, x1, y, limit, per, dir, nw, slot, ch, e)
    requires Fits(y.data, L', per) && L'.chains == y.L.chains
    requires forall k :: k in L'.depth ==> k in v.L.depth || EndsAfterDots(SlotsAt(y.data, L', per, k))
    requires forall k :: k in v.L.depth ==> k in L'.depth
    ensures Edited(AllSlots(v.data, v.L, per), AllSlots(y.data, L', per), dir, More(nw, per), slot, e)
  {
    hide DirSlots, DirItems, View, MaybeGrew, AllKept, SlotsOf, EndsAfterDots, AllEnded, More;
    GrownSlots(x, x1, limit, per, dir, nw);
    SameHit2(v, x, per, dir);
    MoreEnded(nw, per);
    var S, S' := AllSlots(v.data, v.L, per), AllSlots(y.data, L', per);
    forall k | k in S && k != dir ensures k in S' && S'[k] == S[k] {
      SameHit2(v, x, per, k);
      assert SlotsAt(y.data, L', per, k) == SlotsAt(x1.data, x1.L, per, k);
    }
  }

  lemma SameHit2(v: Vol, w: Vol, per: nat, k: nat)
    requires Fits(v.data, v.L, per) && Fits(w.data, w.L, per) && k in v.L.depth && w.L.depth == v.L.depth
    requires AllSlots(w.data, w.L, per) == AllSlots(v.data, v.L, per)
    ensures SlotsAt(w.data, w.L, per, k) == SlotsAt(v.data, v.L, per, k)
  {
    hide DirSlots;
    assert AllSlots(w.data, w.L, per)[k] == AllSlots(v.data, v.L, per)[k];
  }

  /** Files stay through an addition. */
  lemma AddKept(v: Vol, x: Vol, x1: Vol, y: Vol, limit: nat, per: nat, dir: nat, nw: nat, slot: nat, ch: seq<nat>,
                e: Entry)
    requires Fits(v.data, v.L, per) && Fine(x, limit, per) && Fine(x1, limit, per) && Fits(y.data, y.L, per)
        && PerOk(per)
    requires Adding(v, x, x1, y, limit, per, dir, nw, slot, ch, e)
    ensures Kept(v, y, 0) && Kept(x, y, 0)
  {
    hide DirSlots, DirItems, View, ChainsOk, AllSlots, MaybeGrew, FilesKept, Joined, FirstSlot;
    AllKeptFiles(v, x, 0);
    MaybeGrewDepth(x, x1, limit, per, dir, nw);
    KeptGrew(x.fat, x.data, x.L, x1.fat, x1.data, x1.L, limit, per, dir, nw, 0);
    KeptPut(x1.fat, x1.data, y.data, limit, x1.L, y.L, per, dir, 0);
    KeptTrans(x.fat, x.data, x.L, x1.fat, x1.data, x1.L, y.fat, y.data, y.L, 0);
    KeptTrans(v.fat, v.data, v.L, x.fat, x.data, x.L, y.fat, y.data, y.L, 0);
  }

  lemma MaybeGrewDepth(x: Vol, x1: Vol, limit: nat, per: nat, dir: nat, nw: nat)
    requires Fits(x.data, x.L, per) && Fits(x1.data, x1.L, per) && limit <= |x.fat| && dir in x.L.depth
    requires MaybeGrew(x.fat, x.data, x.L, x1.fat, x1.data, x1.L, limit, per, dir, nw)
    ensures x1.L.depth == x.L.depth
  {
    hide DirSlots, DirItems;
  }

  /** Naming a head changes no chain. */
  lemma KeptNamed(v: Vol, y: Vol, L': Layout, gone: nat)
    requires Kept(v, y, gone) && L'.chains == y.L.chains
    ensures Kept(v, y.(L := L'), gone)
  {
    var z := y.(L := L');
    forall h | h in v.L.chains && h !in v.L.depth && h != gone
      ensures SameChain(v.fat, v.data, v.L, z.fat, z.data, z.L, h) {
      assert SameChain(v.fat, v.data, v.L, y.fat, y.data, y.L, h);
    }
  }

  lemma MakeTree(v: Vol, x: Vol, x1: Vol, y: Vol, limit: nat, root: nat, per: nat, dir: nat, nw: nat, slot: nat, c: nat,
                 e: Entry)
    requires Sound(v, limit, root, per) && Fine(x, limit, per) && Fits(x1.data, x1.L, per) && Fits(y.data, y.L, per)
    requires Adding(v, x, x1, y, limit, per, dir, nw, slot, [c], e) && c in y.L.chains
    requires Dirs.Live(e) && IsDir(e) && !DotName(Dotted(e)) && EntClus(e) == c
    requires var I := ItemsOf(SlotsAt(y.data, y.L, per, c), PerBytes(per));
             |I| <= MAX_ITEMS && DotsOk(I, c, dir, root) && forall i :: 2 <= i < |I| ==> I[i].End?
    ensures var L' := NamedDir(y.L, c, Ref(dir, slot));
            Fits(y.data, L', per) && TreeOk(DirItems(y.data, L', per), L', root)
  {
    hide TreeOk, ChainsOk, DirSlots, Dotted, NumClus, With, Joined, AllKept, EntClus, EntSize, Added, MaybeGrew,
         FirstSlot, TreeThen, IsDir, DotsOk, View, ItemsOf, DirItems, NamedDir, Sized, Dirs.Live;
    AddingGrew(v, x, x1, limit, root, per, dir, nw, [c]);
    FirstItem(x1.data, x1.L, per, dir, slot);
    FolderItem(e, PerBytes(per));
    var I := ItemsOf(SlotsAt(y.data, y.L, per, c), PerBytes(per));
    NewDirItems(y, per, c, Ref(dir, slot));
    TreeMade(DirItems(v.data, v.L, per), v.L, root, dir, nw, per, DirItems(x1.data, x1.L, per), slot, c, I);
  }

  /** Naming a new directory adds its slots, and nothing else. */
  lemma NewDirItems(y: Vol, per: nat, c: nat, ref: Ref)
    requires Fits(y.data, y.L, per) && PerOk(per) && c in y.L.chains && ref.dir in y.L.depth
    ensures var L' := NamedDir(y.L, c, ref);
            Fits(y.data, L', per)
            && DirItems(y.data, L', per) ==
                 WithSlots(DirItems(y.data, y.L, per), c, ItemsOf(SlotsAt(y.data, y.L, per, c), PerBytes(per)))
  {
    hide DirSlots, View, Sized;
    var L' := NamedDir(y.L, c, ref);
    var D, D' := DirItems(y.data, y.L, per), DirItems(y.data, L', per);
    var I := ItemsOf(SlotsAt(y.data, y.L, per, c), PerBytes(per));
    forall k | k in D' ensures D'[k] == WithSlots(D, c, I)[k] {}
    assert D' == WithSlots(D, c, I);
  }

  lemma FolderItem(e: Entry, cb: nat)
    requires cb > 0 && Dirs.Live(e) && IsDir(e) && !DotName(Dotted(e))
    ensures View(e, cb) == Folder(0, EntClus(e))
  {
  }

  // ---------------------------------------------------------------- creating, as a whole

  /** A file that holds `src` is entered at `slot` of `dir`, and the file at `gone` no longer counts. */
  ghost predicate Stored(v: Vol, z: Vol, per: nat, dir: nat, more: Slots, slot: nat, e: Entry, src: seq<byte>,
                         gone: nat) {
    && Fits(v.data, v.L, per) && Fits(z.data, z.L, per) && |z.data| == |v.data|
    && Edited(AllSlots(v.data, v.L, per), AllSlots(z.data, z.L, per), dir, more, slot, e)
    && Kept(v, z, gone) && HoldsFile(z.data, z.L, PerBytes(per), EntClus(e), src) && EntSize(e) == |src|
    && z.L.depth == v.L.depth
  }

  /** The first free slot, counting the end marks the directory got by growing. */
  ghost predicate FirstIn(v: Vol, per: nat, dir: nat, more: Slots, slot: nat) {
    Fits(v.data, v.L, per) && dir in v.L.depth && FirstSlot(SlotsAt(v.data, v.L, per, dir) + more, slot)
  }

  lemma FirstInGrown(v: Vol, x: Vol, x1: Vol, limit: nat, per: nat, dir: nat, nw: nat, slot: nat)
    requires Fits(v.data, v.L, per) && Fits(x.data, x.L, per) && Fits(x1.data, x1.L, per) && limit <= |x.fat|
    requires dir in v.L.depth && x.L.depth == v.L.depth && AllSlots(x.data, x.L, per) == AllSlots(v.data, v.L, per)
    requires MaybeGrew(x.fat, x.data, x.L, x1.fat, x1.data, x1.L, limit, per, dir, nw)
    requires x1.L.depth == x.L.depth && FirstSlot(SlotsAt(x1.data, x1.L, per, dir), slot)
    ensures FirstIn(v, per, dir, More(nw, per), slot)
  {
    hide DirSlots, DirItems, MaybeGrew, FirstSlot, More;
    GrownSlots(x, x1, limit, per, dir, nw);
    SameHit2(v, x, per, dir);
  }

  /** A new file entry `e` owns the chain that was kept aside. */
  lemma EnteredFile(v: Vol, x: Vol, x1: Vol, y: Vol, limit: nat, root: nat, per: nat, dir: nat, nw: nat, slot: nat,
                    ch: seq<nat>, e: Entry, src: seq<byte>)
    requires Sound(v, limit, root, per) && Fine(x, limit, per) && Fine(x1, limit, per) && Fine(y, limit, per)
        && PerOk(per)
    requires Dirs.Live(e) && !IsDir(e) && !DotName(Dotted(e)) && EntClus(e) == HeadOf(ch) && EntSize(e) == |src|
    requires Adding(v, x, x1, y, limit, per, dir, nw, slot, ch, e) && Stores(x.data, PerBytes(per), ch, src)
    ensures var z := NamedVol(y, HeadOf(ch), Ref(dir, slot));
            && Sound(z, limit, root, per) && FirstIn(v, per, dir, More(nw, per), slot)
            && Stored(v, z, per, dir, More(nw, per), slot, e, src, 0)
  {
    hide TreeOk, ChainsOk, DirSlots, Dotted, Short, Joined, AllKept, Dirs.Live, DirItems, EntClus, EntSize, MaybeGrew,
         With, FirstSlot, IsDir, View, Sized, PutAt, DataShape, Fits, Adding, Stored, FirstIn, Stores, More, NumClus;
    StoresNeed(x.data, PerBytes(per), ch, src);
    CreateTree(v, x, x1, y, limit, root, per, dir, nw, slot, ch, e);
    ChainsIgnoreNames(y.fat, limit, y.L, Named(y.L, HeadOf(ch), Ref(dir, slot)));
    CreatedEdits(v, x, x1, y, limit, per, dir, nw, slot, ch, e, src);
  }

  /** Creating a file: the volume once the new entry owns the new chain. */
  lemma CreatedFile(v: Vol, x: Vol, x1: Vol, y: Vol, limit: nat, root: nat, per: nat, dir: nat, nw: nat, slot: nat,
                    ch: seq<nat>, leaf: Name, src: seq<byte>)
    requires Sound(v, limit, root, per) && Fine(x, limit, per) && Fine(x1, limit, per) && Fine(y, limit, per)
        && PerOk(per)
    requires leaf != [] && !DotName(leaf) && HeadOf(ch) < 0x1_0000_0000 && |src| < 0x1_0000_0000
    requires Adding(v, x, x1, y, limit, per, dir, nw, slot, ch, NewEntry(leaf, ATTR_ARC, HeadOf(ch), |src|))
    requires Stores(x.data, PerBytes(per), ch, src)
    ensures var z := NamedVol(y, HeadOf(ch), Ref(dir, slot));
            && Sound(z, limit, root, per) && FirstIn(v, per, dir, More(nw, per), slot)
            && Stored(v, z, per, dir, More(nw, per), slot, NewEntry(leaf, ATTR_ARC, HeadOf(ch), |src|), src, 0)
  {
    hide Sound, Fine, Dotted, Short, Dirs.Live, EntClus, EntSize, IsDir, NewEntry, Adding, Stored, FirstIn, Stores,
         More, NamedVol;
    NewEntryFields(leaf, ATTR_ARC, HeadOf(ch), |src|);
    NeverDots(leaf);
    EnteredFile(v, x, x1, y, limit, root, per, dir, nw, slot, ch, NewEntry(leaf, ATTR_ARC, HeadOf(ch), |src|), src);
  }

  lemma StoresNeed(data: seq<seq<byte>>, cb: nat, ch: seq<nat>, src: seq<byte>)
    requires cb > 0 && Stores(data, cb, ch, src)
    ensures |ch| == NumClus(|src|, cb)
  {
  }

  lemma CreatedEdits(v: Vol, x: Vol, x1: Vol, y: Vol, limit: nat, per: nat, dir: nat, nw: nat, slot: nat, ch: seq<nat>,
                     e: Entry, src: seq<byte>)
    requires Fits(v.data, v.L, per) && Fine(x, limit, per) && Fine(x1, limit, per) && Fine(y, limit, per) && PerOk(per)
    requires Adding(v, x, x1, y, limit, per, dir, nw, slot, ch, e)
    requires EntClus(e) == HeadOf(ch) && EntSize(e) == |src| && Stores(x.data, PerBytes(per), ch, src)
    ensures FirstIn(v, per, dir, More(nw, per), slot)
    ensures Stored(v, NamedVol(y, HeadOf(ch), Ref(dir, slot)), per, dir, More(nw, per), slot, e, src, 0)
  {
    hide ChainsOk, DirSlots, Joined, AllKept, DirItems, EntClus, EntSize, MaybeGrew, With, AllSlots, FirstSlot, Kept,
         Edited, HoldsFile, More, FirstIn, Chunks, Sized, DataShape, Fits, PutAt, Stores;
    var z := NamedVol(y, HeadOf(ch), Ref(dir, slot));
    FitsNamed(y, per, HeadOf(ch), Ref(dir, slot));
    MaybeGrewDepth(x, x1, limit, per, dir, nw);
    AddEdits(v, x, x1, y, z.L, limit, per, dir, nw, slot, ch, e);
    AddKept(v, x, x1, y, limit, per, dir, nw, slot, ch, e);
    KeptNamed(v, y, z.L, 0);
    KeptNamed(x, y, z.L, 0);
    FirstInGrown(v, x, x1, limit, per, dir, nw, slot);
    DepthsHaveChains(v, per);
    JoinedHolds(x, v.L, per, ch, NOWHERE, src);
    KeptHolds(x, z, PerBytes(per), HeadOf(ch), src);
  }

  lemma DepthsHaveChains(v: Vol, per: nat)
    requires Fits(v.data, v.L, per)
    ensures forall d :: d in v.L.depth ==> d in v.L.chains
  {
  }

  lemma KeptHolds(x: Vol, z: Vol, cb: nat, first: nat, src: seq<byte>)
    requires HoldsFile(x.data, x.L, cb, first, src) && Kept(x, z, 0) && |z.data| == |x.data| && z.L.depth == x.L.depth
    requires src != [] ==> first != 0
    ensures HoldsFile(z.data, z.L, cb, first, src)
  {
    HoldsKept(x.fat, x.data, x.L, z.fat, z.data, z.L, cb, first, src, 0);
  }

  // ---------------------------------------------------------------- creating a directory, as a whole

  /** What a new directory holds: "." names itself, ".." its parent, and the rest is end marks. */
  ghost predicate DotSlots(s: Slots, c: nat, up: nat) {
    && c < 0x1_0000_0000 && up < 0x1_0000_0000 && |s| >= 2
    && s[0] == NewEntry([DOT], ATTR_DIR, c, 0) && s[1] == NewEntry([DOT, DOT], ATTR_DIR, up, 0)
    && EndsAfterDots(s)
  }

  /** The first cluster that ".." names: 0 stands for the root. */
  function Up(parent: nat, root: nat): nat { if parent == root then 0 else parent }

  lemma DotItems(s: Slots, c: nat, up: nat, parent: nat, root: nat, cb: nat)
    requires cb > 0 && DotSlots(s, c, up) && (up == parent || up == Up(parent, root))
    ensures DotsOk(ItemsOf(s, cb), c, parent, root)
    ensures forall i :: 2 <= i < |s| ==> ItemsOf(s, cb)[i].End?
  {
    hide Short, Dotted, NewEntry, EntClus, EntSize, Dirs.Live, IsDir, NumClus;
    NewEntryFields([DOT], ATTR_DIR, c, 0);
    NewEntryFields([DOT, DOT], ATTR_DIR, up, 0);
    DotNames();
  }

  /** A new, empty directory `c` is entered at `slot` of `dir`. */
  ghost predicate MadeDir(v: Vol, z: Vol, per: nat, dir: nat, more: Slots, slot: nat, e: Entry, c: nat, up: nat) {
    && Fits(v.data, v.L, per) && Fits(z.data, z.L, per) && |z.data| == |v.data|
    && Edited(AllSlots(v.data, v.L, per), AllSlots(z.data, z.L, per), dir, more, slot, e)
    && Kept(v, z, 0) && EntClus(e) == c && c !in v.L.depth && c in z.L.depth
         && DotSlots(SlotsAt(z.data, z.L, per, c), c, up)
    && (forall k :: k in z.L.depth <==> k in v.L.depth || k == c)
  }

  /** A free cluster, marked, filled and kept aside as a chain of its own. */
  lemma TookOne(v: Vol, x: Vol, limit: nat, per: nat, c: nat)
    requires Fine(v, limit, per) && 3 <= c < limit && v.fat[c] == 0 && |v.data| == limit
    requires x.fat == v.fat[c := EOC_MARK] && x.L == Joined(v.L, [c], NOWHERE) && DataShape(x.data, limit, per)
    requires |x.data| == |v.data| && forall k :: 0 <= k < |x.data| && k != c ==> x.data[k] == v.data[k]
    ensures c !in v.L.chains && Fine(x, limit, per) && AllKept(v, x, 0) && x.L.depth == v.L.depth
    ensures DirItems(x.data, x.L, per) == DirItems(v.data, v.L, per)
    ensures |FreeSet(x.fat, limit)| == |FreeSet(v.fat, limit)| - 1
  {
    hide HeadOk, PlaceOk, DataShape, DirItems, DirSlots, SameChain, FreeSet, Joined, Growing, Sized;
    GrowingNone(v.fat, limit);
    GrowingStep(v.fat, v.fat, limit, [], c);
    assert [] + [c] == [c];
    FreeSetTake(v.fat, limit, c, EOC_MARK);
    AddChain(v.fat, x.fat, v.data, x.data, limit, v.L, per, [c], NOWHERE);
  }

  /** A chain of one cluster, kept aside, keeps what is in it. */
  lemma AsideSlots(x: Vol, y: Vol, limit: nat, per: nat, L: Layout, c: nat)
    requires Fits(x.data, x.L, per) && Fits(y.data, y.L, per) && Kept(x, y, 0) && x.L == Joined(L, [c], NOWHERE)
    requires DataShape(x.data, limit, per) && 2 <= c < limit && c !in x.L.depth
    ensures c in y.L.chains && SlotsAt(y.data, y.L, per, c) == SlotsOf(x.data[c]) && |SlotsOf(x.data[c])| == per
  {
    hide SlotsOf;
    assert SameChain(x.fat, x.data, x.L, y.fat, y.data, y.L, c);
    assert y.L.chains[c] == [c] && [c][1..] == [];
    assert DirSlots(y.data, [], per) == [];
  }

  /** A new directory entry `e` names the cluster that was kept aside. */
  lemma EnteredDir(v: Vol, x: Vol, x1: Vol, y: Vol, limit: nat, root: nat, per: nat, dir: nat, nw: nat, slot: nat,
                   c: nat, up: nat, e: Entry)
    requires Sound(v, limit, root, per) && Fine(x, limit, per) && Fine(x1, limit, per) && Fine(y, limit, per)
        && PerOk(per)
    requires Dirs.Live(e) && IsDir(e) && !DotName(Dotted(e)) && EntClus(e) == c
    requires 2 <= c < limit == |x.data| && c < 0x1_0000_0000 && c !in v.L.chains && (up == dir || up == Up(dir, root))
    requires Adding(v, x, x1, y, limit, per, dir, nw, slot, [c], e) && DotSlots(SlotsOf(x.data[c]), c, up)
    ensures var z := y.(L := NamedDir(y.L, c, Ref(dir, slot)));
            && Sound(z, limit, root, per) && FirstIn(v, per, dir, More(nw, per), slot)
            && MadeDir(v, z, per, dir, More(nw, per), slot, e, c, up)
  {
    hide TreeOk, ChainsOk, DirSlots, Dotted, Short, Joined, AllKept, Dirs.Live, DirItems, EntClus, EntSize, MaybeGrew,
         With, AllSlots, FirstSlot, IsDir, View, Sized, PutAt, DataShape, FirstIn, More, NumClus, Kept, Edited,
         DotSlots, SlotsOf, DotsOk;
    var z := y.(L := NamedDir(y.L, c, Ref(dir, slot)));
    DepthsHaveChains(v, per);
    AddKept(v, x, x1, y, limit, per, dir, nw, slot, [c], e);
    AsideSlots(x, y, limit, per, v.L, c);
    DotItems(SlotsAt(y.data, y.L, per, c), c, up, dir, root, PerBytes(per));
    OneClusterItems(y, per, c);
    MaybeGrewDepth(x, x1, limit, per, dir, nw);
    MakeTree(v, x, x1, y, limit, root, per, dir, nw, slot, c, e);
    ChainsIgnoreNames(y.fat, limit, y.L, z.L);
    MadeEdits(v, x, x1, y, limit, per, dir, nw, slot, c, e, up);
  }

  /** Creating a directory: the volume once the new entry names the new directory. */
  lemma CreatedDir(v: Vol, x: Vol, x1: Vol, y: Vol, limit: nat, root: nat, per: nat, dir: nat, nw: nat, slot: nat,
                   c: nat, leaf: Name)
    requires Sound(v, limit, root, per) && Fine(x, limit, per) && Fine(x1, limit, per) && Fine(y, limit, per)
        && PerOk(per)
    requires leaf != [] && !DotName(leaf) && 2 <= c < limit == |x.data| && c < 0x1_0000_0000 && c !in v.L.chains
    requires Adding(v, x, x1, y, limit, per, dir, nw, slot, [c], NewEntry(leaf, ATTR_DIR, c, 0))
    requires DotSlots(SlotsOf(x.data[c]), c, Up(dir, root))
    ensures var z := y.(L := NamedDir(y.L, c, Ref(dir, slot)));
            && Sound(z, limit, root, per) && FirstIn(v, per, dir, More(nw, per), slot)
            && MadeDir(v, z, per, dir, More(nw, per), slot, NewEntry(leaf, ATTR_DIR, c, 0), c, Up(dir, root))
  {
    hide Sound, Fine, Dotted, Short, Dirs.Live, EntClus, EntSize, IsDir, NewEntry, Adding, MadeDir, FirstIn, More,
         NamedDir, DotSlots, SlotsOf;
    NewEntryFields(leaf, ATTR_DIR, c, 0);
    NeverDots(leaf);
    EnteredDir(v, x, x1, y, limit, root, per, dir, nw, slot, c, Up(dir, root), NewEntry(leaf, ATTR_DIR, c, 0));
  }

  lemma OneClusterItems(y: Vol, per: nat, c: nat)
    requires Fits(y.data, y.L, per) && PerOk(per) && c in y.L.chains && |SlotsAt(y.data, y.L, per, c)| == per
    ensures |ItemsOf(SlotsAt(y.data, y.L, per, c), PerBytes(per))| <= MAX_ITEMS
  {
    hide DirSlots;
  }

  lemma MadeEdits(v: Vol, x: Vol, x1: Vol, y: Vol, limit: nat, per: nat, dir: nat, nw: nat, slot: nat, c: nat, e: Entry,
                  up: nat)
    requires Fits(v.data, v.L, per) && Fine(x, limit, per) && Fine(x1, limit, per) && Fine(y, limit, per) && PerOk(per)
    requires Adding(v, x, x1, y, limit, per, dir, nw, slot, [c], e) && Kept(v, y, 0) && y.L.depth == v.L.depth
    requires EntClus(e) == c && c !in v.L.depth && c in y.L.chains
    requires DotSlots(SlotsAt(y.data, y.L, per, c), c, up)
    ensures var z := y.(L := NamedDir(y.L, c, Ref(dir, slot)));
            && FirstIn(v, per, dir, More(nw, per), slot)
            && MadeDir(v, z, per, dir, More(nw, per), slot, e, c, up)
  {
    hide ChainsOk, DirSlots, Joined, AllKept, DirItems, EntClus, EntSize, MaybeGrew, With, AllSlots, FirstSlot, Kept,
         Edited, More, FirstIn, Sized, DataShape, PutAt, NewEntry;
    var z := y.(L := NamedDir(y.L, c, Ref(dir, slot)));
    AddEdits(v, x, x1, y, z.L, limit, per, dir, nw, slot, [c], e);
    KeptNamed(v, y, z.L, 0);
    MaybeGrewDepth(x, x1, limit, per, dir, nw);
    FirstInGrown(v, x, x1, limit, per, dir, nw, slot);
  }

  // ---------------------------------------------------------------- removing, as a whole

  /** What dir_is_empty asks: no live entry before the end mark but the dot entries (fat.c:992-1014). */
  ghost predicate EmptyDir(s: Slots) {
    forall i :: 0 <= i < |s| && i < MAX_SLOTS && Dirs.Live(s[i]) && (forall j :: 0 <= j <= i ==> !Ended(s[j])) ==>
      DotName(Dotted(s[i]))
  }

  function Erased(e: Entry): Entry { e[0 := GONE] }

  ghost function Shallow(L: Layout, h: nat): Layout { L.(depth := L.depth - {h}) }

  /** The entry at `slot` of `dir` is erased and what it names is no longer there. */
  ghost predicate Unlinked(v: Vol, z: Vol, per: nat, dir: nat, slot: nat, h: nat) {
    && Fits(v.data, v.L, per) && Fits(z.data, z.L, per) && |z.data| == |v.data|
    && dir in v.L.depth && slot < |SlotsAt(v.data, v.L, per, dir)| && h != dir
    && (forall k :: k in z.L.depth <==> k in v.L.depth && k != h)
    && SlotsAt(z.data, z.L, per, dir) == SlotsAt(v.data, v.L, per, dir)[slot := Erased(HitAt(v, per, dir, slot))]
    && (forall k :: k in z.L.depth && k != dir ==> SlotsAt(z.data, z.L, per, k) == SlotsAt(v.data, v.L, per, k))
    && Kept(v, z, h)
  }

  /** A lookup of `name` in `dir` ends at `slot`, whose entry names `h`. */
  ghost predicate FoundIn(v: Vol, per: nat, dir: nat, name: Name, slot: nat, h: nat) {
    && PerOk(per) && Fits(v.data, v.L, per) && dir in v.L.depth
    && Find(SlotsAt(v.data, v.L, per, dir), name) == Some(slot) && EntClus(SlotsAt(v.data, v.L, per, dir)[slot]) == h
  }

  /** The same, and the entry is not spelt like a dot name. */
  ghost predicate HitsLive(v: Vol, per: nat, dir: nat, name: Name, slot: nat, h: nat) {
    FoundIn(v, per, dir, name, slot, h) && !DotName(Dotted(SlotsAt(v.data, v.L, per, dir)[slot]))
  }

  /** The same, and if `h` is a directory it passes the test. */
  ghost predicate HitsEntry(v: Vol, per: nat, dir: nat, name: Name, slot: nat, h: nat) {
    && HitsLive(v, per, dir, name, slot, h)
    && (IsDir(SlotsAt(v.data, v.L, per, dir)[slot]) && h in v.L.depth ==> EmptyDir(SlotsAt(v.data, v.L, per, h)))
  }

  /** The entry at `slot` of `dir` is marked deleted, and that is all. */
  ghost predicate Erases(v: Vol, y: Vol, per: nat, dir: nat, slot: nat) {
    && PerOk(per) && Fits(v.data, v.L, per) && Fits(y.data, y.L, per) && y.L == v.L && y.fat == v.fat
         && |y.data| == |v.data|
    && dir in v.L.depth && slot < |SlotsAt(v.data, v.L, per, dir)|
    && PutAt(v.data, y.data, v.L, per, dir, slot, Erased(SlotsAt(v.data, v.L, per, dir)[slot]))
  }

  /** A directory that passes the test owns nothing. */
  lemma EmptyOwnsNothing(v: Vol, limit: nat, root: nat, per: nat, h: nat)
    requires Sound(v, limit, root, per) && h in v.L.depth && h != root && PerOk(per)
        && EmptyDir(SlotsAt(v.data, v.L, per, h))
    ensures forall i: nat :: !Owned(DirItems(v.data, v.L, per), root, h, i)
  {
    hide ChainsOk, DirSlots, Sized, DirItems, TreeOk, EmptyDir, View, DirOk;
    var D, s := DirItems(v.data, v.L, per), SlotsAt(v.data, v.L, per, h);
    OwnedNoDots(D, v.L, root, h);
    OnlyDots(D, v.L, root, h, s, PerBytes(per));
  }

  lemma OwnedNoDots(D: DirMap, L: Layout, root: nat, h: nat)
    requires TreeOk(D, L, root) && h in D
    ensures forall i: nat :: Owned(D, root, h, i) ==> D[h][i].dots == 0
    ensures DirOk(D, L, root, h)
  {
    forall i: nat | Owned(D, root, h, i) ensures D[h][i].dots == 0 { OwnedFacts(D, L, root, h, i); }
  }

  lemma OnlyDots(D: DirMap, L: Layout, root: nat, h: nat, s: Slots, cb: nat)
    requires h in D && DirOk(D, L, root, h) && cb > 0 && D[h] == ItemsOf(s, cb) && EmptyDir(s)
    ensures forall i: nat :: i < |D[h]| && D[h][i].Live() ==> D[h][i].dots != 0
  {
    hide Dotted, NumClus, EntClus, EntSize;
    forall i: nat | i < |D[h]| && D[h][i].Live() ensures D[h][i].dots != 0 {
      LiveIsShown(D[h], s, cb, i);
      assert D[h][i] == View(s[i], cb);
    }
  }

  /** In a tidy directory no end mark comes before a live entry. */
  lemma LiveIsShown(items: Items, s: Slots, cb: nat, i: nat)
    requires cb > 0 && items == ItemsOf(s, cb) && TidyItems(items) && i < |items| && items[i].Live()
    ensures Dirs.Live(s[i]) && forall j :: 0 <= j <= i ==> !Ended(s[j])
  {
    hide View;
    forall j | 0 <= j <= i ensures !Ended(s[j]) { assert items[j] == View(s[j], cb); }
  }

  /** What was hit can be removed. */
  lemma HitRemovable(v: Vol, limit: nat, root: nat, per: nat, dir: nat, name: Name, slot: nat, h: nat)
    requires Sound(v, limit, root, per) && HitsEntry(v, per, dir, name, slot, h)
    ensures var D := DirItems(v.data, v.L, per);
            && dir in D && slot < |D[dir]| && D[dir][slot].Live() && D[dir][slot].clus == h
            && CanRemove(D, v.L, root, dir, slot) && h != dir
            && (h !in v.L.chains ==> h !in v.L.refs && h !in v.L.depth)
  {
    hide TreeOk, ChainsOk, DirSlots, FindFrom, Sized, EntClus, EmptyDir, DirItems, View, Owned;
    var D := DirItems(v.data, v.L, per);
    HitOwned(v.data, v.L, root, per, dir, name, slot);
    FolderHasDepth(D, v.L, root, dir, slot);
    if D[dir][slot].Folder? { EmptyOwnsNothing(v, limit, root, per, h); }
    RemoveApart(D, v.L, root, dir, slot);
    ChainlessHead(D, v.L, root, h);
  }

  lemma ChainlessHead(D: DirMap, L: Layout, root: nat, h: nat)
    requires TreeOk(D, L, root)
    ensures h !in L.chains ==> h !in L.refs && h !in L.depth
  {
    hide EntriesOk, RefsOk, DirsOk;
  }

  lemma FolderHasDepth(D: DirMap, L: Layout, root: nat, d: nat, s: nat)
    requires TreeOk(D, L, root) && Owned(D, root, d, s)
    ensures d in D && s < |D[d]| && D[d][s].Live() && (D[d][s].Folder? ==> D[d][s].clus in L.depth)
  {
    assert EntryOk(D, L, d, s);
  }

  /** Erasing the entry a lookup hit, and dropping what it names, leaves a tree. */
  lemma UnlinkTree(v: Vol, y: Vol, z: Vol, limit: nat, root: nat, per: nat, dir: nat, name: Name, slot: nat, h: nat)
    requires Sound(v, limit, root, per) && HitsEntry(v, per, dir, name, slot, h) && Erases(v, y, per, dir, slot)
    requires Fits(z.data, z.L, per) && z.L == Dropped(Shallow(v.L, h), h)
    requires Fits(y.data, Shallow(v.L, h), per) && DirItems(z.data, z.L, per) == DirItems(y.data, Shallow(v.L, h), per)
    ensures TreeOk(DirItems(z.data, z.L, per), z.L, root) && h != dir
  {
    hide TreeOk, ChainsOk, DirSlots, FindFrom, Sized, Without, DirItems, Dropped, CanRemove, Erases, HitsEntry, Fits,
         Shallow;
    var D := DirItems(v.data, v.L, per);
    HitRemovable(v, limit, root, per, dir, name, slot, h);
    TreeRemove(D, v.L, root, dir, slot);
    ShallowItems(v, y, per, dir, slot, h);
    DropShallow(v.L, h);
    TreeIgnoresPlaces(Removed(D, dir, slot), Without(v.L, h), z.L, root);
  }

  /** What the entry hit names: a chain, or nothing. */
  lemma HitChain(v: Vol, limit: nat, root: nat, per: nat, dir: nat, name: Name, slot: nat, h: nat)
    requires Sound(v, limit, root, per) && HitsEntry(v, per, dir, name, slot, h)
    ensures h != dir && (h >= 2 ==> h in v.L.chains) && (h < 2 ==> h == 0 && h !in v.L.chains)
    ensures h !in v.L.chains ==> h !in v.L.refs && h !in v.L.depth
  {
    hide TreeOk, DirSlots, FindFrom, Sized, EntClus, EmptyDir, DirItems, View, Owned, HeadOk, PlaceOk;
    HitRemovable(v, limit, root, per, dir, name, slot, h);
    HitOwned(v.data, v.L, root, per, dir, name, slot);
    HeadsPositive(v.fat, limit, v.L);
    if h in v.L.chains { HeadInRange(v.fat, limit, v.L, h); }
  }

  lemma HeadInRange(fat: seq<nat>, limit: nat, L: Layout, h: nat)
    requires ChainsOk(fat, limit, L) && h in L.chains
    ensures 2 <= h < limit
  {
    assert HeadOk(L, h);
    assert PlaceOk(fat, limit, L, h);
  }

  lemma ErasedView(e: Entry, cb: nat)
    requires cb > 0
    ensures View(Erased(e), cb) == Deleted
  {
  }

  lemma DropShallow(L: Layout, h: nat)
    requires h !in L.chains ==> h !in L.refs && h !in L.depth
    ensures var r := Dropped(Shallow(L, h), h);
            r.chains == Without(L, h).chains && r.refs == Without(L, h).refs && r.depth == Without(L, h).depth
  {
    WithoutKeeps(L, h);
    assert L.depth - {h} - {h} == L.depth - {h};
  }

  /** The items once the entry is erased and the directory it named, if it did, is dropped. */
  lemma ShallowItems(v: Vol, y: Vol, per: nat, dir: nat, slot: nat, h: nat)
    requires Erases(v, y, per, dir, slot) && Fits(y.data, Shallow(v.L, h), per)
    requires var D := DirItems(v.data, v.L, per);
        dir in D && slot < |D[dir]| && D[dir][slot].Live() && D[dir][slot].clus == h
    ensures DirItems(y.data, Shallow(v.L, h), per) == Removed(DirItems(v.data, v.L, per), dir, slot)
  {
    hide DirSlots, View, Sized;
    ErasedView(SlotsAt(v.data, v.L, per, dir)[slot], PerBytes(per));
    var D, D1, E := DirItems(v.data, v.L, per), DirItems(y.data, v.L, per), DirItems(y.data, Shallow(v.L, h), per);
    assert D1 == Added(D, dir, slot, Deleted);
    hide *;
    FewerDirs(D, D1, E, dir, slot, h) by { ShallowDirs(y, per, h); }
  }

  lemma ShallowDirs(y: Vol, per: nat, h: nat)
    requires Fits(y.data, y.L, per) && Fits(y.data, Shallow(y.L, h), per)
    ensures var D, E := DirItems(y.data, y.L, per), DirItems(y.data, Shallow(y.L, h), per);
            (forall k :: k in E <==> k in D && k != h) && forall k :: k in E ==> E[k] == D[k]
  {
    hide DirSlots, View, Sized;
  }

  lemma FewerDirs(D: DirMap, D1: DirMap, E: DirMap, dir: nat, slot: nat, h: nat)
    requires dir in D && slot < |D[dir]| && D[dir][slot].Live() && D[dir][slot].clus == h
        && D1 == Added(D, dir, slot, Deleted)
    requires (forall k :: k in E <==> k in D1 && k != h) && forall k :: k in E ==> E[k] == D1[k]
    ensures E == Removed(D, dir, slot)
  {
    var R := Removed(D, dir, slot);
    assert forall k :: k in E <==> k in R;
    assert forall k :: k in E ==> E[k] == R[k];
  }

  /** Erasing an entry, then giving its chain back: what is left, and what is as it was. */
  lemma UnlinkKept(v: Vol, y: Vol, y1: Vol, z: Vol, limit: nat, per: nat, dir: nat, slot: nat, h: nat)
    requires Fine(v, limit, per) && Erases(v, y, per, dir, slot) && |z.data| == |v.data| <= |v.fat| && h != dir
    requires y1 == y.(L := Shallow(v.L, h)) && z.L == Dropped(y1.L, h) && Fits(z.data, z.L, per)
    requires h !in v.L.chains ==> h !in v.L.refs && h !in v.L.depth
    requires AllKept(y1, z, h)
    ensures Unlinked(v, z, per, dir, slot, h)
  {
    hide ChainsOk, DirSlots, DirItems, Sized, View, SameChain, FilesKept, Dropped, Without;
    DropShallow(v.L, h);
    WithoutDepth(v.L, h);
    forall k | k in z.L.depth ensures SlotsAt(z.data, z.L, per, k) == SlotsAt(y.data, y.L, per, k) {
      SameChainSlots(y, y1, z, per, k, h);
    }
    KeptPut(v.fat, v.data, y.data, limit, v.L, y.L, per, dir, h);
    KeptShallow(v, y, y1, z, h);
  }

  lemma WithoutDepth(L: Layout, h: nat)
    ensures forall k :: k in Without(L, h).depth <==> k in L.depth && k != h
  {
  }

  lemma SameChainSlots(y: Vol, y1: Vol, z: Vol, per: nat, k: nat, h: nat)
    requires Fits(y.data, y.L, per) && Fits(z.data, z.L, per) && |z.data| == |y.data| && y1 == y.(L := Shallow(y.L, h))
    requires k in z.L.depth && k in y.L.depth && k != h && AllKept(y1, z, h)
    ensures SlotsAt(z.data, z.L, per, k) == SlotsAt(y.data, y.L, per, k)
  {
    hide DirSlots;
    assert SameChain(y1.fat, y1.data, y1.L, z.fat, z.data, z.L, k);
    SameSlots(y.data, z.data, y.L.chains[k], per);
  }

  lemma KeptShallow(v: Vol, y: Vol, y1: Vol, z: Vol, h: nat)
    requires Kept(v, y, h) && y.L == v.L && y1 == y.(L := Shallow(v.L, h)) && AllKept(y1, z, h)
    ensures Kept(v, z, h)
  {
    forall k | k in v.L.chains && k !in v.L.depth && k != h
      ensures SameChain(v.fat, v.data, v.L, z.fat, z.data, z.L, k) {
      assert SameChain(v.fat, v.data, v.L, y.fat, y.data, y.L, k);
      assert SameChain(y1.fat, y1.data, y1.L, z.fat, z.data, z.L, k);
    }
  }
}
