/**
 * Well-formedness of a volume given by its table and clusters, and what the steps of
 * the driver do to the directories it holds.
 */
module Wellformed {
  import opened Bytes
  import opened Names
  import opened Chains
  import opened Dirs
  import opened Trees

  function Dots(n: Name): nat { if n == [DOT] then 1 else if n == [DOT, DOT] then 2 else 0 }

  /** What well-formedness sees of an entry. */
  function View(e: Entry, cb: nat): (r: Item)
    requires cb > 0
    ensures r.End? <==> Ended(e)
    ensures r.Free() <==> FreeSlot(e)
    ensures r.Live() <==> Dirs.Live(e)
  {
    if Ended(e) then End
    else if Gone(e) then Deleted
    else if !Dirs.Live(e) then Note
    else if IsDir(e) then Folder(Dots(Dotted(e)), EntClus(e))
    else File(Dots(Dotted(e)), EntClus(e), NumClus(EntSize(e), cb))
  }

  function ItemsOf(slots: Slots, cb: nat): (r: Items)
    requires cb > 0
    ensures |r| == |slots| && forall i :: 0 <= i < |slots| ==> r[i] == View(slots[i], cb)
  {
    seq(|slots|, i requires 0 <= i < |slots| => View(slots[i], cb))
  }

  /** Clusters 2 .. limit - 1, all of the same legal size. */
  ghost predicate DataShape(data: seq<seq<byte>>, limit: nat, per: nat) {
    PerOk(per) && |data| == limit && forall c :: 2 <= c < limit ==> |data[c]| == per * 32
  }

  /** Every chain of `L` lies in the data area. */
  ghost predicate Fits(data: seq<seq<byte>>, L: Layout, per: nat) {
    (forall h :: h in L.chains ==> Sized(data, L.chains[h], per)) && forall d :: d in L.depth ==> d in L.chains
  }

  lemma ChainsFit(fat: seq<nat>, data: seq<seq<byte>>, limit: nat, L: Layout, per: nat)
    requires ChainsOk(fat, limit, L) && DataShape(data, limit, per)
    ensures forall h :: h in L.chains ==> Sized(data, L.chains[h], per)
  {
    forall h | h in L.chains ensures Sized(data, L.chains[h], per) { ChainsAreChains(fat, limit, L, h); }
  }

  ghost function SlotsAt(data: seq<seq<byte>>, L: Layout, per: nat, d: nat): Slots
    requires d in L.chains && Sized(data, L.chains[d], per)
  {
    DirSlots(data, L.chains[d], per)
  }

  /** The directories of a volume, as well-formedness sees them. */
  ghost function DirItems(data: seq<seq<byte>>, L: Layout, per: nat): (r: DirMap)
    requires Fits(data, L, per)
    ensures forall d :: d in r <==> d in L.depth
    ensures forall d :: d in r ==> r[d] == ItemsOf(SlotsAt(data, L, per, d), PerBytes(per))
  {
    map d | d in L.depth :: ItemsOf(SlotsAt(data, L, per, d), PerBytes(per))
  }

  function PerBytes(per: nat): nat { per * 32 }

  /** Directories read the same when their clusters do. */
  lemma ItemsKept(data: seq<seq<byte>>, data': seq<seq<byte>>, L: Layout, L': Layout, per: nat)
    requires Fits(data, L, per) && Fits(data', L', per) && |data'| == |data| && L'.depth == L.depth
    requires forall d :: d in L.depth ==> L'.chains[d] == L.chains[d]
    requires forall d, i :: d in L.depth && 0 <= i < |L.chains[d]| ==> data'[L.chains[d][i]] == data[L.chains[d][i]]
    ensures DirItems(data', L', per) == DirItems(data, L, per)
  {
    forall d | d in L.depth ensures SlotsAt(data', L', per, d) == SlotsAt(data, L, per, d) {
      SameSlots(data, data', L.chains[d], per);
    }
  }

  /** Slot `s` of directory `d`, and nothing else, is now `e`. */
  ghost predicate PutAt(data: seq<seq<byte>>, data': seq<seq<byte>>, L: Layout, per: nat, d: nat, s: nat, e: Entry)
    requires Fits(data, L, per) && Fits(data', L, per) && d in L.depth && s < |SlotsAt(data, L, per, d)|
  {
    && SlotsAt(data', L, per, d) == SlotsAt(data, L, per, d)[s := e]
    && (forall k :: k in L.depth && k != d ==> SlotsAt(data', L, per, k) == SlotsAt(data, L, per, k))
    && (forall c :: 0 <= c < |data| && c < |data'| && c !in L.chains[d] ==> data'[c] == data[c])
    && DirItems(data', L, per) == Added(DirItems(data, L, per), d, s, View(e, PerBytes(per)))
  }

  /** Replacing a cluster by one of the same size. */
  lemma PutShape(data: seq<seq<byte>>, limit: nat, L: Layout, per: nat, x: nat, c: seq<byte>)
    requires DataShape(data, limit, per) && Fits(data, L, per) && x < |data| && |c| == per * 32
    ensures DataShape(data[x := c], limit, per) && Fits(data[x := c], L, per)
  {
    forall h | h in L.chains ensures Sized(data[x := c], L.chains[h], per) { assert Sized(data, L.chains[h], per); }
  }

  /** A cluster of one directory is none of another's. */
  lemma PutElsewhere(data: seq<seq<byte>>, L: Layout, per: nat, d: nat, q: nat, c: seq<byte>, k: nat)
    requires d in L.chains && k in L.chains && k != d && HeadOk(L, d) && HeadOk(L, k) && q < |L.chains[d]|
    requires Sized(data, L.chains[k], per) && L.chains[d][q] < |data|
    requires Sized(data[L.chains[d][q] := c], L.chains[k], per)
    ensures SlotsAt(data[L.chains[d][q] := c], L, per, k) == SlotsAt(data, L, per, k)
  {
    SameSlots(data, data[L.chains[d][q] := c], L.chains[k], per);
  }

  /** If one slot of one directory changed, so did one item. */
  lemma PutItems(data: seq<seq<byte>>, data': seq<seq<byte>>, L: Layout, per: nat, d: nat, s: nat, e: Entry)
    requires Fits(data, L, per) && Fits(data', L, per) && d in L.depth && s < |SlotsAt(data, L, per, d)|
    requires SlotsAt(data', L, per, d) == SlotsAt(data, L, per, d)[s := e]
    requires forall k :: k in L.depth && k != d ==> SlotsAt(data', L, per, k) == SlotsAt(data, L, per, k)
    ensures per > 0
    ensures DirItems(data', L, per) == Added(DirItems(data, L, per), d, s, View(e, PerBytes(per)))
  {
    hide View, DirSlots, Sized;
    var D, D' := DirItems(data, L, per), DirItems(data', L, per);
    var it := View(e, PerBytes(per));
    assert D'[d] == D[d][s := it];
  }

  /** Rewriting the cluster that holds slot `s` of directory `d`, in that slot only. */
  lemma ItemsPut(fat: seq<nat>, data: seq<seq<byte>>, limit: nat, L: Layout, per: nat, d: nat, s: nat, c: seq<byte>,
                 e: Entry)
    requires ChainsOk(fat, limit, L) && DataShape(data, limit, per) && Fits(data, L, per) && d in L.depth
    requires s < |L.chains[d]| * per && s / per < |L.chains[d]| && s % per < per
    requires |c| == per * 32 && SlotsOf(c) == SlotsOf(data[L.chains[d][s / per]])[s % per := e]
    ensures var data' := data[L.chains[d][s / per] := c];
            DataShape(data', limit, per) && Fits(data', L, per) && PutAt(data, data', L, per, d, s, e)
  {
    hide DirSlots, SlotsOf, DataShape, View, DirItems, Added, ChainsOk, HeadOk;
    var ch := L.chains[d];
    var x := ch[s / per];
    ChainFacts(fat, limit, L, d);
    PutShape(data, limit, L, per, x, c);
    SlotPut(data, ch, per, s, c, e);
    forall k | k in L.depth && k != d ensures SlotsAt(data[x := c], L, per, k) == SlotsAt(data, L, per, k) {
      ChainFacts(fat, limit, L, k);
      PutElsewhere(data, L, per, d, s / per, c, k);
    }
    PutItems(data, data[x := c], L, per, d, s, e);
  }

  lemma ChainFacts(fat: seq<nat>, limit: nat, L: Layout, h: nat)
    requires ChainsOk(fat, limit, L) && h in L.chains
    ensures HeadOk(L, h)
    ensures forall a, b :: 0 <= a < b < |L.chains[h]| ==> L.chains[h][a] != L.chains[h][b]
  {
    ChainsAreChains(fat, limit, L, h);
  }

  // ---------------------------------------------------------------- growing a directory

  function EndItems(per: nat): (r: Items)
    ensures |r| == per && forall i :: 0 <= i < per ==> r[i].End?
  {
    seq(per, _ => End)
  }

  ghost function LastOf(L: Layout, d: nat): nat
    requires d in L.chains && L.chains[d] != []
  {
    L.chains[d][|L.chains[d]|-1]
  }

  /** A zeroed cluster `nw`, free before, now ends the chain of `d`. */
  ghost predicate Grew(fat: seq<nat>, data: seq<seq<byte>>, L: Layout, fat': seq<nat>, data': seq<seq<byte>>,
                       L': Layout, limit: nat, per: nat, d: nat, nw: nat)
    requires d in L.depth && Fits(data, L, per) && Fits(data', L', per) && limit <= |fat|
  {
    && 3 <= nw < limit && nw < |data| && fat[nw] == 0 && d in L.chains && L.chains[d] != []
    && L' == Grown(L, d, nw) && data' == data[nw := Zeros(PerBytes(per))]
    && LastOf(L, d) < |fat| && fat' == fat[nw := EOC_MARK][LastOf(L, d) := nw]
    && SlotsAt(data', L', per, d) == SlotsAt(data, L, per, d) + SlotsOf(Zeros(PerBytes(per)))
    && (forall k :: k in L.depth && k != d ==> SlotsAt(data', L', per, k) == SlotsAt(data, L, per, k))
    && d in DirItems(data, L, per)
    && DirItems(data', L', per) == WithSlots(DirItems(data, L, per), d, DirItems(data, L, per)[d] + EndItems(per))
  }

  /** A cluster that was free lies on no chain. */
  lemma FreeOffChains(fat: seq<nat>, limit: nat, L: Layout, c: nat)
    requires ChainsOk(fat, limit, L) && 2 <= c < limit && fat[c] == 0
    ensures forall h :: h in L.chains ==> c !in L.chains[h]
    ensures c !in L.chains
  {
    forall h | h in L.chains ensures c !in L.chains[h] { assert HeadOk(L, h); }
  }

  lemma ItemsGrown(fat: seq<nat>, data: seq<seq<byte>>, limit: nat, L: Layout, per: nat, d: nat, nw: nat)
    requires ChainsOk(fat, limit, L) && DataShape(data, limit, per) && Fits(data, L, per) && d in L.depth
    requires 3 <= nw < limit <= |fat| && fat[nw] == 0 && L.chains[d] != [] && LastOf(L, d) < |fat|
    ensures var last := LastOf(L, d);
            var fat', data', L' := fat[nw := EOC_MARK][last := nw], data[nw := Zeros(PerBytes(per))], Grown(L, d, nw);
            && ChainsOk(fat', limit, L') && DataShape(data', limit, per) && Fits(data', L', per)
            && Grew(fat, data, L, fat', data', L', limit, per, d, nw)
  {
    hide ChainsOk, DirSlots, SlotsOf, View, DirItems, IsChain;
    var last := LastOf(L, d);
    var fat', data', L' := fat[nw := EOC_MARK][last := nw], data[nw := Zeros(PerBytes(per))], Grown(L, d, nw);
    FreeOffChains(fat, limit, L, nw);
    ChainsGrown(fat, fat', limit, L, d, nw);
    GrownFits(data, limit, L, per, d, nw);
    forall k | k in L.depth && k != d ensures SlotsAt(data', L', per, k) == SlotsAt(data, L, per, k) {
      SameSlots(data, data', L.chains[k], per);
    }
    SameSlots(data, data', L.chains[d], per);
    SlotsAppend(data', L.chains[d], per, nw);
    GrownItems(data, data', L, L', per, d);
  }

  lemma GrownFits(data: seq<seq<byte>>, limit: nat, L: Layout, per: nat, d: nat, nw: nat)
    requires DataShape(data, limit, per) && Fits(data, L, per) && d in L.chains && 2 <= nw < limit
    ensures DataShape(data[nw := Zeros(PerBytes(per))], limit, per)
    ensures Fits(data[nw := Zeros(PerBytes(per))], Grown(L, d, nw), per)
    ensures Sized(data[nw := Zeros(PerBytes(per))], L.chains[d], per)
  {
    var data', L' := data[nw := Zeros(PerBytes(per))], Grown(L, d, nw);
    forall h | h in L'.chains ensures Sized(data', L'.chains[h], per) { assert Sized(data, L.chains[h], per); }
    assert Sized(data, L.chains[d], per);
  }

  lemma GrownItems(data: seq<seq<byte>>, data': seq<seq<byte>>, L: Layout, L': Layout, per: nat, d: nat)
    requires Fits(data, L, per) && Fits(data', L', per) && d in L.depth && L'.depth == L.depth && PerOk(per)
    requires SlotsAt(data', L', per, d) == SlotsAt(data, L, per, d) + SlotsOf(Zeros(PerBytes(per)))
    requires forall k :: k in L.depth && k != d ==> SlotsAt(data', L', per, k) == SlotsAt(data, L, per, k)
    ensures DirItems(data', L', per) == WithSlots(DirItems(data, L, per), d, DirItems(data, L, per)[d] + EndItems(per))
  {
    hide DirSlots, Sized;
    var D, D' := DirItems(data, L, per), DirItems(data', L', per);
    var z := SlotsOf(Zeros(PerBytes(per)));
    forall i | 0 <= i < |z| ensures Ended(z[i]) {}
    assert D'[d] == D[d] + EndItems(per);
    assert forall k :: k in D' ==> D'[k] == WithSlots(D, d, D[d] + EndItems(per))[k];
  }

  // ---------------------------------------------------------------- a slot for a new entry

  /** The table, clusters and layout, after growing `d` by `nw` if that is not 0. */
  ghost predicate MaybeGrew(fat: seq<nat>, data: seq<seq<byte>>, L: Layout, fat': seq<nat>, data': seq<seq<byte>>,
                            L': Layout, limit: nat, per: nat, d: nat, nw: nat)
    requires d in L.depth && Fits(data, L, per) && Fits(data', L', per) && limit <= |fat|
  {
    if nw == 0 then fat' == fat && data' == data && L' == L
    else Grew(fat, data, L, fat', data', L', limit, per, d, nw) && |SlotsAt(data, L, per, d)| + per <= MAX_SLOTS
  }

  /** `s` is the first free slot, among those dir_find looks at. */
  ghost predicate FirstSlot(slots: Slots, s: nat) {
    s < |slots| && s < MAX_SLOTS && FreeSlot(slots[s]) && forall j :: 0 <= j < s ==> !FreeSlot(slots[j])
  }

  /** dir_free_slot finds a slot: a free one among the first 4096, or room and space for another cluster. */
  ghost predicate HasSlot(slots: Slots, free: nat) {
    (exists j :: 0 <= j < |slots| && j < MAX_SLOTS && FreeSlot(slots[j])) || (|slots| < MAX_SLOTS && free > 0)
  }

  /** Room for a file of `need` clusters and its entry. */
  ghost predicate Room(slots: Slots, free: nat, need: nat) { free >= need && HasSlot(slots, free - need) }

  lemma GrewSpace(fat: seq<nat>, data: seq<seq<byte>>, L: Layout, fat': seq<nat>, data': seq<seq<byte>>, L': Layout,
                  limit: nat, per: nat, d: nat, nw: nat)
    requires d in L.depth && Fits(data, L, per) && Fits(data', L', per) && limit <= |fat|
    requires Grew(fat, data, L, fat', data', L', limit, per, d, nw)
    ensures |FreeSet(fat, limit)| > 0
  {
    assert nw in FreeSet(fat, limit);
  }

  /** A directory shorter than 4096 slots has room for another cluster. */
  lemma RoomToGrow(n: nat, per: nat)
    requires PerOk(per) && n * per < MAX_SLOTS
    ensures n * per + per <= MAX_SLOTS
  {
    if per == 16 {} else if per == 32 {} else if per == 64 {} else {}
  }

  lemma FirstSlotGrown(fat: seq<nat>, data: seq<seq<byte>>, L: Layout, fat': seq<nat>, data': seq<seq<byte>>,
                       L': Layout, limit: nat, per: nat, d: nat, nw: nat)
    requires d in L.depth && Fits(data, L, per) && Fits(data', L', per) && limit <= |fat|
    requires Grew(fat, data, L, fat', data', L', limit, per, d, nw)
    requires |SlotsAt(data, L, per, d)| < MAX_SLOTS
    requires forall j :: 0 <= j < |SlotsAt(data, L, per, d)| ==> !FreeSlot(SlotsAt(data, L, per, d)[j])
    ensures MaybeGrew(fat, data, L, fat', data', L', limit, per, d, nw)
    ensures d in L'.depth && FirstSlot(SlotsAt(data', L', per, d), |SlotsAt(data, L, per, d)|)
  {
    hide DirItems, DirSlots, SlotsOf;
    GrewRoom(data, L, per, d);
    EndSlots(PerBytes(per));
  }

  lemma GrewRoom(data: seq<seq<byte>>, L: Layout, per: nat, d: nat)
    requires Fits(data, L, per) && d in L.chains && |SlotsAt(data, L, per, d)| < MAX_SLOTS
    ensures PerOk(per) && |SlotsAt(data, L, per, d)| + per <= MAX_SLOTS
  {
    assert Sized(data, L.chains[d], per);
    RoomToGrow(|L.chains[d]|, per);
  }

  lemma EndSlots(cb: nat)
    requires cb >= 32
    ensures var z := SlotsOf(Zeros(cb)); |z| > 0 && FreeSlot(z[0])
  {
    var z := SlotsOf(Zeros(cb));
    assert Ended(z[0]);
  }

  // ---------------------------------------------------------------- a new volume

  /** A new root directory holds nothing live. */
  lemma FreshItems(s: Slots, cb: nat)
    requires cb > 0 && FreshRoot(s)
    ensures TidyItems(ItemsOf(s, cb)) && forall i :: 0 <= i < |s| ==> !ItemsOf(s, cb)[i].Live()
  {
    hide View;
    var items := ItemsOf(s, cb);
    forall i | 0 <= i < |s|
      ensures !items[i].Live() && (items[i].End? <==> i > 0) { assert items[i] == View(s[i], cb); }
  }
}
