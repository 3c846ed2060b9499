/**
 * When a volume is well formed. Every chain belongs to the root or to exactly one
 * directory entry, chains share no cluster, and a cluster is in use exactly when it
 * lies on a chain, so nothing leaks and nothing is shared. The directories form a tree.
 */
module Trees {
  import opened Chains

  /** Where an entry lies: directory (its first cluster) and slot. */
  datatype Ref = Ref(dir: nat, slot: nat)

  /** Where a cluster lies: head of its chain and position. */
  datatype Place = Place(head: nat, pos: nat)

  /**
   * The witness of well-formedness: the chain of each head, the place of each cluster
   * in use, the entry that names each head, and the depth of each directory.
   */
  datatype Layout = Layout(chains: map<nat, seq<nat>>, places: map<nat, Place>, refs: map<nat, Ref>, depth: map<nat,
      nat>)

  // ---------------------------------------------------------------- the table

  /** Chain `h` starts at `h`, and each of its clusters is placed on it. */
  ghost predicate HeadOk(L: Layout, h: nat)
    requires h in L.chains
  {
    var ch := L.chains[h];
    && |ch| > 0 && ch[0] == h
    && forall i :: 0 <= i < |ch| ==> ch[i] in L.places && L.places[ch[i]] == Place(h, i)
  }

  /** Cluster `c` lies where it is placed, and its entry names the next one or ends the chain. */
  ghost predicate PlaceOk(fat: seq<nat>, limit: nat, L: Layout, c: nat)
    requires c in L.places && limit <= |fat|
  {
    var p := L.places[c];
    && 2 <= c < limit && p.head in L.chains && p.pos < |L.chains[p.head]| && L.chains[p.head][p.pos] == c
    && if p.pos + 1 < |L.chains[p.head]| then fat[c] == L.chains[p.head][p.pos + 1] else fat[c] >= EOC
  }

  ghost predicate ChainsOk(fat: seq<nat>, limit: nat, L: Layout) {
    && 3 <= limit <= |fat| && limit <= BAD
    && (forall h :: h in L.chains ==> HeadOk(L, h))
    && (forall c :: c in L.places ==> PlaceOk(fat, limit, L, c))
    && (forall c :: 2 <= c < limit ==> (fat[c] != 0 <==> c in L.places))
  }

  /** Each chain of a well-formed table is one. */
  lemma ChainsAreChains(fat: seq<nat>, limit: nat, L: Layout, h: nat)
    requires ChainsOk(fat, limit, L) && h in L.chains
    ensures IsChain(fat, limit, L.chains[h])
  {
    hide PlaceOk;
    var ch := L.chains[h];
    assert HeadOk(L, h);
    forall i | 0 <= i < |ch|
      ensures 2 <= ch[i] < limit && if i < |ch| - 1 then fat[ch[i]] == ch[i+1] else fat[ch[i]] >= EOC
    {
      PlacedLink(fat, limit, L, h, i);
    }
    PlacedOnce(L, h);
    PlacedLink(fat, limit, L, h, |ch| - 1);
  }

  /** A cluster of a chain links to the next. */
  lemma PlacedLink(fat: seq<nat>, limit: nat, L: Layout, h: nat, i: nat)
    requires h in L.chains && HeadOk(L, h) && i < |L.chains[h]| && limit <= |fat|
    requires L.chains[h][i] in L.places && PlaceOk(fat, limit, L, L.chains[h][i])
    ensures var ch := L.chains[h];
        2 <= ch[i] < limit && if i < |ch| - 1 then fat[ch[i]] == ch[i+1] else fat[ch[i]] >= EOC
  {
  }

  /** No cluster is placed twice. */
  lemma PlacedOnce(L: Layout, h: nat)
    requires h in L.chains && HeadOk(L, h)
    ensures forall i, j :: 0 <= i < j < |L.chains[h]| ==> L.chains[h][i] != L.chains[h][j]
  {
    var ch := L.chains[h];
    forall i, j | 0 <= i < j < |ch| ensures ch[i] != ch[j] {
      assert L.places[ch[i]] != L.places[ch[j]];
    }
  }

  /** A well-formed table holds no entry that leaves the volume and none equal to BAD. */
  lemma ChainsInRange(fat: seq<nat>, limit: nat, L: Layout)
    requires ChainsOk(fat, limit, L)
    ensures InRange(fat, limit) && NoBad(fat, limit)
  {
    forall c | 2 <= c < limit ensures fat[c] != BAD && (InChain(fat[c]) ==> fat[c] < limit) {
      if c in L.places {
        var p := L.places[c];
        assert PlaceOk(fat, limit, L, c) && HeadOk(L, p.head);
        if p.pos + 1 < |L.chains[p.head]| { assert PlaceOk(fat, limit, L, L.chains[p.head][p.pos + 1]); }
      }
    }
  }

  ghost function Without(L: Layout, h: nat): Layout {
    Layout(L.chains - {h}, map c | c in L.places && L.places[c].head != h :: L.places[c], L.refs - {h}, L.depth - {h})
  }

  ghost predicate Distinct(ch: seq<nat>) { forall i, j :: 0 <= i < j < |ch| ==> ch[i] != ch[j] }

  ghost function Placed(ch: seq<nat>): (r: map<nat, Place>)
    requires ch != [] && Distinct(ch)
    ensures forall c :: c in r <==> c in ch
    ensures forall i :: 0 <= i < |ch| ==> r[ch[i]] == Place(ch[0], i)
  {
    map i | 0 <= i < |ch| :: ch[i] := Place(ch[0], i)
  }

  ghost function With(L: Layout, ch: seq<nat>, ref: Ref): Layout
    requires ch != [] && Distinct(ch)
  {
    Layout(L.chains[ch[0] := ch], L.places + Placed(ch), L.refs[ch[0] := ref], L.depth)
  }

  ghost function Grown(L: Layout, d: nat, c: nat): Layout
    requires d in L.chains
  {
    L.(chains := L.chains[d := L.chains[d] + [c]], places := L.places[c := Place(d, |L.chains[d]|)])
  }

  /** Clearing the clusters of one chain leaves the others. */
  lemma ChainsFreed(fat: seq<nat>, fat': seq<nat>, limit: nat, L: Layout, h: nat)
    requires ChainsOk(fat, limit, L) && h in L.chains && |fat'| == |fat|
    requires forall c :: 2 <= c < limit ==> fat'[c] == if c in L.chains[h] then 0 else fat[c]
    ensures ChainsOk(fat', limit, Without(L, h))
  {
    hide PlaceOk, HeadOk;
    var L' := Without(L, h);
    forall k | k in L'.chains ensures HeadOk(L', k) { FreedHead(L, h, k); }
    forall c | 2 <= c < limit
      ensures c in L.chains[h] <==> c in L.places && L.places[c].head == h
    {
      PlacedHere(fat, limit, L, h, c);
    }
    forall c | c in L'.places ensures PlaceOk(fat', limit, L', c) {
      PlaceInside(fat, limit, L, c);
      FreedPlace(fat, fat', limit, L, h, c);
    }
  }

  lemma FreedHead(L: Layout, h: nat, k: nat)
    requires k in L.chains && k != h && HeadOk(L, k)
    ensures HeadOk(Without(L, h), k)
  {
  }

  lemma PlaceInside(fat: seq<nat>, limit: nat, L: Layout, c: nat)
    requires c in L.places && limit <= |fat| && PlaceOk(fat, limit, L, c)
    ensures 2 <= c < limit
  {
  }

  /** The clusters of a chain are those placed on it. */
  lemma PlacedHere(fat: seq<nat>, limit: nat, L: Layout, h: nat, c: nat)
    requires h in L.chains && HeadOk(L, h) && limit <= |fat| && (c in L.places ==> PlaceOk(fat, limit, L, c))
    ensures c in L.chains[h] <==> c in L.places && L.places[c].head == h
  {
  }

  lemma FreedPlace(fat: seq<nat>, fat': seq<nat>, limit: nat, L: Layout, h: nat, c: nat)
    requires c in L.places && limit <= |fat| == |fat'| && PlaceOk(fat, limit, L, c) && L.places[c].head != h
    requires fat'[c] == fat[c]
    ensures PlaceOk(fat', limit, Without(L, h), c)
  {
    assert L.places[c].head in Without(L, h).chains;
  }

  /** A finished chain over clusters that were free joins the others. */
  lemma ChainsAdded(fat: seq<nat>, fat': seq<nat>, limit: nat, L: Layout, ch: seq<nat>, ref: Ref)
    requires ChainsOk(fat, limit, L) && |fat'| == |fat|
    requires IsChain(fat', limit, ch)
    requires forall i :: 0 <= i < |ch| ==> fat[ch[i]] == 0
    requires forall c :: 2 <= c < limit && c !in ch ==> fat'[c] == fat[c]
    ensures ChainsOk(fat', limit, With(L, ch, ref))
  {
    var L' := With(L, ch, ref);
    forall k | k in L'.chains ensures HeadOk(L', k) {
      if k != ch[0] { assert HeadOk(L, k); AddedHead(L, ch, ref, k); }
    }
    forall c | c in L'.places ensures PlaceOk(fat', limit, L', c) {
      if c in ch { NewPlace(fat', limit, L, ch, ref, c); } else {
        assert PlaceOk(fat, limit, L, c) && HeadOk(L, L.places[c].head);
        AddedPlace(fat, fat', limit, L, ch, ref, c);
      }
    }
    forall c | 2 <= c < limit ensures fat'[c] != 0 <==> c in L'.places {
      if c in ch { NewPlace(fat', limit, L, ch, ref, c); }
    }
  }

  lemma NewPlace(fat: seq<nat>, limit: nat, L: Layout, ch: seq<nat>, ref: Ref, c: nat)
    requires IsChain(fat, limit, ch) && c in ch
    ensures c in With(L, ch, ref).places && PlaceOk(fat, limit, With(L, ch, ref), c) && fat[c] != 0
  {
    var i :| 0 <= i < |ch| && ch[i] == c;
    assert Placed(ch)[ch[i]] == Place(ch[0], i);
  }

  lemma AddedHead(L: Layout, ch: seq<nat>, ref: Ref, k: nat)
    requires ch != [] && Distinct(ch) && k in L.chains && k != ch[0] && HeadOk(L, k)
    requires forall i :: 0 <= i < |ch| ==> ch[i] !in L.places
    ensures HeadOk(With(L, ch, ref), k)
  {
  }

  lemma AddedPlace(fat: seq<nat>, fat': seq<nat>, limit: nat, L: Layout, ch: seq<nat>, ref: Ref, c: nat)
    requires ch != [] && Distinct(ch) && limit <= |fat| == |fat'|
    requires c in L.places && c !in ch && PlaceOk(fat, limit, L, c) && fat'[c] == fat[c]
    requires L.places[c].head != ch[0]
    ensures PlaceOk(fat', limit, With(L, ch, ref), c)
  {
  }

  /** Linking a free cluster behind the last one extends a chain by it. */
  lemma ChainsGrown(fat: seq<nat>, fat': seq<nat>, limit: nat, L: Layout, d: nat, c: nat)
    requires ChainsOk(fat, limit, L) && d in L.chains && 2 <= c < limit && fat[c] == 0
    requires |L.chains[d]| > 0
    requires var ch := L.chains[d]; |fat'| == |fat| && ch[|ch|-1] < |fat| && fat' == fat[c := EOC_MARK][ch[|ch|-1] := c]
    ensures ChainsOk(fat', limit, Grown(L, d, c))
  {
    var L' := Grown(L, d, c);
    assert HeadOk(L, d);
    forall k | k in L'.chains ensures HeadOk(L', k) { assert HeadOk(L, k); GrownHead(L, d, c, k); }
    forall x | x in L'.places ensures PlaceOk(fat', limit, L', x) {
      if x != c { assert PlaceOk(fat, limit, L, x); }
      GrownPlace(fat, limit, L, d, c, x);
    }
  }

  lemma GrownHead(L: Layout, d: nat, c: nat, k: nat)
    requires d in L.chains && k in L.chains && HeadOk(L, d) && HeadOk(L, k) && c !in L.places
    ensures HeadOk(Grown(L, d, c), k)
  {
  }

  lemma GrownPlace(fat: seq<nat>, limit: nat, L: Layout, d: nat, c: nat, x: nat)
    requires 2 <= c < limit <= |fat| && d in L.chains && HeadOk(L, d) && c !in L.places
    requires x == c || (x in L.places && PlaceOk(fat, limit, L, x))
    requires var ch := L.chains[d]; ch[|ch|-1] < |fat|
    ensures var ch := L.chains[d]; PlaceOk(fat[c := EOC_MARK][ch[|ch|-1] := c], limit, Grown(L, d, c), x)
  {
  }

  // ---------------------------------------------------------------- the directories

  /**
   * What well-formedness sees of a directory slot. `dots` counts the dots of "." and
   * "..", else 0; `need` is the number of clusters a file of that size takes.
   */
  datatype Item = End | Deleted | Note | File(dots: nat, clus: nat, need: nat) | Folder(dots: nat, clus: nat)
  {
    predicate Live() { File? || Folder? }
    predicate Free() { End? || Deleted? }
  }

  type Items = seq<Item>

  const MAX_ITEMS: nat := 4096

  /** The slots of every directory, by first cluster. */
  type DirMap = map<nat, Items>

  function SetItem(D: DirMap, d: nat, s: nat, e: Item): DirMap
    requires d in D && s < |D[d]|
  {
    D[d := D[d][s := e]]
  }

  /** An entry that owns what it names: live, and not one of the two dot slots. */
  predicate Owned(D: DirMap, root: nat, d: nat, i: nat) {
    d in D && i < |D[d]| && D[d][i].Live() && (d == root || i >= 2)
  }

  ghost predicate EntryOk(D: DirMap, L: Layout, d: nat, i: nat)
    requires d in D && i < |D[d]| && D[d][i].Live()
  {
    var e := D[d][i];
    && e.dots == 0
    && if e.Folder? then
         e.clus in L.refs && L.refs[e.clus] == Ref(d, i) && e.clus in D && e.clus in L.depth && d in L.depth
         && L.depth[e.clus] == L.depth[d] + 1
       else if e.need == 0 then e.clus == 0
       else e.clus in L.refs && L.refs[e.clus] == Ref(d, i) && e.clus !in D && e.clus in L.chains
            && |L.chains[e.clus]| == e.need
  }

  /** A directory below the root starts with "." and ".."; the latter may be 0 when it means the root. */
  ghost predicate DotsOk(s: Items, d: nat, parent: nat, root: nat) {
    |s| >= 2 && s[0] == Folder(1, d) && (s[1] == Folder(2, parent) || (parent == root && s[1] == Folder(2, 0)))
  }

  /** Once a slot is an end mark, so are all that follow: what is written after it stays hidden. */
  ghost predicate TidyItems(s: Items) {
    forall i, j :: 0 <= i < j < |s| && s[i].End? ==> s[j].End?
  }

  ghost predicate DirOk(D: DirMap, L: Layout, root: nat, d: nat)
    requires d in D
  {
    && |D[d]| <= MAX_ITEMS && TidyItems(D[d])
    && (d != root ==> d in L.refs && DotsOk(D[d], d, L.refs[d].dir, root))
  }

  ghost predicate RefOk(D: DirMap, L: Layout, root: nat, h: nat)
    requires h in L.refs
  {
    var r := L.refs[h];
    && Owned(D, root, r.dir, r.slot)
    && D[r.dir][r.slot].clus == h
    && (D[r.dir][r.slot].Folder? <==> h in D)
    && (D[r.dir][r.slot].File? ==> D[r.dir][r.slot].need > 0)
  }

  ghost predicate Rooted(D: DirMap, L: Layout, root: nat) {
    && root in D && 0 !in L.chains
    && (forall k :: k in D <==> k in L.depth)
    && (forall k :: k in D ==> k in L.chains)
    && (forall k :: k in L.refs <==> k in L.chains && k != root)
  }

  ghost predicate DirsOk(D: DirMap, L: Layout, root: nat) { forall d :: d in D ==> DirOk(D, L, root, d) }

  ghost predicate EntriesOk(D: DirMap, L: Layout, root: nat) {
    forall d: nat, i: nat :: Owned(D, root, d, i) ==> EntryOk(D, L, d, i)
  }

  ghost predicate RefsOk(D: DirMap, L: Layout, root: nat) { forall h :: h in L.refs ==> RefOk(D, L, root, h) }

  ghost predicate TreeOk(D: DirMap, L: Layout, root: nat) {
    Rooted(D, L, root) && DirsOk(D, L, root) && EntriesOk(D, L, root) && RefsOk(D, L, root)
  }

  /** An entry stays right when its slot, what it names and its directory's depth do. */
  lemma EntryKept(D: DirMap, L: Layout, D': DirMap, L': Layout, d: nat, i: nat)
    requires d in D && d in D' && i < |D[d]| && i < |D'[d]| && D'[d][i] == D[d][i] && D[d][i].Live()
    requires EntryOk(D, L, d, i)
    requires d in L.depth ==> d in L'.depth && L'.depth[d] == L.depth[d]
    requires var c := D[d][i].clus;
             c in L.refs && L.refs[c] == Ref(d, i) ==>
               && c in L'.refs && L'.refs[c] == L.refs[c] && (c in D' <==> c in D)
               && (c in L.depth ==> c in L'.depth && L'.depth[c] == L.depth[c])
               && (c in L.chains && c !in D ==> c in L'.chains && L'.chains[c] == L.chains[c])
    ensures EntryOk(D', L', d, i)
  {
  }

  lemma RefKept(D: DirMap, L: Layout, D': DirMap, L': Layout, root: nat, h: nat)
    requires h in L.refs && h in L'.refs && L'.refs[h] == L.refs[h] && RefOk(D, L, root, h)
    requires var r := L.refs[h]; r.dir in D' && r.slot < |D'[r.dir]| && D'[r.dir][r.slot] == D[r.dir][r.slot]
    requires h in D <==> h in D'
    ensures RefOk(D', L', root, h)
  {
  }

  /** Slots other than (d, s) read as before; what is new at the end of a directory is an end mark. */
  ghost predicate SlotsKept(D: DirMap, D': DirMap, d: nat, s: nat) {
    forall k: nat, i: nat :: k in D && k in D' && i < |D'[k]| && (k != d || i != s) ==>
      if i < |D[k]| then D'[k][i] == D[k][i] else D'[k][i].End?
  }

  /** What the entries other than `gone`'s own is kept. */
  ghost predicate HeadsKept(D: DirMap, L: Layout, D': DirMap, L': Layout, gone: nat) {
    && (forall h :: h in L.refs && h != gone ==> h in L'.refs && L'.refs[h] == L.refs[h] && (h in D' <==> h in D))
    && (forall h :: h in L.depth && h != gone ==> h in L'.depth && L'.depth[h] == L.depth[h])
    && (forall h :: h in L.chains && h !in D && h != gone ==> h in L'.chains && L'.chains[h] == L.chains[h])
  }

  /** One slot changes, and what the other entries own is kept: they stay right. */
  lemma EntriesKept(D: DirMap, L: Layout, D': DirMap, L': Layout, root: nat, d: nat, s: nat, gone: nat)
    requires EntriesOk(D, L, root) && SlotsKept(D, D', d, s) && HeadsKept(D, L, D', L', gone)
    requires forall k: nat, i: nat :: Owned(D', root, k, i) && (k != d || i != s) ==> k in D
    requires gone in L.refs ==> L.refs[gone] == Ref(d, s)
    requires gone !in D'
    requires Owned(D', root, d, s) ==> EntryOk(D', L', d, s)
    ensures EntriesOk(D', L', root)
  {
    forall k: nat, i: nat | Owned(D', root, k, i) ensures EntryOk(D', L', k, i) {
      if k != d || i != s {
        assert Owned(D, root, k, i);
        assert EntryOk(D, L, k, i);
        EntryKept(D, L, D', L', k, i);
      }
    }
  }

  /** The same for what names each head. */
  lemma RefsKept(D: DirMap, L: Layout, D': DirMap, L': Layout, root: nat, d: nat, s: nat, added: nat)
    requires RefsOk(D, L, root) && SlotsKept(D, D', d, s)
    requires forall h :: h in L'.refs && h != added ==> h in L.refs && L'.refs[h] == L.refs[h] && (h in D' <==> h in D)
    requires forall h :: h in L'.refs && h != added ==>
               var r := L.refs[h]; r != Ref(d, s) && r.dir in D' && (r.dir in D ==> |D'[r.dir]| >= |D[r.dir]|)
    requires added in L'.refs ==> RefOk(D', L', root, added)
    ensures RefsOk(D', L', root)
  {
    forall h | h in L'.refs ensures RefOk(D', L', root, h) {
      if h != added {
        assert RefOk(D, L, root, h);
        RefKept(D, L, D', L', root, h);
      }
    }
  }

  // ---- deleting an entry and what it owns

  ghost predicate CanRemove(D: DirMap, L: Layout, root: nat, d: nat, s: nat) {
    && TreeOk(D, L, root) && Owned(D, root, d, s)
    && (D[d][s].Folder? ==> forall i: nat :: !Owned(D, root, D[d][s].clus, i))
  }

  ghost function Removed(D: DirMap, d: nat, s: nat): (r: DirMap)
    requires d in D && s < |D[d]| && D[d][s].Live()
    ensures forall k :: k in r <==> k in D && k != D[d][s].clus
    ensures forall k :: k in r ==> r[k] == if k == d then D[d][s := Deleted] else D[k]
    ensures SlotsKept(D, r, d, s)
  {
    SetItem(D, d, s, Deleted) - {D[d][s].clus}
  }

  lemma RemoveApart(D: DirMap, L: Layout, root: nat, d: nat, s: nat)
    requires CanRemove(D, L, root, d, s)
    ensures var h := D[d][s].clus; h != d && h != root && (h in L.refs ==> L.refs[h] == Ref(d, s))
    ensures D[d][s].clus == 0 || D[d][s].clus in L.chains
  {
    assert EntryOk(D, L, d, s);
  }

  lemma RemoveHeads(D: DirMap, L: Layout, d: nat, s: nat)
    requires d in D && s < |D[d]| && D[d][s].Live()
    ensures HeadsKept(D, L, Removed(D, d, s), Without(L, D[d][s].clus), D[d][s].clus)
  {
  }

  /** A slot that is not hidden takes an item that is no end mark. */
  lemma TidySet(x: Items, s: nat, e: Item)
    requires TidyItems(x) && s < |x| && !e.End? && (x[s].End? ==> forall i :: 0 <= i < s ==> !x[i].End?)
    ensures TidyItems(x[s := e])
  {
  }

  lemma DirKept(D: DirMap, L: Layout, D': DirMap, L': Layout, root: nat, k: nat)
    requires k in D && k in D' && DirOk(D, L, root, k) && (k in L.refs ==> k in L'.refs && L'.refs[k] == L.refs[k])
    requires TidyItems(D'[k]) && |D'[k]| == |D[k]|
    requires k != root ==> |D[k]| >= 2 ==> D'[k][0] == D[k][0] && D'[k][1] == D[k][1]
    ensures DirOk(D', L', root, k)
  {
  }

  lemma RemoveDirs(D: DirMap, L: Layout, root: nat, d: nat, s: nat)
    requires CanRemove(D, L, root, d, s)
    ensures DirsOk(Removed(D, d, s), Without(L, D[d][s].clus), root)
  {
    var D', L' := Removed(D, d, s), Without(L, D[d][s].clus);
    forall k | k in D' ensures DirOk(D', L', root, k) {
      assert DirOk(D, L, root, k);
      if k == d { TidySet(D[d], s, Deleted); }
      DirKept(D, L, D', L', root, k);
    }
  }

  lemma RemoveEntries(D: DirMap, L: Layout, root: nat, d: nat, s: nat)
    requires CanRemove(D, L, root, d, s)
    ensures EntriesOk(Removed(D, d, s), Without(L, D[d][s].clus), root)
  {
    RemoveApart(D, L, root, d, s);
    RemoveHeads(D, L, d, s);
    EntriesKept(D, L, Removed(D, d, s), Without(L, D[d][s].clus), root, d, s, D[d][s].clus);
  }

  lemma RemoveRefs(D: DirMap, L: Layout, root: nat, d: nat, s: nat)
    requires CanRemove(D, L, root, d, s)
    ensures RefsOk(Removed(D, d, s), Without(L, D[d][s].clus), root)
  {
    hide EntriesOk, DirsOk, SlotsKept, RefOk, RefsOk, Rooted;
    RemoveApart(D, L, root, d, s);
    NamedElsewhere(D, L, root, d, s);
    RefsLeft(D, L, root, d, s);
  }

  lemma RefsLeft(D: DirMap, L: Layout, root: nat, d: nat, s: nat)
    requires RefsOk(D, L, root) && d in D && s < |D[d]| && D[d][s].Live() && d != D[d][s].clus
    requires forall k :: k in L.refs && k != D[d][s].clus ==>
               L.refs[k] != Ref(d, s) && L.refs[k].dir != D[d][s].clus && L.refs[k].dir in D
    ensures RefsOk(Removed(D, d, s), Without(L, D[d][s].clus), root)
  {
    hide SlotsKept, RefOk, RefsOk;
    RefsKept(D, L, Removed(D, d, s), Without(L, D[d][s].clus), root, d, s, D[d][s].clus);
  }

  /** No other head is named by the entry at (d, s), or by an entry of the directory it names. */
  lemma NamedElsewhere(D: DirMap, L: Layout, root: nat, d: nat, s: nat)
    requires CanRemove(D, L, root, d, s)
    ensures forall k :: k in L.refs && k != D[d][s].clus ==>
              L.refs[k] != Ref(d, s) && L.refs[k].dir != D[d][s].clus && L.refs[k].dir in D
  {
    assert EntryOk(D, L, d, s);
    forall k | k in L.refs && k != D[d][s].clus
      ensures L.refs[k] != Ref(d, s) && L.refs[k].dir != D[d][s].clus && L.refs[k].dir in D
    {
      assert RefOk(D, L, root, k);
    }
  }

  /** Deleting an entry, of a file or of a directory without entries of its own, and what it owns. */
  lemma TreeRemove(D: DirMap, L: Layout, root: nat, d: nat, s: nat)
    requires CanRemove(D, L, root, d, s)
    ensures TreeOk(Removed(D, d, s), Without(L, D[d][s].clus), root)
  {
    RemoveApart(D, L, root, d, s);
    RemoveDirs(D, L, root, d, s);
    RemoveEntries(D, L, root, d, s);
    RemoveRefs(D, L, root, d, s);
  }

  // ---- a new entry in a free slot before which no slot is an end mark

  ghost predicate CanAdd(D: DirMap, L: Layout, root: nat, d: nat, s: nat) {
    && TreeOk(D, L, root) && d in D && s < |D[d]| && D[d][s].Free()
    && forall i :: 0 <= i < s ==> !D[d][i].End?
  }

  ghost function Added(D: DirMap, d: nat, s: nat, e: Item): (r: DirMap)
    requires d in D && s < |D[d]|
    ensures forall k :: k in r <==> k in D
    ensures forall k :: k in D ==> r[k] == if k == d then D[d][s := e] else D[k]
    ensures SlotsKept(D, r, d, s)
  {
    SetItem(D, d, s, e)
  }

  /** `D` with the slots of a new directory. */
  ghost function WithSlots(D: DirMap, c: nat, slots: Items): (r: DirMap)
    ensures forall k :: k in r <==> k in D || k == c
    ensures forall k :: k in r ==> r[k] == if k == c then slots else D[k]
  {
    D[c := slots]
  }

  lemma AddDirs(D: DirMap, L: Layout, L': Layout, root: nat, d: nat, s: nat, e: Item)
    requires CanAdd(D, L, root, d, s) && e.Live()
    requires forall k :: k in L.refs ==> k in L'.refs && L'.refs[k] == L.refs[k]
    ensures DirsOk(Added(D, d, s, e), L', root)
    ensures d != root ==> s >= 2
  {
    var D' := Added(D, d, s, e);
    assert DirOk(D, L, root, d);
    forall k | k in D' ensures DirOk(D', L', root, k) {
      assert DirOk(D, L, root, k);
      if k == d { TidySet(D[d], s, e); }
      DirKept(D, L, D', L', root, k);
    }
  }

  /** `L'` is `L` with one more head, named by `ref`; none if `h` is 0. */
  ghost predicate Extends(L: Layout, L': Layout, h: nat, ref: Ref) {
    && (forall k :: k in L'.chains <==> k in L.chains || (h != 0 && k == h))
    && (forall k :: k in L'.refs <==> k in L.refs || (h != 0 && k == h))
    && (forall k :: k in L.chains && k != h ==> L'.chains[k] == L.chains[k])
    && (forall k :: k in L.refs && k != h ==> L'.refs[k] == L.refs[k])
    && (h != 0 ==> L'.refs[h] == ref)
  }

  /** The same directories of the same lengths, but for a new one at `h`. */
  ghost predicate SameDirs(D: DirMap, D': DirMap, h: nat) {
    && (forall k :: k in D ==> k in D' && |D'[k]| == |D[k]|)
    && (forall k :: k in D' ==> k in D || k == h)
  }

  lemma AddRefs(D: DirMap, L: Layout, D': DirMap, L': Layout, root: nat, d: nat, s: nat, h: nat)
    requires CanAdd(D, L, root, d, s) && SlotsKept(D, D', d, s) && SameDirs(D, D', h) && Extends(L, L', h, Ref(d, s))
    requires h != 0 ==> RefOk(D', L', root, h)
    ensures RefsOk(D', L', root)
  {
    forall k | k in L.refs ensures L.refs[k] != Ref(d, s) && L.refs[k].dir in D {
      assert RefOk(D, L, root, k);
    }
    hide RefOk, RefsOk, SlotsKept, DirsOk, EntriesOk;
    RefsKept(D, L, D', L', root, d, s, h);
  }

  ghost function Joined(L: Layout, ch: seq<nat>, ref: Ref): Layout
    requires Distinct(ch)
  {
    if ch == [] then L else With(L, ch, ref)
  }

  lemma JoinedExtends(L: Layout, ch: seq<nat>, ref: Ref)
    requires Distinct(ch) && (ch != [] ==> ch[0] > 0)
    ensures Extends(L, Joined(L, ch, ref), if ch == [] then 0 else ch[0], ref)
    ensures Joined(L, ch, ref).depth == L.depth
    ensures ch != [] ==> Joined(L, ch, ref).chains[ch[0]] == ch
  {
  }

  /** A file entry naming chain `ch`, or none if empty. */
  lemma TreeAddFile(D: DirMap, L: Layout, root: nat, d: nat, s: nat, e: Item, ch: seq<nat>)
    requires CanAdd(D, L, root, d, s)
    requires e.File? && e.dots == 0 && |ch| == e.need && Distinct(ch)
    requires e.clus == if ch == [] then 0 else ch[0]
    requires ch != [] ==> ch[0] > 0 && ch[0] !in L.chains
    ensures TreeOk(Added(D, d, s, e), Joined(L, ch, Ref(d, s)), root)
  {
    JoinedExtends(L, ch, Ref(d, s));
    AddFileTree(D, L, Joined(L, ch, Ref(d, s)), root, d, s, e);
  }

  lemma AddFileTree(D: DirMap, L: Layout, L': Layout, root: nat, d: nat, s: nat, e: Item)
    requires CanAdd(D, L, root, d, s) && e.File? && e.dots == 0
    requires Extends(L, L', e.clus, Ref(d, s)) && L'.depth == L.depth
    requires if e.need == 0 then e.clus == 0 else e.clus != 0 && e.clus !in L.chains && |L'.chains[e.clus]| == e.need
    ensures TreeOk(Added(D, d, s, e), L', root)
  {
    AddDirs(D, L, L', root, d, s, e);
    AddFileEntries(D, L, L', root, d, s, e);
    AddFileRefs(D, L, L', root, d, s, e);
  }

  lemma AddFileEntries(D: DirMap, L: Layout, L': Layout, root: nat, d: nat, s: nat, e: Item)
    requires CanAdd(D, L, root, d, s) && e.File? && e.dots == 0
    requires Extends(L, L', e.clus, Ref(d, s)) && L'.depth == L.depth
    requires if e.need == 0 then e.clus == 0 else e.clus != 0 && e.clus !in L.chains && |L'.chains[e.clus]| == e.need
    ensures EntriesOk(Added(D, d, s, e), L', root)
  {
    EntriesKept(D, L, Added(D, d, s, e), L', root, d, s, 0);
  }

  lemma AddFileRefs(D: DirMap, L: Layout, L': Layout, root: nat, d: nat, s: nat, e: Item)
    requires CanAdd(D, L, root, d, s) && e.File? && (d != root ==> s >= 2)
    requires Extends(L, L', e.clus, Ref(d, s))
    requires if e.need == 0 then e.clus == 0 else e.clus != 0 && e.clus !in D
    ensures RefsOk(Added(D, d, s, e), L', root)
  {
    hide TreeOk, RefsOk, RefOk, SlotsKept;
    var D' := Added(D, d, s, e);
    if e.clus != 0 { NewRef(D', L', root, d, s, e.clus); }
    hide CanAdd, Extends;
    AddRefs(D, L, D', L', root, d, s, e.clus);
  }

  lemma NewRef(D: DirMap, L: Layout, root: nat, d: nat, s: nat, h: nat)
    requires Owned(D, root, d, s) && D[d][s].clus == h && (D[d][s].Folder? <==> h in D)
    requires D[d][s].File? ==> D[d][s].need > 0
    requires h in L.refs && L.refs[h] == Ref(d, s)
    ensures RefOk(D, L, root, h)
  {
  }

  ghost predicate Deepens(L: Layout, L': Layout, d: nat, c: nat) {
    d in L.depth ==>
      && (forall k :: k in L'.depth <==> k in L.depth || k == c)
      && (forall k :: k in L.depth && k != c ==> L'.depth[k] == L.depth[k])
      && L'.depth[c] == L.depth[d] + 1
  }

  lemma AddDirTree(D: DirMap, L: Layout, L': Layout, root: nat, d: nat, s: nat, c: nat, slots: Items)
    requires CanAdd(D, L, root, d, s) && c > 0 && c !in L.chains
    requires Extends(L, L', c, Ref(d, s)) && Deepens(L, L', d, c)
    requires |slots| <= MAX_ITEMS && DotsOk(slots, c, d, root) && forall i :: 2 <= i < |slots| ==> slots[i].End?
    ensures TreeOk(WithSlots(Added(D, d, s, Folder(0, c)), c, slots), L', root)
  {
    AddDirs(D, L, L', root, d, s, Folder(0, c));
    WithSlotsDirs(Added(D, d, s, Folder(0, c)), L', root, c, slots, d);
    AddDirEntries(D, L, L', root, d, s, c, slots);
    AddDirRefs(D, L, L', root, d, s, c, slots);
  }

  lemma WithSlotsDirs(D: DirMap, L: Layout, root: nat, c: nat, slots: Items, d: nat)
    requires DirsOk(D, L, root) && c in L.refs && L.refs[c].dir == d
    requires |slots| <= MAX_ITEMS && DotsOk(slots, c, d, root) && forall i :: 2 <= i < |slots| ==> slots[i].End?
    ensures DirsOk(WithSlots(D, c, slots), L, root)
  {
    var D' := WithSlots(D, c, slots);
    forall k | k in D' ensures DirOk(D', L, root, k) {
      if k != c { assert DirOk(D, L, root, k); }
    }
  }

  lemma AddDirRefs(D: DirMap, L: Layout, L': Layout, root: nat, d: nat, s: nat, c: nat, slots: Items)
    requires CanAdd(D, L, root, d, s) && c > 0 && c !in D && (d != root ==> s >= 2)
    requires Extends(L, L', c, Ref(d, s))
    ensures RefsOk(WithSlots(Added(D, d, s, Folder(0, c)), c, slots), L', root)
  {
    hide TreeOk, RefsOk, RefOk;
    var D1 := Added(D, d, s, Folder(0, c));
    var D' := WithSlots(D1, c, slots);
    NewRef(D', L', root, d, s, c);
    assert SlotsKept(D, D', d, s);
    hide CanAdd, Extends, SlotsKept;
    AddRefs(D, L, D', L', root, d, s, c);
  }

  lemma AddDirEntries(D: DirMap, L: Layout, L': Layout, root: nat, d: nat, s: nat, c: nat, slots: Items)
    requires CanAdd(D, L, root, d, s) && c > 0 && c !in L.chains
    requires Extends(L, L', c, Ref(d, s)) && Deepens(L, L', d, c)
    requires forall i :: 2 <= i < |slots| ==> slots[i].End?
    ensures EntriesOk(WithSlots(Added(D, d, s, Folder(0, c)), c, slots), L', root)
  {
    hide RefsOk, DirsOk, EntriesOk, SlotsKept;
    EntriesKept(D, L, WithSlots(Added(D, d, s, Folder(0, c)), c, slots), L', root, d, s, 0);
  }

  /** Zeroed slots at the end of a directory. */
  lemma TreeGrow(D: DirMap, L: Layout, root: nat, d: nat, c: nat, more: Items)
    requires TreeOk(D, L, root) && d in D && c !in L.chains
    requires |D[d]| + |more| <= MAX_ITEMS && forall i :: 0 <= i < |more| ==> more[i].End?
    ensures TreeOk(WithSlots(D, d, D[d] + more), Grown(L, d, c), root)
  {
    GrowDirs(D, L, Grown(L, d, c), root, d, more);
    GrowEntries(D, L, Grown(L, d, c), root, d, more);
    GrowRefs(D, L, Grown(L, d, c), root, d, more);
  }

  lemma GrowDirs(D: DirMap, L: Layout, L': Layout, root: nat, d: nat, more: Items)
    requires TreeOk(D, L, root) && d in D && L'.refs == L.refs
    requires |D[d]| + |more| <= MAX_ITEMS && forall i :: 0 <= i < |more| ==> more[i].End?
    ensures DirsOk(WithSlots(D, d, D[d] + more), L', root)
  {
    var D' := WithSlots(D, d, D[d] + more);
    forall k | k in D' ensures DirOk(D', L', root, k) { assert DirOk(D, L, root, k); }
  }

  lemma GrowEntries(D: DirMap, L: Layout, L': Layout, root: nat, d: nat, more: Items)
    requires TreeOk(D, L, root) && d in D && L'.refs == L.refs && L'.depth == L.depth
    requires forall i :: 0 <= i < |more| ==> more[i].End?
    requires forall k :: k in L.chains && k != d ==> k in L'.chains && L'.chains[k] == L.chains[k]
    ensures EntriesOk(WithSlots(D, d, D[d] + more), L', root)
  {
    EntriesKept(D, L, WithSlots(D, d, D[d] + more), L', root, d, |D[d] + more|, 0);
  }

  lemma GrowRefs(D: DirMap, L: Layout, L': Layout, root: nat, d: nat, more: Items)
    requires TreeOk(D, L, root) && d in D && L'.refs == L.refs
    requires forall i :: 0 <= i < |more| ==> more[i].End?
    ensures RefsOk(WithSlots(D, d, D[d] + more), L', root)
  {
    forall k | k in L.refs
      ensures L.refs[k] != Ref(d, |D[d] + more|) && L.refs[k].dir in D { assert RefOk(D, L, root, k); }
    RefsKept(D, L, WithSlots(D, d, D[d] + more), L', root, d, |D[d] + more|, 0);
  }
}
