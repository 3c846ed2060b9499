/**
 * What a failed call leaves: clusters that were taken and that no entry names, or an entry whose file
 * was freed before its clusters were found too few (kernel/src/fat.c:887-990).
 */
module Leaks {
  import opened Options
  import opened Bytes
  import opened Names
  import opened Chains
  import opened Dirs
  import opened Trees
  import opened Wellformed
  import opened Ops
  import opened Paths
  import opened Mending
  import opened DotPaths

  /** Every directory has the clusters it had. */
  ghost predicate DirsAsWere(v: Vol, z: Vol) {
    |z.fat| == |v.fat| && forall k :: k in v.L.depth ==> k in v.L.chains && ChainAlone(v, z, k)
  }

  // ---------------------------------------------------------------- one layout, up to names

  /** A directory under another layout is one of those there were. */
  lemma {:induction false} WasNamed(v: Vol, z: Vol, T: Layout, limit: nat, root: nat, per: nat, k: nat)
    requires Sound(v, limit, root, per) && PerOk(per) && DirsAsWere(v, z)
    requires Sound(z.(L := T), limit, root, per) && k in T.depth
    ensures k in v.L.depth
    decreases T.depth[k]
  {
    hide ChainsOk, DirSlots, TreeOk, DirItems, Dotted, EntClus, EntSize, NumClus, View, Sized;
    var D, E := DirItems(v.data, v.L, per), DirItems(z.data, T, per);
    RootIsThere(D, v.L, root);
    if k != root {
      NamedBelow(E, T, root, k);
      OwnRef(E, T, root, k);
      var r := T.refs[k];
      WasNamed(v, z, T, limit, root, per, r.dir);
      SameUnder(v, z, T, limit, per, r.dir);
      assert E[r.dir] == D[r.dir];
      StillThere(D, v.L, root, r.dir, r.slot, k);
    }
  }

  /** So the directories and their entries are the same under every layout. */
  lemma SameItems(v: Vol, z: Vol, T: Layout, limit: nat, root: nat, per: nat)
    requires Sound(v, limit, root, per) && PerOk(per) && DirsAsWere(v, z) && Sound(z.(L := T), limit, root, per)
    ensures DirItems(z.data, T, per) == DirItems(v.data, v.L, per)
  {
    hide ChainsOk, DirSlots, TreeOk, View;
    var D, E := DirItems(v.data, v.L, per), DirItems(z.data, T, per);
    forall k | k in v.L.depth ensures k in T.depth { StillNamed(v, z, T, limit, root, per, k, k); }
    forall k | k in T.depth ensures k in v.L.depth { WasNamed(v, z, T, limit, root, per, k); }
    forall k | k in v.L.depth ensures E[k] == D[k] { SameUnder(v, z, T, limit, per, k); }
  }

  /** And so are the heads of the chains. */
  lemma SameHeads(D: DirMap, L: Layout, T: Layout, root: nat, h: nat)
    requires TreeOk(D, L, root) && TreeOk(D, T, root) && h in T.chains
    ensures h in L.chains
  {
    hide DirsOk;
    if h != root {
      assert RefOk(D, T, root, h);
      var r := T.refs[h];
      assert EntryOk(D, L, r.dir, r.slot);
    }
  }

  /** A chain that was left alone is the same under every layout. */
  lemma SameChains2(v: Vol, z: Vol, T: Layout, limit: nat, k: nat)
    requires ChainsOk(v.fat, limit, v.L) && ChainsOk(z.fat, limit, T) && k in v.L.chains && k in T.chains
        && ChainAlone(v, z, k)
    ensures T.chains[k] == v.L.chains[k]
  {
    hide ChainsOk;
    ChainsAreChains(v.fat, limit, v.L, k);
    ChainsAreChains(z.fat, limit, T, k);
    HeadIs(v.fat, limit, v.L, k);
    HeadIs(z.fat, limit, T, k);
    assert IsChain(z.fat, limit, v.L.chains[k]);
    SameHead(z.fat, limit, T.chains[k], v.L.chains[k]);
  }

  /** A cluster in use lies on a chain. */
  lemma OnChain(fat: seq<nat>, limit: nat, T: Layout, c: nat) returns (k: nat)
    requires ChainsOk(fat, limit, T) && 2 <= c < limit && fat[c] != 0
    ensures k in T.chains && c in T.chains[k]
  {
    assert PlaceOk(fat, limit, T, c);
    k := T.places[c].head;
  }

  /** Chains of one layout share no cluster. */
  lemma OneChain(fat: seq<nat>, limit: nat, T: Layout, a: nat, b: nat, c: nat)
    requires ChainsOk(fat, limit, T) && a in T.chains && b in T.chains && c in T.chains[a] && c in T.chains[b]
    ensures a == b
  {
    assert HeadOk(T, a) && HeadOk(T, b);
  }

  lemma HeadThere(fat: seq<nat>, limit: nat, T: Layout, h: nat)
    requires ChainsOk(fat, limit, T) && h in T.chains
    ensures 2 <= h < limit <= |fat| && fat[h] != 0 && h in T.chains[h]
  {
    assert HeadOk(T, h);
    assert PlaceOk(fat, limit, T, h);
  }

  lemma KeptTwiceAll(v: Vol, w: Vol, z: Vol, gone: nat)
    requires AllKept(v, w, gone) && AllKept(w, z, 0) && 0 !in v.L.chains
    ensures AllKept(v, z, gone)
  {
    forall h | h in v.L.chains && h != gone ensures SameChain(v.fat, v.data, v.L, z.fat, z.data, z.L, h) {
      assert SameChain(v.fat, v.data, v.L, w.fat, w.data, w.L, h);
      assert SameChain(w.fat, w.data, w.L, z.fat, z.data, z.L, h);
    }
  }

  // ---------------------------------------------------------------- when a failed call has done no harm

  /** What makes a failing fat_write harmless: it takes nothing, or it makes an old chain anew. */
  ghost predicate WriteSpared(v: Vol, hint: nat, limit: nat, root: nat, per: nat, p: seq<Name>, need: nat)
    requires Fine(v, limit, per)
  {
    var S := TreeOf(v, per);
    p != [] && Parent(S, root, p).Some? && Parent(S, root, p).value in S ==>
      var s := S[Parent(S, root, p).value];
      match Find(s, Last(p))
      case Some(i) => IsDir(s[i]) || OverSpared(v, hint, limit, EntClus(s[i]))
      case None => need == 0 || |FreeSet(v.fat, limit)| == 0
  }

  /**
   * The clusters that the write can use are as many as the file had, and of these the file's first is
   * the one that the search comes to first.
   */
  ghost predicate OverSpared(v: Vol, hint: nat, limit: nat, h: nat)
    requires limit <= |v.fat|
  {
    if h == 0 then |FreeSet(v.fat, limit)| == 0
    else
      && h in v.L.chains && |Reusable(v.fat, limit, v.L, h)| == |v.L.chains[h]|
      && NextOf(Reusable(v.fat, limit, v.L, h), hint, limit, h)
  }

  /** After fat_mkdir failed: no cluster was taken. */
  ghost predicate MakeSpared(v: Vol, limit: nat, root: nat, per: nat, p: seq<Name>)
    requires Fine(v, limit, per)
  {
    var S := TreeOf(v, per);
    p != [] && Parent(S, root, p).Some? && Parent(S, root, p).value in S ==>
      Find(S[Parent(S, root, p).value], Last(p)).Some? || |FreeSet(v.fat, limit)| == 0
  }

  /** What is met where the last component is looked up. */
  lemma SparedMeets(v: Vol, hint: nat, limit: nat, root: nat, per: nat, p: seq<Name>, need: nat, dir: nat)
    requires Fine(v, limit, per) && p != [] && Parent(TreeOf(v, per), root, p) == Some(dir) && dir in TreeOf(v, per)
    ensures var s := TreeOf(v, per)[dir];
            match Find(s, Last(p))
            case Some(i) =>
              && (WriteSpared(v, hint, limit, root, per, p, need) <==>
                   IsDir(s[i]) || OverSpared(v, hint, limit, EntClus(s[i])))
              && MakeSpared(v, limit, root, per, p)
            case None =>
              && (WriteSpared(v, hint, limit, root, per, p, need) <==> need == 0 || |FreeSet(v.fat, limit)| == 0)
              && (MakeSpared(v, limit, root, per, p) <==> |FreeSet(v.fat, limit)| == 0)
  {
    hide ChainsOk, DataShape, Fits, FindFrom, Walk, IsDir, EntClus, FreeSet, AllSlots, OverSpared;
  }

  lemma SparedMisses(v: Vol, hint: nat, limit: nat, root: nat, per: nat, p: seq<Name>, need: nat)
    requires Fine(v, limit, per) && (p == [] || Parent(TreeOf(v, per), root, p) == None)
    ensures WriteSpared(v, hint, limit, root, per, p, need) && MakeSpared(v, limit, root, per, p)
  {
    hide ChainsOk, DataShape, Fits, FindFrom, Walk, IsDir, EntClus, FreeSet, AllSlots;
  }

  /** What is left of a failed overwrite is a chain of all that could be used. */
  lemma OverSparedIs(v: Vol, free: seq<nat>, hint: nat, limit: nat, h: nat, ch: seq<nat>)
    requires limit <= |v.fat| && limit <= |free| && h != 0 && h in v.L.chains
    requires FreeSet(free, limit) == Reusable(v.fat, limit, v.L, h) && StartsAt(free, hint, limit, ch)
        && |ch| == |FreeSet(free, limit)|
    ensures OverSpared(v, hint, limit, h) <==> ch != [] && ch[0] == h && |ch| == |v.L.chains[h]|
  {
    hide FreeSet, Reusable, StartsAt, NextOf;
    StartsNext(free, hint, limit, ch, h);
  }

  // ---------------------------------------------------------------- clusters without a name

  /** Clusters kept aside and never named: no layout mends that. */
  lemma LeakSpoils(v: Vol, z: Vol, limit: nat, root: nat, per: nat, ch: seq<nat>, ref: Ref)
    requires Sound(v, limit, root, per) && PerOk(per) && Fine(z, limit, per) && |z.fat| == |v.fat| && AllKept(v, z, 0)
    requires Distinct(ch) && ch != [] && ch[0] !in v.L.chains && z.L == Joined(v.L, ch, ref)
    ensures !Mendable(z, limit, root, per)
  {
    hide ChainsOk, DirSlots, TreeOk, DirItems, Sized, SameChain, DataShape;
    HeadsPositive(v.fat, limit, v.L);
    AllAlone(v, z, 0);
    forall T: Layout ensures !Sound(z.(L := T), limit, root, per) {
      if Sound(z.(L := T), limit, root, per) {
        SameItems(v, z, T, limit, root, per);
        JoinedHead(v.L, ch, ref);
        HeadThere(z.fat, limit, z.L, ch[0]);
        var k := OnChain(z.fat, limit, T, ch[0]);
        SameHeads(DirItems(v.data, v.L, per), v.L, T, root, k);
        SameChains2(v, z, T, limit, k);
        assert SameChain(v.fat, v.data, v.L, z.fat, z.data, z.L, k);
        KeptChain(v, z, k);
        OneChain(z.fat, limit, z.L, k, ch[0], ch[0]);
        assert false;
      }
    }
  }

  lemma JoinedHead(L: Layout, ch: seq<nat>, ref: Ref)
    requires Distinct(ch) && ch != []
    ensures ch[0] in Joined(L, ch, ref).chains && Joined(L, ch, ref).chains[ch[0]] == ch
  {
  }

  lemma KeptChain(v: Vol, z: Vol, k: nat)
    requires SameChain(v.fat, v.data, v.L, z.fat, z.data, z.L, k)
    ensures k in z.L.chains && z.L.chains[k] == v.L.chains[k]
  {
  }

  /** Every chain but one, of a file, is as it was. */
  lemma AllAlone(v: Vol, z: Vol, gone: nat)
    requires AllKept(v, z, gone) && gone !in v.L.depth && |z.fat| == |v.fat|
        && forall d :: d in v.L.depth ==> d in v.L.chains
    ensures DirsAsWere(v, z) && forall k :: k in v.L.chains && k != gone ==> ChainAlone(v, z, k)
  {
    forall k | k in v.L.chains && k != gone ensures ChainAlone(v, z, k) {
      assert SameChain(v.fat, v.data, v.L, z.fat, z.data, z.L, k);
    }
  }

  // ---------------------------------------------------------------- a file freed, and no room for the new one

  /**
   * The entry still names cluster `h` with its old size, while the chain behind it was freed and all
   * free clusters went into chain `ch`: the volume can be mended exactly if that chain starts at `h`
   * again and is as long as the old one.
   */
  lemma OverExact(v: Vol, z: Vol, limit: nat, root: nat, per: nat, dir: nat, slot: nat, h: nat, ch: seq<nat>)
    requires Sound(v, limit, root, per) && PerOk(per) && Fine(z, limit, per) && |z.fat| == |v.fat| && AllKept(v, z, h)
    requires h in v.L.chains && h !in v.L.depth && h != root && v.L.refs[h] == Ref(dir, slot)
    requires Distinct(ch) && z.L == Joined(Dropped(v.L, h), ch, Ref(dir, slot)) && z.L.depth == v.L.depth
    requires DirItems(z.data, z.L, per) == DirItems(v.data, v.L, per) && (ch != [] ==> ch[0] !in Dropped(v.L, h).chains)
    ensures Mendable(z, limit, root, per) <==> ch != [] && ch[0] == h && |ch| == |v.L.chains[h]|
  {
    hide ChainsOk, DirSlots, TreeOk, DirItems, Sized, SameChain, DataShape, Dropped, Joined;
    AllAlone(v, z, h);
    if ch != [] && ch[0] == h && |ch| == |v.L.chains[h]| {
      RefilledTree(DirItems(v.data, v.L, per), v.L, z.L, root, dir, slot, h, ch);
      SoundMends(z, limit, root, per);
    }
    forall T: Layout | Sound(z.(L := T), limit, root, per)
      ensures ch != [] && ch[0] == h && |ch| == |v.L.chains[h]| {
      OverHead(v, z, T, limit, root, per, dir, slot, h, ch);
    }
  }

  /** Another chain for a file, of the same head and length. */
  ghost predicate Refilled(L: Layout, L': Layout, h: nat) {
    && h in L.chains && h !in L.depth && h in L'.chains && |L'.chains[h]| == |L.chains[h]|
    && L'.refs == L.refs && L'.depth == L.depth && (forall k :: k in L'.chains <==> k in L.chains)
    && forall k :: k in L.chains && k != h ==> L'.chains[k] == L.chains[k]
  }

  lemma RefilledEntries(D: DirMap, L: Layout, L': Layout, root: nat, h: nat)
    requires EntriesOk(D, L, root) && Refilled(L, L', h)
    ensures EntriesOk(D, L', root)
  {
    forall d: nat, i: nat | Owned(D, root, d, i) ensures EntryOk(D, L', d, i) { assert EntryOk(D, L, d, i); }
  }

  lemma RefilledRest(D: DirMap, L: Layout, L': Layout, root: nat, h: nat)
    requires Rooted(D, L, root) && DirsOk(D, L, root) && RefsOk(D, L, root) && Refilled(L, L', h)
    ensures Rooted(D, L', root) && DirsOk(D, L', root) && RefsOk(D, L', root)
  {
    forall k | k in L'.refs ensures RefOk(D, L', root, k) { assert RefOk(D, L, root, k); }
    forall d | d in D ensures DirOk(D, L', root, d) { assert DirOk(D, L, root, d); }
  }

  /** The file's chain replaced by one of the same head and length. */
  lemma RefilledTree(D: DirMap, L: Layout, L': Layout, root: nat, dir: nat, slot: nat, h: nat, ch: seq<nat>)
    requires TreeOk(D, L, root) && h in L.chains && h !in L.depth && h != root && L.refs[h] == Ref(dir, slot)
    requires Distinct(ch) && ch != [] && ch[0] == h && |ch| == |L.chains[h]|
        && L' == Joined(Dropped(L, h), ch, Ref(dir, slot))
    ensures TreeOk(D, L', root)
  {
    RefilledIs(L, L', dir, slot, h, ch);
    hide Dropped, Joined, EntriesOk, DirsOk, RefsOk, Rooted;
    RefilledEntries(D, L, L', root, h);
    RefilledRest(D, L, L', root, h);
  }

  lemma RefilledIs(L: Layout, L': Layout, dir: nat, slot: nat, h: nat, ch: seq<nat>)
    requires h in L.chains && h in L.refs && L.refs[h] == Ref(dir, slot) && h !in L.depth
    requires Distinct(ch) && ch != [] && ch[0] == h && L' == Joined(Dropped(L, h), ch, Ref(dir, slot))
    ensures L'.chains == L.chains[h := ch] && L'.refs == L.refs && L'.depth == L.depth
  {
  }

  /** Under any layout the entry owns a chain of the old length that starts at `h`. */
  lemma OverHead(v: Vol, z: Vol, T: Layout, limit: nat, root: nat, per: nat, dir: nat, slot: nat, h: nat, ch: seq<nat>)
    requires Sound(v, limit, root, per) && PerOk(per) && Fine(z, limit, per) && DirsAsWere(v, z)
    requires forall k :: k in v.L.chains && k != h ==> ChainAlone(v, z, k)
    requires h in v.L.chains && h !in v.L.depth && h != root && v.L.refs[h] == Ref(dir, slot)
    requires Distinct(ch) && z.L == Joined(Dropped(v.L, h), ch, Ref(dir, slot))
    requires Sound(z.(L := T), limit, root, per) && (ch != [] ==> ch[0] !in Dropped(v.L, h).chains)
    ensures ch != [] && ch[0] == h && |ch| == |v.L.chains[h]|
  {
    hide ChainsOk, DirSlots, TreeOk, DirItems, Sized, SameChain, DataShape, Dropped, Joined, ChainAlone;
    SameItems(v, z, T, limit, root, per);
    SameNeed(DirItems(v.data, v.L, per), v.L, T, root, dir, slot, h);
    HeadThere(z.fat, limit, T, h);
    var q := OnChain(z.fat, limit, z.L, h);
    HeadThere(v.fat, limit, v.L, h);
    OldHeads(v.L, h, ch, Ref(dir, slot), q);
    if ch == [] || q != ch[0] {
      OneChain(v.fat, limit, v.L, q, h, h);
      assert false;
    }
    JoinedHead(Dropped(v.L, h), ch, Ref(dir, slot));
    HeadThere(z.fat, limit, z.L, ch[0]);
    var k := OnChain(z.fat, limit, T, ch[0]);
    SameHeads(DirItems(v.data, v.L, per), v.L, T, root, k);
    if k != h {
      SameChains2(v, z, T, limit, k);
      OldHeads(v.L, h, ch, Ref(dir, slot), k);
      OneChain(z.fat, limit, z.L, k, ch[0], ch[0]);
      assert false;
    }
    Suffix(z, T, limit, h, ch);
  }

  /** The chains after the file was dropped and `ch` joined. */
  lemma OldHeads(L: Layout, h: nat, ch: seq<nat>, ref: Ref, k: nat)
    requires Distinct(ch) && (ch != [] ==> ch[0] !in Dropped(L, h).chains)
    ensures k in Joined(Dropped(L, h), ch, ref).chains && (ch == [] || k != ch[0]) ==>
              k in L.chains && k != h && Joined(Dropped(L, h), ch, ref).chains[k] == L.chains[k]
    ensures k in L.chains && k != h ==>
              k in Joined(Dropped(L, h), ch, ref).chains && Joined(Dropped(L, h), ch, ref).chains[k] == L.chains[k]
                && (ch != [] ==> k != ch[0])
  {
  }

  /** The entry that owns the file needs as many clusters under either layout. */
  lemma SameNeed(D: DirMap, L: Layout, T: Layout, root: nat, dir: nat, slot: nat, h: nat)
    requires TreeOk(D, L, root) && TreeOk(D, T, root) && h in L.chains && h !in L.depth && h != root
        && L.refs[h] == Ref(dir, slot)
    ensures h in T.chains && |T.chains[h]| == |L.chains[h]|
  {
    hide DirsOk;
    assert RefOk(D, L, root, h);
    assert EntryOk(D, L, dir, slot) && EntryOk(D, T, dir, slot);
  }

  /** A chain from `h` that comes by the head of `ch`, where `ch` comes by `h`: the same chain. */
  lemma Suffix(z: Vol, T: Layout, limit: nat, h: nat, ch: seq<nat>)
    requires ChainsOk(z.fat, limit, z.L) && ChainsOk(z.fat, limit, T) && h in T.chains && ch != []
    requires ch[0] in z.L.chains && z.L.chains[ch[0]] == ch && h in ch && ch[0] in T.chains[h]
    ensures ch[0] == h && T.chains[h] == ch
  {
    hide ChainsOk;
    ChainsAreChains(z.fat, limit, z.L, ch[0]);
    ChainsAreChains(z.fat, limit, T, h);
    HeadIs(z.fat, limit, T, h);
    var i :| 0 <= i < |ch| && ch[i] == h;
    TailIsChain(z.fat, limit, ch, i);
    SameHead(z.fat, limit, T.chains[h], ch[i..]);
    var j :| 0 <= j < |ch[i..]| && ch[i..][j] == ch[0];
    ChainDistinct(z.fat, limit, ch, i + j);
  }

  lemma {:induction false} TailIsChain(fat: seq<nat>, limit: nat, ch: seq<nat>, i: nat)
    requires IsChain(fat, limit, ch) && i < |ch|
    ensures IsChain(fat, limit, ch[i..])
    decreases i
  {
    if i == 0 {
      assert ch[0..] == ch;
    } else {
      ChainTail(fat, limit, ch);
      TailIsChain(fat, limit, ch[1..], i - 1);
      assert ch[1..][i - 1..] == ch[i..];
    }
  }

  lemma ChainDistinct(fat: seq<nat>, limit: nat, ch: seq<nat>, i: nat)
    requires IsChain(fat, limit, ch) && i < |ch| && ch[i] == ch[0]
    ensures i == 0
  {
  }
}
