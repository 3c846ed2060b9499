/**
 * Whether a volume can be read as a well-formed one at all: its table and clusters decide, for they
 * leave no choice of layout. What a call may have spoilt is shown to be spoilt by this.
 */
module Mending {
  import opened Options
  import opened Bytes
  import opened Names
  import opened Chains
  import opened Dirs
  import opened Trees
  import opened Wellformed
  import opened Ops
  import opened Paths

  /** Some layout makes the volume well formed: its table and clusters alone decide. */
  ghost predicate Mendable(v: Vol, limit: nat, root: nat, per: nat) {
    exists T: Layout :: Sound(v.(L := T), limit, root, per)
  }

  // ---------------------------------------------------------------- a table has one layout

  /** The table fixes the chain behind a head. */
  lemma {:induction false} SameHead(fat: seq<nat>, limit: nat, a: seq<nat>, b: seq<nat>)
    requires IsChain(fat, limit, a) && IsChain(fat, limit, b) && a[0] == b[0]
    ensures a == b
    decreases |a|
  {
    if |a| > 1 && |b| > 1 {
      ChainTail(fat, limit, a);
      ChainTail(fat, limit, b);
      SameHead(fat, limit, a[1..], b[1..]);
      assert a == [a[0]] + a[1..] && b == [b[0]] + b[1..];
    } else if |a| > 1 {
      ChainTail(fat, limit, a);
    } else if |b| > 1 {
      ChainTail(fat, limit, b);
    }
  }

  /** A directory whose clusters are as before has the same slots under any layout. */
  lemma SameUnder(v: Vol, z: Vol, T: Layout, limit: nat, per: nat, d: nat)
    requires Fine(v, limit, per) && Fine(z.(L := T), limit, per) && d in v.L.chains && d in T.chains
        && |z.fat| == |v.fat|
    requires forall c :: c in v.L.chains[d] ==>
        c < |v.fat| && c < |v.data| && c < |z.data| && z.fat[c] == v.fat[c] && z.data[c] == v.data[c]
    ensures T.chains[d] == v.L.chains[d] && SlotsAt(z.data, T, per, d) == SlotsAt(v.data, v.L, per, d)
  {
    hide ChainsOk, DirSlots;
    ChainsAreChains(v.fat, limit, v.L, d);
    ChainsAreChains(z.fat, limit, T, d);
    HeadIs(v.fat, limit, v.L, d);
    HeadIs(z.fat, limit, T, d);
    assert IsChain(z.fat, limit, v.L.chains[d]);
    SameHead(z.fat, limit, T.chains[d], v.L.chains[d]);
    assert Sized(v.data, v.L.chains[d], per) && Sized(z.data, T.chains[d], per);
    SameSlots(v.data, z.data, v.L.chains[d], per);
  }

  // ---------------------------------------------------------------- directories stay where they are named

  lemma OwnRef(D: DirMap, L: Layout, root: nat, h: nat)
    requires TreeOk(D, L, root) && h in L.refs && h in D
    ensures var r := L.refs[h];
            && r.dir in D && r.dir in L.depth && h in L.depth && r.slot < |D[r.dir]| <= MAX_ITEMS && TidyItems(D[r.dir])
            && Owned(D, root, r.dir, r.slot) && D[r.dir][r.slot] == Folder(0, h) && L.depth[h] == L.depth[r.dir] + 1
  {
    hide DirsOk;
    assert RefOk(D, L, root, h);
    var r := L.refs[h];
    assert EntryOk(D, L, r.dir, r.slot);
    assert D[r.dir][r.slot].Folder?;
    RefDirOk(D, L, root, r.dir);
  }

  lemma RefDirOk(D: DirMap, L: Layout, root: nat, d: nat)
    requires TreeOk(D, L, root) && d in D
    ensures |D[d]| <= MAX_ITEMS && TidyItems(D[d])
  {
    hide EntriesOk, RefsOk;
    assert DirOk(D, L, root, d);
  }

  /** The clusters of chain `k` and their entries are as they were. */
  ghost predicate ChainAlone(v: Vol, z: Vol, k: nat)
    requires k in v.L.chains
  {
    forall c :: c in v.L.chains[k] ==>
      c < |v.fat| && c < |v.data| && c < |z.data| && c < |z.fat| && z.fat[c] == v.fat[c] && z.data[c] == v.data[c]
  }

  /** Every directory but `d` has the clusters it had. */
  ghost predicate OthersAlone(v: Vol, z: Vol, d: nat) {
    |z.fat| == |v.fat| && forall k :: k in v.L.depth && k != d ==> k in v.L.chains && ChainAlone(v, z, k)
  }

  /** Under any layout the directories above `d` are still there, and so is `d`: they name it. */
  lemma {:induction false} StillNamed(v: Vol, z: Vol, T: Layout, limit: nat, root: nat, per: nat, d: nat, k: nat)
    requires Sound(v, limit, root, per) && PerOk(per) && d in v.L.depth && k in v.L.depth
        && v.L.depth[k] <= v.L.depth[d]
    requires Sound(z.(L := T), limit, root, per) && OthersAlone(v, z, d)
    ensures k in T.depth
    decreases v.L.depth[k]
  {
    hide ChainsOk, DirSlots, TreeOk, DirItems, Dotted, EntClus, EntSize, NumClus, View, Sized;
    var D, E := DirItems(v.data, v.L, per), DirItems(z.data, T, per);
    RootIsThere(E, T, root);
    if k != root {
      NamedBelow(D, v.L, root, k);
      OwnRef(D, v.L, root, k);
      var r := v.L.refs[k];
      StillNamed(v, z, T, limit, root, per, d, r.dir);
      assert ChainAlone(v, z, r.dir);
      SameUnder(v, z, T, limit, per, r.dir);
      assert E[r.dir] == D[r.dir];
      StillThere(E, T, root, r.dir, r.slot, k);
    }
  }

  lemma NamedBelow(D: DirMap, L: Layout, root: nat, k: nat)
    requires TreeOk(D, L, root) && k in L.depth && k != root
    ensures k in D && k in L.refs && k in L.chains
  {
  }

  lemma StillThere(E: DirMap, T: Layout, root: nat, dir: nat, slot: nat, k: nat)
    requires TreeOk(E, T, root) && Owned(E, root, dir, slot) && E[dir][slot] == Folder(0, k)
    ensures k in T.depth
  {
    assert EntryOk(E, T, dir, slot);
  }

  lemma DirSizedHere(v: Vol, per: nat, d: nat)
    requires Fits(v.data, v.L, per) && d in v.L.depth
    ensures d in v.L.chains && Sized(v.data, v.L.chains[d], per)
  {
  }

  /** Slots no directory of a well-formed volume has: too many, or a live one of its own spelt like a dot name. */
  ghost predicate BadSlots(s: Slots, root: nat, d: nat) {
    |s| > MAX_SLOTS || exists i :: 0 <= i < |s| && (d == root || i >= 2) && Dirs.Live(s[i]) && DotName(Dotted(s[i]))
  }

  /** A directory with such slots spoils the volume. */
  lemma BadDirSpoils(v: Vol, z: Vol, limit: nat, root: nat, per: nat, d: nat)
    requires Sound(v, limit, root, per) && PerOk(per) && d in v.L.depth && Fine(z, limit, per) && d in z.L.depth
        && OthersAlone(v, z, d)
    requires BadSlots(SlotsAt(z.data, z.L, per, d), root, d)
    ensures !Mendable(z, limit, root, per)
  {
    hide ChainsOk, DirSlots, TreeOk, DirItems, Dotted, EntClus, EntSize, NumClus, BadSlots;
    forall T: Layout ensures !Sound(z.(L := T), limit, root, per) {
      if Sound(z.(L := T), limit, root, per) {
        StillNamed(v, z, T, limit, root, per, d, d);
        SameUnder(z, z, T, limit, per, d);
        GoodSlots(DirItems(z.data, T, per), T, root, d, SlotsAt(z.data, T, per, d), PerBytes(per));
      }
    }
  }

  lemma GoodSlots(E: DirMap, T: Layout, root: nat, d: nat, s: Slots, cb: nat)
    requires cb > 0 && d in E && E[d] == ItemsOf(s, cb) && TreeOk(E, T, root)
    ensures !BadSlots(s, root, d)
  {
    hide Dotted, EntClus, EntSize, NumClus;
    assert DirOk(E, T, root, d);
    forall i | 0 <= i < |s| && (d == root || i >= 2) && Dirs.Live(s[i]) ensures !DotName(Dotted(s[i])) {
      assert E[d][i] == View(s[i], cb);
      assert Owned(E, root, d, i);
      assert EntryOk(E, T, d, i);
    }
  }

  /** The layout that comes with a volume does not matter. */
  lemma MendAny(v: Vol, T: Layout, limit: nat, root: nat, per: nat)
    ensures Mendable(v.(L := T), limit, root, per) <==> Mendable(v, limit, root, per)
  {
    hide Sound;
    assert forall U: Layout :: v.(L := T).(L := U) == v.(L := U);
  }

  lemma SoundMends(v: Vol, limit: nat, root: nat, per: nat)
    requires Sound(v, limit, root, per)
    ensures Mendable(v, limit, root, per)
  {
    hide Sound;
    assert v.(L := v.L) == v;
  }
}
