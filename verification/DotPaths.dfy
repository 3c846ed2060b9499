/**
 * What becomes of a volume when the last component of a path is "." or "..". The drive layer drops
 * such components (kernel/src/fs.c:162-170), but it cuts the path it hands down at 127 characters
 * (fs.c:45-52), so that a longer name can end there in one; the driver itself does not look for them.
 */
module DotPaths {
  import opened Options
  import opened Bytes
  import opened Names
  import opened Chains
  import opened Dirs
  import opened Trees
  import opened Wellformed
  import opened Ops
  import opened Paths
  import opened Mending

  // ---------------------------------------------------------------- a dot name in the root

  lemma DotsNotOwned(D: DirMap, T: Layout, root: nat, slot: nat)
    requires TreeOk(D, T, root) && root in D && slot < |D[root]| && D[root][slot].Live()
    ensures D[root][slot].dots == 0
  {
    assert Owned(D, root, root, slot);
    assert EntryOk(D, T, root, slot);
  }

  /** A live entry spelt "." or ".." in the root is no part of a well-formed volume. */
  lemma DotInRoot(v: Vol, limit: nat, root: nat, per: nat, slot: nat)
    requires Fine(v, limit, per) && PerOk(per) && root in v.L.depth && slot < |SlotsAt(v.data, v.L, per, root)|
    requires var e := SlotsAt(v.data, v.L, per, root)[slot]; Dirs.Live(e) && DotName(Dotted(e))
    ensures !Mendable(v, limit, root, per)
  {
    hide ChainsOk, DirSlots, Dotted, TreeOk, EntClus, EntSize, NumClus, Dirs.Live;
    forall T: Layout ensures !Sound(v.(L := T), limit, root, per) {
      if Sound(v.(L := T), limit, root, per) {
        RootIsThere(DirItems(v.data, T, per), T, root);
        SameUnder(v, v, T, limit, per, root);
        assert DirItems(v.data, T, per)[root][slot] == View(SlotsAt(v.data, T, per, root)[slot], PerBytes(per));
        DotsNotOwned(DirItems(v.data, T, per), T, root, slot);
      }
    }
  }

  // ---------------------------------------------------------------- looking up a dot name

  /** Below the root a dot name finds one of the two first slots. */
  lemma DotsAreFound(v: Vol, limit: nat, root: nat, per: nat, dir: nat, name: Name)
    requires Sound(v, limit, root, per) && PerOk(per) && dir in v.L.depth && dir != root && DotName(name)
    ensures var s := SlotsAt(v.data, v.L, per, dir);
            && |s| >= 2 && Find(s, name) == Some(|name| - 1) && IsDir(s[|name| - 1]) && EntClus(s[0]) == dir
                 && dir in v.L.refs
            && (EntClus(s[1]) == v.L.refs[dir].dir || (EntClus(s[1]) == 0 && v.L.refs[dir].dir == root))
            && DotName(Dotted(s[|name| - 1]))
  {
    hide ChainsOk, DirSlots, TreeOk, DirItems;
    var D, s := DirItems(v.data, v.L, per), SlotsAt(v.data, v.L, per, dir);
    HasDots(D, v.L, root, dir);
    DotsFound(s, dir, v.L.refs[dir].dir, root, PerBytes(per), name);
  }

  /** The directory above is not empty, so ".." is never removed. */
  lemma UpIsNotEmpty(v: Vol, limit: nat, root: nat, per: nat, dir: nat)
    requires Sound(v, limit, root, per) && PerOk(per) && dir in v.L.depth && dir != root && dir in v.L.refs
    ensures v.L.refs[dir].dir in v.L.depth && !EmptyDir(SlotsAt(v.data, v.L, per, v.L.refs[dir].dir))
  {
    hide ChainsOk, DirSlots, TreeOk, DirItems, Dotted, EntClus, EntSize, NumClus, Dirs.Live;
    var D, r := DirItems(v.data, v.L, per), v.L.refs[dir];
    OwnRef(D, v.L, root, dir);
    var s := SlotsAt(v.data, v.L, per, r.dir);
    LiveIsShown(D[r.dir], s, PerBytes(per), r.slot);
    assert D[r.dir][r.slot] == View(s[r.slot], PerBytes(per));
  }

  // ---------------------------------------------------------------- "." removed

  /** Every chain but that of `d` is as it was, and cluster `d` is free. */
  ghost predicate Cleared(v: Vol, z: Vol, d: nat) {
    && |z.fat| == |v.fat| && d < |z.fat| && z.fat[d] == 0
    && forall k :: k in v.L.chains && k != d ==> ChainAlone(v, z, k)
  }

  /** So no layout mends the volume. */
  lemma ClearedIsLost(v: Vol, z: Vol, limit: nat, root: nat, per: nat, d: nat)
    requires Sound(v, limit, root, per) && PerOk(per) && d in v.L.depth && Cleared(v, z, d)
    ensures !Mendable(z, limit, root, per)
  {
    hide ChainsOk, DirSlots, TreeOk, DirItems;
    assert forall k :: k in v.L.depth ==> k in v.L.chains;
    forall T: Layout ensures !Sound(z.(L := T), limit, root, per) {
      if Sound(z.(L := T), limit, root, per) {
        StillNamed(v, z, T, limit, root, per, d, d);
        HeadInUse(z.fat, limit, T, d);
      }
    }
  }

  lemma HeadInUse(fat: seq<nat>, limit: nat, T: Layout, d: nat)
    requires ChainsOk(fat, limit, T) && d in T.chains
    ensures d < |fat| && fat[d] != 0
  {
    assert HeadOk(T, d);
    assert PlaceOk(fat, limit, T, d);
  }

  // ---------------------------------------------------------------- what the calls meet

  /** An entry found is spelt like a dot name exactly when it was looked up by one, below the root. */
  lemma PlainHit(v: Vol, limit: nat, root: nat, per: nat, dir: nat, name: Name, slot: nat)
    requires Sound(v, limit, root, per) && PerOk(per) && dir in v.L.depth
        && Find(SlotsAt(v.data, v.L, per, dir), name) == Some(slot)
    ensures DotName(Dotted(SlotsAt(v.data, v.L, per, dir)[slot])) <==> DotName(name) && dir != root
    ensures DotName(name) && dir != root ==> IsDir(SlotsAt(v.data, v.L, per, dir)[slot])
  {
    hide ChainsOk, DirSlots, TreeOk, DirItems, Dotted, FindFrom, IsDir;
    if DotName(name) && dir != root {
      DotsAreFound(v, limit, root, per, dir, name);
    } else {
      HitIsPlain(v.data, v.L, root, per, dir, name, slot);
    }
  }

  /** What a dot name leads to: the directory itself, or the one above, which is not empty. */
  lemma DotHit(v: Vol, limit: nat, root: nat, per: nat, dir: nat, name: Name, slot: nat, h: nat)
    requires Sound(v, limit, root, per) && FoundIn(v, per, dir, name, slot, h) && dir != root && DotName(name)
    ensures Into(root, h) in v.L.depth
    ensures EmptyDir(SlotsAt(v.data, v.L, per, Into(root, h))) ==> h == dir && name == [DOT]
  {
    hide ChainsOk, DirSlots, TreeOk, DirItems, Dotted, FindFrom, IsDir, EntClus, EmptyDir;
    DotsAreFound(v, limit, root, per, dir, name);
    UpIsNotEmpty(v, limit, root, per, dir);
    HeadsPositive(v.fat, limit, v.L);
  }

  /** Erasing "." and freeing the chain it names leaves every other chain alone. */
  lemma ClearedByRelease(v: Vol, y: Vol, y1: Vol, z: Vol, limit: nat, per: nat, d: nat, slot: nat)
    requires Fine(v, limit, per) && Erases(v, y, per, d, slot) && d in v.L.chains && y1 == y.(L := Shallow(v.L, d))
    requires z.L == Dropped(y1.L, d) && ChainsOk(z.fat, limit, z.L) && |z.fat| == |v.fat| && AllKept(y1, z, d)
    ensures Cleared(v, z, d)
  {
    hide DirSlots, DirItems, DataShape, IsChain, ChainsOk, View, Added, Fits, Dropped;
    HeadInRange(v.fat, limit, v.L, d);
    ChainFacts(v.fat, limit, v.L, d);
    forall k | k in v.L.chains && k != d ensures ChainAlone(v, z, k) {
      ChainFacts(v.fat, limit, v.L, k);
      Apart(v.L, d, k);
      assert SameChain(y1.fat, y1.data, y1.L, z.fat, z.data, z.L, k);
    }
    DroppedIsFree(z.fat, limit, y1.L, d);
  }

  lemma DroppedIsFree(fat: seq<nat>, limit: nat, T: Layout, d: nat)
    requires ChainsOk(fat, limit, Dropped(T, d)) && 2 <= d < limit && d in T.chains && HeadOk(T, d)
    ensures d < |fat| && fat[d] == 0
  {
    assert T.chains[d][0] == d;
  }

  /** A dot name entered in the root. */
  lemma DotAdded(y: Vol, data1: seq<seq<byte>>, limit: nat, root: nat, per: nat, slot: nat, name: Name, attr: byte,
                 clus: nat, size: nat)
    requires Fine(y, limit, per) && PerOk(per) && root in y.L.depth && Fits(data1, y.L, per) && DotName(name)
    requires clus < 0x1_0000_0000 && size < 0x1_0000_0000 && attr in {ATTR_ARC, ATTR_DIR}
    requires FirstSlot(SlotsAt(data1, y.L, per, root), slot)
        && PutAt(data1, y.data, y.L, per, root, slot, NewEntry(name, attr, clus, size))
    ensures !Mendable(y, limit, root, per)
  {
    hide ChainsOk, DirSlots, Dotted, Short, NewEntry, DirItems, DataShape, Mendable;
    NewEntryFields(name, attr, clus, size);
    DotNames();
    DotInRoot(y, limit, root, per, slot);
  }

  /** The last component is a dot name, and means an entry of the directory's own. */
  ghost predicate OwnDot(S: Tree, root: nat, p: seq<Name>)
    requires p != []
  {
    DotName(Last(p)) && Parent(S, root, p) != Some(root)
  }

  /** The last component is a dot name that is to be created. */
  ghost predicate NewDot(S: Tree, root: nat, p: seq<Name>)
    requires p != []
  {
    DotName(Last(p)) && Locate(S, root, p) == Nowhere
  }

  /** "." in an empty directory below the root. */
  ghost predicate NamesItself(v: Vol, root: nat, per: nat, dir: nat, name: Name, slot: nat, h: nat) {
    FoundIn(v, per, dir, name, slot, h) && h == dir != root && EmptyDir(SlotsAt(v.data, v.L, per, dir))
  }

  /** What fat_remove takes away: an entry with what it owns, or "." with its own directory. */
  lemma RemovedChain(v: Vol, limit: nat, root: nat, per: nat, dir: nat, name: Name, slot: nat, h: nat)
    requires Sound(v, limit, root, per)
    requires HitsEntry(v, per, dir, name, slot, h) || NamesItself(v, root, per, dir, name, slot, h)
    ensures (h >= 2 ==> h in v.L.chains) && (h < 2 ==> h == 0 && h !in v.L.chains)
    ensures h !in v.L.chains ==> h !in v.L.refs && h !in v.L.depth
  {
    hide ChainsOk, DirSlots, TreeOk, DirItems, FindFrom, EntClus, EmptyDir, HitsEntry, DataShape;
    if HitsEntry(v, per, dir, name, slot, h) {
      HitChain(v, limit, root, per, dir, name, slot, h);
    } else {
      DirSizedHere(v, per, dir);
      HeadInRange(v.fat, limit, v.L, dir);
    }
  }

  /** What an entry found leads to, if the code gets past its test. */
  lemma FoundTarget(v: Vol, limit: nat, root: nat, per: nat, dir: nat, name: Name, slot: nat, h: nat)
    requires Sound(v, limit, root, per) && FoundIn(v, per, dir, name, slot, h)
    ensures var isDir := IsDir(SlotsAt(v.data, v.L, per, dir)[slot]);
            && (isDir ==> Into(root, h) in v.L.depth)
            && ((isDir ==> EmptyDir(SlotsAt(v.data, v.L, per, Into(root, h)))) ==>
                  if DotName(name) && dir != root then NamesItself(v, root, per, dir, name, slot, h)
                    && !HitsEntry(v, per, dir, name, slot, h)
                  else HitsEntry(v, per, dir, name, slot, h))
  {
    hide ChainsOk, DirSlots, TreeOk, DirItems, FindFrom, EntClus, EmptyDir, DataShape, Dotted, IsDir;
    PlainHit(v, limit, root, per, dir, name, slot);
    if IsDir(SlotsAt(v.data, v.L, per, dir)[slot]) { HitFolder(v, limit, root, per, dir, name, slot); }
    if DotName(name) && dir != root {
      DotHit(v, limit, root, per, dir, name, slot, h);
      DirSizedHere(v, per, dir);
      HeadInRange(v.fat, limit, v.L, dir);
    } else {
      HitOwned(v.data, v.L, root, per, dir, name, slot);
    }
  }

  // ---------------------------------------------------------------- how "." gets removed

  /** A directory in which no name but the dot names finds anything is empty. */
  lemma NothingFound(s: Slots)
    requires forall n: Name :: !DotName(n) ==> Find(s, n) == None
    ensures EmptyDir(s)
  {
    hide Dotted, LongName, NameEq;
    forall i | 0 <= i < |s| && i < MAX_SLOTS && Dirs.Live(s[i]) && (forall j :: 0 <= j <= i ==> !Ended(s[j]))
      ensures DotName(Dotted(s[i])) {
      NameEqSym(Dotted(s[i]), Dotted(s[i]));
      assert Matches(s, i, Dotted(s[i]));
      assert Find(s, Dotted(s[i])) != None;
    }
  }

  /** In every empty directory below the root, "." can be removed. */
  lemma DotGoes(v: Vol, limit: nat, root: nat, per: nat, q: seq<Name>, c: nat)
    requires Sound(v, limit, root, per) && PerOk(per) && c in v.L.depth && c != root && q != []
    requires Parent(TreeOf(v, per), root, q) == Some(c) && Last(q) == [DOT] && EmptyDir(SlotsAt(v.data, v.L, per, c))
    ensures CanDelete(TreeOf(v, per), root, q) && OwnDot(TreeOf(v, per), root, q)
  {
    hide ChainsOk, DirSlots, TreeOk, DirItems, FindFrom, EntClus, EmptyDir, Walk, IsDir, DataShape;
    DotsAreFound(v, limit, root, per, c, [DOT]);
    DirSizedHere(v, per, c);
    HeadInRange(v.fat, limit, v.L, c);
    assert TreeOf(v, per)[c] == SlotsAt(v.data, v.L, per, c);
  }
}
