/**
 * Two files whose long names are cut to one short name: with the first removed, its name finds the
 * second (kernel/src/fat.c:406-453, 1036-1043).
 */
module Twins {
  import opened Options
  import opened Bytes
  import opened Names
  import opened Chains
  import opened Dirs
  import opened Trees
  import opened Wellformed
  import opened Ops
  import opened Paths
  import opened Removals
  import opened Mending
  import opened DotPaths
  import opened Geometries
  import opened Volumes
  import opened Formats

  /** "LONGNAME", which fits 8.3, and "LONGNAME1" and "LONGNAME2", which are cut to it. */
  const LONGNAME: Name := [76, 79, 78, 71, 78, 65, 77, 69]
  const LONGNAME1: Name := LONGNAME + [49]
  const LONGNAME2: Name := LONGNAME + [50]

  lemma {:induction false} OnePart(n: Name, k: nat)
    requires k <= |n| && SLASH !in n
    ensures CompLen(n[k..]) == |n| - k
    decreases |n| - k
  {
    if k < |n| {
      assert n[k] != SLASH && n[k..][1..] == n[k+1..];
      OnePart(n, k + 1);
    }
  }

  lemma ThePath(n: Name)
    requires 0 < |n| <= PART_MAX && SLASH !in n
    ensures Parts([SLASH] + n) == [n]
  {
    var p := [SLASH] + n;
    assert p[0] == SLASH && p[1..] == n;
    OnePart(n, 0);
    assert n[0..] == n && n[..|n|] == n && n[|n|..] == [];
    assert Parts(n) == [Take(n[..CompLen(n)], PART_MAX)] + Parts(n[CompLen(n)..]);
  }

  lemma ThePaths()
    ensures Parts([SLASH] + LONGNAME) == [LONGNAME] && Parts([SLASH] + LONGNAME1) == [LONGNAME1]
        && Parts([SLASH] + LONGNAME2) == [LONGNAME2]
  {
    ThePath(LONGNAME);
    ThePath(LONGNAME1);
    ThePath(LONGNAME2);
  }

  /** A longer name of upper-case letters is spelt like its first eight. */
  lemma CutAlike(x: Name)
    requires x in {LONGNAME1, LONGNAME2}
    ensures NameEq(Dotted(Short(x)), LONGNAME) && !NameEq(LONGNAME, x) && !DotName(x)
  {
    hide Dotted, FoldAll, NameEq, LastDot;
    SpeltAlike(x);
    assert Fits83(LONGNAME);
    ShortNameRoundTrip(LONGNAME);
    Longer(LONGNAME, x);
  }

  lemma Longer(a: Name, b: Name)
    requires |a| != |b|
    ensures !NameEq(a, b)
  {
  }

  lemma SpeltAlike(x: Name)
    requires x in {LONGNAME1, LONGNAME2}
    ensures Short(x) == Short(LONGNAME)
  {
    hide FoldAll, LastDot;
    assert DOT !in x && DOT !in LONGNAME;
    assert x[..|x|] == x && LONGNAME[..8] == LONGNAME;
    assert Take(x, 8) == LONGNAME == Take(LONGNAME, 8);
  }

  // ---------------------------------------------------------------- a root with a few files of that name

  /** A label, and `n` files spelt LONGNAME behind it. */
  ghost predicate Alike(s: Slots, n: nat) {
    && n + 1 < |s| && !FreeSlot(s[0]) && !Dirs.Live(s[0]) && !IsLfn(s[0])
    && (forall i :: 1 <= i <= n ==> Dirs.Live(s[i]) && !IsDir(s[i]) && NameEq(Dotted(s[i]), LONGNAME))
    && forall i :: n < i < |s| ==> Ended(s[i])
  }

  lemma AlikeMatches(s: Slots, n: nat, i: nat, x: Name)
    requires Alike(s, n) && i <= n
    ensures Matches(s, i, x) <==> i >= 1 && NameEq(LONGNAME, x)
  {
    hide Dotted, NameEq;
    if i >= 1 {
      assert !IsLfn(s[i-1]);
      assert PendAt(s, i) == [] && LongAt(s, i) == [];
      NameEqSym(Dotted(s[i]), LONGNAME);
      if NameEq(LONGNAME, x) { NameEqSteps(Dotted(s[i]), LONGNAME, x); }
      if NameEq(Dotted(s[i]), x) { NameEqSteps(LONGNAME, Dotted(s[i]), x); }
    }
  }

  lemma AlikeFinds(s: Slots, n: nat, x: Name)
    requires Alike(s, n) && n <= 2
    ensures Find(s, x) == if n > 0 && NameEq(LONGNAME, x) then Some(1) else None
    ensures n == 2 && NameEq(LONGNAME, x) ==> FindFrom(s, x, 2) == Some(2)
  {
    hide Matches, NameEq;
    forall i | 0 <= i <= n ensures Matches(s, i, x) <==> i >= 1 && NameEq(LONGNAME, x) { AlikeMatches(s, n, i, x); }
    forall i | 0 <= i <= n ensures !Ended(s[i]) {}
    if n > 0 && NameEq(LONGNAME, x) {
      FindIs(s, x, 1);
    } else {
      FindSkip(s, x, 0, n + 1);
    }
  }

  lemma AlikeMore(s: Slots, more: Slots, n: nat, slot: nat, e: Entry)
    requires Alike(s, n) && AllEnded(more) && FirstSlot(s + more, slot) && |s| >= n + 3
    requires Dirs.Live(e) && !IsDir(e) && NameEq(Dotted(e), LONGNAME)
    ensures var t: Slots := (s + more)[slot := e];
            slot == n + 1 && Alike(t, n + 1) && t[n + 1] == e && forall i :: 0 <= i <= n ==> t[i] == s[i]
  {
    hide Dotted, NameEq;
    assert Ended((s + more)[n + 1]);
    assert forall i :: 0 <= i <= n ==> !FreeSlot((s + more)[i]);
  }

  // ---------------------------------------------------------------- the calls

  ghost predicate RootAlike(v: Vol, root: nat, per: nat, n: nat) {
    && Fits(v.data, v.L, per) && root in TreeOf(v, per)
    && Alike(TreeOf(v, per)[root], n) && |TreeOf(v, per)[root]| >= 16
  }

  lemma ToRoot(S: Tree, root: nat, x: Name)
    ensures Parent(S, root, [x]) == Some(root) && Locate(S, root, [x]) == SpotIn(S, root, x)
  {
    assert [x][..0] == [];
  }

  /** Either long name is new, and there is a slot for it. */
  lemma CanAdd(v: Vol, limit: nat, root: nat, per: nat, x: Name, n: nat, need: nat)
    requires Fine(v, limit, per) && RootAlike(v, root, per, n) && n <= 1 && x in {LONGNAME1, LONGNAME2}
    requires |FreeSet(v.fat, limit)| >= need
    ensures CanWrite(v, limit, root, per, [x], need) && Locate(TreeOf(v, per), root, [x]) == Nowhere
    ensures !NewDot(TreeOf(v, per), root, [x])
  {
    hide ChainsOk, DataShape, DirSlots, FindFrom, FreeSet, NameEq, Alike, Dotted;
    var s := TreeOf(v, per)[root];
    ToRoot(TreeOf(v, per), root, x);
    CutAlike(x);
    AlikeFinds(s, n, x);
    AlikeRoom(s, n);
  }

  lemma AlikeRoom(s: Slots, n: nat)
    requires Alike(s, n) && n <= 1
    ensures forall free: nat :: HasSlot(s, free)
  {
    assert FreeSlot(s[n + 1]);
  }

  /** One more of them. */
  lemma Added(v: Vol, z: Vol, limit: nat, root: nat, per: nat, x: Name, n: nat, src: seq<byte>, first: nat, slot: nat,
              more: Slots)
    requires Fine(v, limit, per) && Fine(z, limit, per) && RootAlike(v, root, per, n) && n <= 1
    requires x in {LONGNAME1, LONGNAME2} && first < 0x1_0000_0000 && |src| < 0x1_0000_0000
    requires Locate(TreeOf(v, per), root, [x]) == Nowhere
        && WriteDone(v, z, limit, root, per, [x], src, first, slot, more)
    ensures RootAlike(z, root, per, n + 1) && EntSize(TreeOf(z, per)[root][n + 1]) == |src|
  {
    hide ChainsOk, DataShape, DirSlots, FindFrom, FreeSet, NameEq, Alike, Dotted, EntClus, EntSize, NewEntry, Kept,
         HoldsFile, Dirs.Live, IsDir, Short;
    var S, e := TreeOf(v, per), NewEntry(x, ATTR_ARC, first, |src|);
    ToRoot(S, root, x);
    CutAlike(x);
    NewEntryFields(x, ATTR_ARC, first, |src|);
    AlikeMore(S[root], more, n, slot, e);
  }

  /** The removal: of two files alike, the one that is found first. */
  lemma CanCut(v: Vol, root: nat, per: nat)
    requires RootAlike(v, root, per, 2)
    ensures CanDelete(TreeOf(v, per), root, [LONGNAME]) && !OwnDot(TreeOf(v, per), root, [LONGNAME])
    ensures Locate(TreeOf(v, per), root, [LONGNAME]) == At(Ref(root, 1))
  {
    hide DirSlots, FindFrom, NameEq, Dotted, EntClus;
    var S := TreeOf(v, per);
    ToRoot(S, root, LONGNAME);
    NameEqSym(LONGNAME, LONGNAME);
    AlikeFinds(S[root], 2, LONGNAME);
  }

  /** Then the name finds the other. */
  lemma OtherAnswers(v: Vol, z: Vol, limit: nat, root: nat, per: nat)
    requires Fine(v, limit, per) && Fine(z, limit, per) && RootAlike(v, root, per, 2)
    requires Locate(TreeOf(v, per), root, [LONGNAME]) == At(Ref(root, 1))
        && RemoveDone(v, z, limit, root, per, [LONGNAME])
    requires EntSize(TreeOf(v, per)[root][2]) == 0
    ensures Locate(TreeOf(z, per), root, [LONGNAME]) == At(Ref(root, 2))
        && FileAt(z, limit, root, per, [LONGNAME]) == Some([])
  {
    hide ChainsOk, DataShape, DirSlots, FindFrom, NameEq, Dotted, EntClus, EntSize, Kept, LongName, PendAt, Contents,
         Locate;
    var S, S' := TreeOf(v, per), TreeOf(z, per);
    NameEqSym(LONGNAME, LONGNAME);
    AlikeFinds(S[root], 2, LONGNAME);
    Uncovered(S[root], S'[root]);
    ToRoot(S', root, LONGNAME);
    NothingToRead(z, limit, per, EntClus(S'[root][2]));
  }

  lemma Uncovered(s: Slots, s': Slots)
    requires Alike(s, 2) && s' == s[1 := Erased(s[1])] && Find(s, LONGNAME) == Some(1)
        && FindFrom(s, LONGNAME, 2) == Some(2)
    ensures Find(s', LONGNAME) == Some(2) && s'[2] == s[2] && !IsDir(s'[2])
  {
    hide FindFrom, NameEq, Dotted;
    ErasedNameFound(s, 1, LONGNAME);
  }

  /** A new root holds none of them. */
  lemma NewRootAlike(s: Slots, per: nat)
    requires NewRoot(s, per) && per >= 16
    ensures Alike(s, 0) && |s| >= 16
  {
  }

  /** Write one of the long names. */
  method Put(vol: Volume, path: Name, ghost x: Name, src: seq<byte>, ghost n: nat) returns (ok: bool)
    requires vol.Healthy() && RootAlike(vol.State(), vol.g.rootClus, vol.Per(), n) && n <= 1
    requires x in {LONGNAME1, LONGNAME2} && path != [] && path[0] == SLASH && Parts(path) == [x]
    requires |src| <= 1 && vol.g.Limit() <= |vol.fat| && |FreeSet(vol.fat, vol.g.Limit())| >= |src|
    modifies vol`dirty, vol`cacheSec, vol`fat, vol`data, vol`loaded, vol`search, vol`L, vol.disk, vol.fatCache,
        vol.clusBuf
    ensures ok && vol.Healthy() && RootAlike(vol.State(), vol.g.rootClus, vol.Per(), n + 1)
    ensures EntSize(vol.Tree()[vol.g.rootClus][n + 1]) == |src| && vol.g.Limit() <= |vol.fat|
  {
    hide Volume.Healthy, Volume.Chained, Volume.Mirrored, FreeSet, CanWrite, SafeTarget, Mendable, RootAlike, WriteSeen,
         Sound, Fine, Parts, AllSlots, NewDot, WriteDone, EntSize, Locate;
    vol.HealthyIsSound();
    vol.RootDepth();
    ghost var v := vol.State();
    OneNeed(|src|, vol.g.ClusterBytes());
    CanAdd(v, vol.g.Limit(), vol.g.rootClus, vol.Per(), x, n, |src|);
    ghost var first, slot, more;
    ok, first, slot, more := vol.FatWrite(path, src);
    vol.HealthyIsSound();
    Added(v, vol.State(), vol.g.Limit(), vol.g.rootClus, vol.Per(), x, n, src, first, slot, more);
  }

  lemma OneNeed(size: nat, cb: nat)
    requires size <= 1 && cb > 0
    ensures NumClus(size, cb) == size
  {
  }

  /** Remove "/LONGNAME" where there are two of them. */
  method Cut(vol: Volume) returns (ok: bool)
    requires vol.Healthy() && RootAlike(vol.State(), vol.g.rootClus, vol.Per(), 2)
    requires EntSize(vol.Tree()[vol.g.rootClus][2]) == 0
    modifies vol`dirty, vol`cacheSec, vol`fat, vol`data, vol`loaded, vol`L, vol.disk, vol.fatCache, vol.clusBuf
    ensures ok && vol.Healthy() && Fine(vol.State(), vol.g.Limit(), vol.Per())
    ensures FileAt(vol.State(), vol.g.Limit(), vol.g.rootClus, vol.Per(), [LONGNAME]) == Some([])
  {
    hide Volume.Healthy, Volume.Chained, Volume.Mirrored, CanDelete, Mendable, RootAlike, RemoveSeenAll, Sound, Fine,
         Parts, AllSlots, OwnDot, RemoveDone, EntSize, Locate, SoleName, InReach, FileAt;
    vol.HealthyIsSound();
    vol.RootDepth();
    ThePaths();
    ghost var v := vol.State();
    CanCut(v, vol.g.rootClus, vol.Per());
    ok := vol.FatRemove([SLASH] + LONGNAME);
    vol.HealthyIsSound();
    OtherAnswers(v, vol.State(), vol.g.Limit(), vol.g.rootClus, vol.Per());
  }

  /**
   * Format, write "/LONGNAME1" and an empty "/LONGNAME2", and remove "/LONGNAME": all calls succeed,
   * the first file goes, and the name reads the second one.
   */
  method Uncover(disk: array<Sector>, lba: nat, nsec: nat) returns (put1: bool, put2: bool, gone: bool, vol: Volume?)
    requires lba < U32 && 4096 <= nsec <= 0x8000_0000 && lba + nsec <= disk.Length
    modifies disk
    ensures put1 && put2 && gone && vol != null && vol.Healthy() && Fine(vol.State(), vol.g.Limit(), vol.Per())
    ensures FileAt(vol.State(), vol.g.Limit(), vol.g.rootClus, vol.Per(), [LONGNAME]) == Some([])
  {
    hide Volume.Healthy, Volume.Chained, Volume.Mirrored, Bind, Formatted, FreeSet, NewRoot, Fine, RootAlike, EntSize,
         Parts, FileAt;
    ThePaths();
    var ok, g;
    ok, g, vol := FormatAndMount(disk, lba, nsec);
    NewRootAlike(vol.Tree()[vol.g.rootClus], vol.Per());
    RootIs(vol);
    put1 := Put(vol, [SLASH] + LONGNAME1, LONGNAME1, [65], 0);
    put2 := Put(vol, [SLASH] + LONGNAME2, LONGNAME2, [], 1);
    gone := Cut(vol);
  }

  lemma RootIs(vol: Volume)
    requires vol.Healthy() && vol.g.rootClus in vol.Tree() && Alike(vol.Tree()[vol.g.rootClus], 0)
        && |vol.Tree()[vol.g.rootClus]| >= 16
    ensures RootAlike(vol.State(), vol.g.rootClus, vol.Per(), 0) && vol.Per() >= 16 && vol.g.Limit() <= |vol.fat|
  {
    hide Volume.Healthy, Volume.Chained, Sound, Alike, AllSlots;
    vol.HealthyIsSound();
  }
}
