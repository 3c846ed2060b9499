/**
 * A volume lost by a path that ends in ".": three calls that succeed, from a fresh disk on
 * (kernel/src/fat.c:959-990, 1016-1048).
 */
module LostDirectories {
  import opened Options
  import opened Bytes
  import opened Names
  import opened Chains
  import opened Dirs
  import opened Trees
  import opened Wellformed
  import opened Ops
  import opened Paths
  import opened Removals
  import opened Mending
  import opened DotPaths
  import opened Geometries
  import opened Volumes
  import opened Formats

  /** "/A" and "/A/." */
  const A_PATH: Name := [SLASH, 65]
  const DOT_PATH: Name := [SLASH, 65, SLASH, DOT]

  lemma ThePaths()
    ensures Parts(A_PATH) == [[65]] && Parts(DOT_PATH) == [[65], [DOT]]
  {
    var c := [65, SLASH, DOT];
    assert A_PATH[1..] == [65] && DOT_PATH[1..] == c;
    assert c[1..] == [SLASH, DOT] && [SLASH, DOT][1..] == [DOT];
    OneComp([65]);
    OneComp([DOT]);
    assert CompLen(c) == 1 && c[..1] == [65];
    assert Parts(c) == [[65]] + Parts([SLASH, DOT]);
  }

  lemma OneComp(n: Name)
    requires |n| == 1 && n[0] != SLASH
    ensures CompLen(n) == 1 && Parts(n) == [n]
  {
    assert n[1..] == [];
    assert CompLen([]) == 0;
    assert n[..1] == n;
    assert Parts([]) == [];
  }

  /** A new root has room for one more entry, and a name there is safe. */
  lemma NewRootTakes(s: Slots, per: nat, free: nat)
    requires NewRoot(s, per) && per >= 16 && free >= 1
    ensures Find(s, [65]) == None && Room(s, free, 1) && Safe(s, [65])
  {
    hide Dotted, Short, Harmless, LongName, NameEq;
    assert FreeSlot(s[1]);
    assert forall i :: 0 <= i < |s| ==> !IsLfn(s[i]);
    assert !Matches(s, 0, [65]);
    assert FindFrom(s, [65], 0) == FindFrom(s, [65], 1) == None;
    assert Fits83([65]) by { AFits(); }
    ShortIsSafe(s, [65]);
  }

  lemma AFits()
    ensures Fits83([65])
  {
  }

  /** Where the first call leads. */
  lemma CanMakeA(v: Vol, limit: nat, root: nat, per: nat)
    requires Sound(v, limit, root, per) && PerOk(per) && root in TreeOf(v, per) && NewRoot(TreeOf(v, per)[root], per)
        && |FreeSet(v.fat, limit)| >= 1
    ensures CanMake(v, limit, root, per, [[65]]) && SafeTarget(TreeOf(v, per), root, [[65]])
        && !NewDot(TreeOf(v, per), root, [[65]])
    ensures SameFile(TreeOf(v, per), root, [[65]], [[65]])
  {
    hide ChainsOk, DirSlots, TreeOk, DirItems, FindFrom, NewRoot, Room, Safe, FreeSet, DataShape;
    NewRootTakes(TreeOf(v, per)[root], per, |FreeSet(v.fat, limit)|);
    assert [[65]][..0] == [];
    NameEqSym([65], [65]);
  }

  /** Where the second call leads: into the new directory. */
  lemma CanLoseA(z: Vol, limit: nat, root: nat, per: nat, c: nat)
    requires Sound(z, limit, root, per) && PerOk(per) && LeadsToEmpty(z, root, per, c)
    ensures CanDelete(TreeOf(z, per), root, [[65], [DOT]]) && OwnDot(TreeOf(z, per), root, [[65], [DOT]])
  {
    hide ChainsOk, DirSlots, TreeOk, DirItems, FindFrom, IsDir, EntClus, DataShape, Dirs.Live, EmptyDir;
    var S, q: seq<Name> := TreeOf(z, per), [[65], [DOT]];
    assert [[65]][..0] == [] && q[..1] == [[65]] && [[65]][1..] == [];
    assert Locate(S, root, [[65]]) == SpotIn(S, root, [65]);
    TreeFacts(z, limit, root, per);
    HitFolder(z, limit, root, per, root, [65], Locate(S, root, [[65]]).ref.slot);
    assert Parent(S, root, q) == Some(c);
    assert c != root;
    forall n: Name | !DotName(n) ensures Find(S[c], n) == None { assert SpotIn(S, c, n) == Nowhere; }
    NothingFound(S[c]);
    DotGoes(z, limit, root, per, q, c);
  }

  /** What the first call shows. */
  lemma MadeA(v: Vol, z: Vol, limit: nat, root: nat, per: nat, c: nat)
    requires Fine(v, limit, per) && Fine(z, limit, per) && MakeSeenAll(v, z, limit, root, per, [[65]], c)
    requires SameFile(TreeOf(v, per), root, [[65]], [[65]])
    ensures LeadsToEmpty(z, root, per, c)
  {
    hide ChainsOk, DataShape, Fits, SameFile, Enter, Locate, SpotIn, AllSlots;
    assert Plain([[65]]);
  }

  /** "/A" names directory `c`, which holds no entries. */
  ghost predicate LeadsToEmpty(z: Vol, root: nat, per: nat, c: nat)
    requires Fits(z.data, z.L, per)
  {
    && Enter(TreeOf(z, per), root, Locate(TreeOf(z, per), root, [[65]])) == Some(c)
    && forall n: Name :: !DotName(n) ==> SpotIn(TreeOf(z, per), c, n) == Nowhere
  }

  /** Make "/A" on a new volume. */
  method MakeA(vol: Volume) returns (made: bool, ghost c: nat)
    requires vol.Healthy() && vol.g.rootClus in vol.Tree() && NewRoot(vol.Tree()[vol.g.rootClus], vol.Per())
    requires vol.g.Limit() <= |vol.fat| && |FreeSet(vol.fat, vol.g.Limit())| >= 1
    modifies vol`dirty, vol`cacheSec, vol`fat, vol`data, vol`loaded, vol`search, vol`L, vol.disk, vol.fatCache,
        vol.clusBuf
    ensures made && vol.Healthy() && Fits(vol.data, vol.L, vol.Per())
        && LeadsToEmpty(vol.State(), vol.g.rootClus, vol.Per(), c)
  {
    hide Volume.Healthy, Volume.Chained, Volume.Mirrored, FreeSet, CanMake, SafeTarget, Mendable, NewRoot, MakeSeenAll,
         Sound, Fine, Parts, AllSlots, NewDot, SameFile, LeadsToEmpty;
    ThePaths();
    vol.HealthyIsSound();
    vol.RootDepth();
    ghost var v := vol.State();
    CanMakeA(v, vol.g.Limit(), vol.g.rootClus, vol.Per());
    ghost var slot, more;
    made, c, slot, more := vol.FatMkdir(A_PATH);
    MadeA(v, vol.State(), vol.g.Limit(), vol.g.rootClus, vol.Per(), c);
  }

  /** Remove "/A/.". */
  method RemoveDot(vol: Volume, ghost c: nat) returns (gone: bool)
    requires vol.Healthy() && Fits(vol.data, vol.L, vol.Per())
        && LeadsToEmpty(vol.State(), vol.g.rootClus, vol.Per(), c)
    modifies vol`dirty, vol`cacheSec, vol`fat, vol`data, vol`loaded, vol`L, vol.disk, vol.fatCache, vol.clusBuf
    ensures gone && vol.Chained() && Fine(vol.State(), vol.g.Limit(), vol.Per())
    ensures !Mendable(vol.State(), vol.g.Limit(), vol.g.rootClus, vol.Per())
  {
    hide Volume.Healthy, Volume.Chained, Volume.Mirrored, CanDelete, Mendable, Sound, Fine, Parts, AllSlots, OwnDot,
         LeadsToEmpty, SoleName, RemoveSeenAll;
    ThePaths();
    vol.HealthyIsSound();
    vol.RootDepth();
    CanLoseA(vol.State(), vol.g.Limit(), vol.g.rootClus, vol.Per(), c);
    gone := vol.FatRemove(DOT_PATH);
  }

  /**
   * Three calls that end in a volume no layout makes well formed: format, make "/A", remove "/A/.".
   * Each of them succeeds (fat.c:959-990, 1016-1048).
   */
  method LoseA(disk: array<Sector>, lba: nat, nsec: nat) returns (made: bool, gone: bool, vol: Volume?)
    requires lba < U32 && 4096 <= nsec <= 0x8000_0000 && lba + nsec <= disk.Length
    modifies disk
    ensures made && gone && vol != null && vol.Chained() && Fine(vol.State(), vol.g.Limit(), vol.Per())
    ensures !Mendable(vol.State(), vol.g.Limit(), vol.g.rootClus, vol.Per())
  {
    hide Volume.Healthy, Volume.Chained, Volume.Mirrored, Bind, Formatted, FreeSet, Mendable, NewRoot, Fine,
         LeadsToEmpty;
    var ok, g;
    ok, g, vol := FormatAndMount(disk, lba, nsec);
    ghost var c;
    made, c := MakeA(vol);
    gone := RemoveDot(vol, c);
  }
}
