/**
 * From an empty image and a list of calls to a mounted volume: every file of a catalog is read back by
 * the driver (tools/make_fat.py:97-112, 314-367; tools/make_floppy.py:81-143, 268-317).
 */
module Releases {
  import opened Options
  import opened Bytes
  import opened Names
  import opened Dirs
  import opened Trees
  import opened Wellformed
  import opened Ops
  import opened Paths
  import opened LongNames
  import opened ImageNames
  import opened Blobs
  import opened Sights
  import opened Builds
  import opened Catalogs
  import Geometries
  import Formats
  import opened Volumes
  import Images
  import Floppies

  /** The files that the first `n` calls add are read by their paths, each with its own bytes. */
  ghost predicate AllRead(v: Vol, limit: nat, root: nat, per: nat, ops: seq<Op>, n: nat) {
    && Fine(v, limit, per) && n <= |ops|
    && forall i :: 0 <= i < n && ops[i].AddFile? ==>
         FileAt(v, limit, root, per, ops[i].parts + [ops[i].name]) == Some(ops[i].bytes)
  }

  lemma RunAllRead(vs: seq<Vol>, deeds: seq<Deed>, limit: nat, root: nat, per: nat, bad: nat, ops: seq<Op>, n: nat)
    requires Run(vs, deeds, limit, root, per, bad) && |deeds| == n <= |ops| && Catalog(ops)
    requires (forall k :: 0 <= k < n ==> deeds[k].op == ops[k]) && Blank(vs[0], root, per)
    ensures AllRead(vs[n], limit, root, per, ops, n)
  {
    hide Did, Fine, Catalog, Blank, FileAt, Distinct83;
    forall i | 0 <= i < n && ops[i].AddFile?
      ensures FileAt(vs[n], limit, root, per, ops[i].parts + [ops[i].name]) == Some(ops[i].bytes) {
      CatalogReads(vs, deeds, limit, root, per, bad, ops, i);
    }
  }

  /** No call of a catalog spoils the volume by its name. */
  lemma CatalogSane(ops: seq<Op>, i: nat)
    requires Catalog(ops) && i < |ops|
    ensures Sane(ops[i])
  {
    hide SpeltAlike, FullKey, Survives, Legible, Numbered, NoSpaces;
    assert ProperOp(ops[i]);
    SurvivesLegible(ops[i].name);
  }

  lemma FreshIsBlank(v: Vol, root: nat, per: nat)
    requires Fits(v.data, v.L, per) && TreeOf(v, per).Keys == {root} && FreshRoot(TreeOf(v, per)[root])
    ensures Blank(v, root, per)
  {
    hide DirSlots;
  }

  /** A new image is blank. */
  lemma NewIsBlank(im: Images.Image)
    requires im.Valid() && im.L == Formats.FreshLayout() && im.g.Limit() > 2 && |im.data| > 2
    requires FreshRoot(SlotsOf(im.data[2]))
    ensures Blank(im.State(), Images.ROOT, im.Per())
  {
    hide FreshRoot, SlotsOf;
    im.ValidFacts();
    OneChain(im.data, im.Per());
    assert TreeOf(im.State(), im.Per()).Keys == {2};
    FreshIsBlank(im.State(), Images.ROOT, im.Per());
  }

  lemma OneChain(data: seq<seq<byte>>, per: nat)
    requires Fits(data, Formats.FreshLayout(), per) && |data| > 2
    ensures SlotsAt(data, Formats.FreshLayout(), per, 2) == SlotsOf(data[2])
  {
    assert [2][1..] == [];
    assert Sized(data, Formats.FreshLayout().chains[2], per);
    assert DirSlots(data, [], per) == [];
  }

  /**
   * Make an image of a list of calls and mount it with the driver. The calls succeed up to one that
   * fails or would spoil the image; if the list is a catalog, the driver reads every file added up to
   * there, and the list stops short only for want of room.
   */
  method MakeImage(total: nat, ops: seq<Op>)
    returns (ok: bool, n: nat, im: Images.Image, vol: Volume?, ghost vs: seq<Vol>, ghost deeds: seq<Deed>)
    requires 8 * 1024 * 1024 <= total <= 32 * 1024 * 1024 * 1024
    ensures n <= |ops| && (ok <==> vol != null)
    ensures Run(vs, deeds, im.g.Limit(), 2, im.Per(), 0) && |vs| == n + 1 && Blank(vs[0], 2, im.Per())
    ensures |deeds| == n && forall i :: 0 <= i < n ==> deeds[i].op == ops[i]
    ensures vol != null ==>
        fresh(vol) && vol.Healthy() && vol.Mirrored() && Fine(vol.State(), vol.g.Limit(), vol.Per())
          && vol.g.rootClus == 2
    ensures vol != null ==> vol.g == im.g && vol.State() == vs[n]
    ensures vol != null && Catalog(ops) ==>
        && AllRead(vol.State(), vol.g.Limit(), 2, vol.Per(), ops, n)
        && (n < |ops| ==> !Sighted(vol.State(), 2, vol.Per(), ops[n].parts, ops[n].name))
    ensures !ok ==> n < |ops| && !Images.Image.Can(vs[n], im.g.Limit(), im.Per(), ops[n])
  {
    hide Volume.Healthy, Volume.Mirrored, Images.Image.Valid, FreshRoot, Catalog, Run, Blank, AllRead, Sighted, Sane,
         Formats.FreshLayout, Fine, SlotsOf, Images.Image.Can;
    vol := null;
    var built, made := Images.Build(total);
    im := made;
    im.StateFine();
    ImageSizes(im);
    NewIsBlank(im);
    ok, n, vs, deeds := im.Fill(ops);
    if !ok {
      return;
    }
    vol := Images.MountImage(im);
    vol.HealthyIsSound();
    if Catalog(ops) {
      RunAllRead(vs, deeds, im.g.Limit(), Images.ROOT, im.Per(), 0, ops, n);
      if n < |ops| { CatalogSane(ops, n); }
    }
  }

  lemma ImageSizes(im: Images.Image)
    requires im.Valid()
    ensures im.g.Limit() > 2 && |im.data| > 2
  {
    hide FreshRoot, SlotsOf;
    im.ValidFacts();
  }

  /** The same on a floppy. */
  method MakeFloppy(ops: seq<Op>)
    returns (ok: bool, n: nat, fl: Floppies.Floppy, ghost next: nat, ghost vs: seq<Vol>, ghost deeds: seq<Deed>)
    ensures n <= |ops| && fl.Good() && fresh(fl)
    ensures Run(vs, deeds, Floppies.LIMIT, Floppies.TOP, Floppies.PER, Floppies.TOP) && |vs| == n + 1
        && Blank(vs[0], Floppies.TOP, Floppies.PER)
    ensures |deeds| == n && forall i :: 0 <= i < n ==> deeds[i].op == ops[i]
    ensures ok ==> fl.Valid() && Fine(fl.State(), Floppies.LIMIT, Floppies.PER)
    ensures ok && Catalog(ops) ==>
        n == |ops| && AllRead(fl.State(), Floppies.LIMIT, Floppies.TOP, Floppies.PER, ops, n)
    ensures !ok ==> n < |ops| && next == 2 + TookAll(deeds, 512) && !Floppies.Can(vs[n], next, ops[n])
  {
    hide Floppies.Floppy.Valid, FreshRoot, Catalog, Run, Blank, AllRead, Sane, Fine, Floppies.Floppy.Good, Floppies.Can,
         TookAll;
    fl := new Floppies.Floppy();
    fl.StateFine();
    FloppyBlank(fl);
    ok, n, next, vs, deeds := fl.Fill(ops);
    if !ok {
      return;
    }
    fl.StateFine();
    if Catalog(ops) {
      RunAllRead(vs, deeds, Floppies.LIMIT, Floppies.TOP, Floppies.PER, Floppies.TOP, ops, n);
      if n < |ops| { CatalogSane(ops, n); }
    }
  }

  lemma FloppyBlank(fl: Floppies.Floppy)
    requires fl.Valid() && fl.Tree().Keys == {Floppies.TOP} && FreshRoot(fl.Tree()[Floppies.TOP])
    ensures fl.Good() && Blank(fl.State(), Floppies.TOP, Floppies.PER)
  {
    hide FreshRoot, Floppies.Floppy.Good, DirSlots;
    fl.StateFine();
    FreshIsBlank(fl.State(), Floppies.TOP, Floppies.PER);
  }

  // ---------------------------------------------------------------- the floppy of the tool

  /** "boot", "limine-bios.sys", "limine.conf" and "kernel". */
  const BOOT: Name := [98, 111, 111, 116]
  const LIMINE_SYS: Name := [108, 105, 109, 105, 110, 101, 45, 98, 105, 111, 115, 46, 115, 121, 115]
  const LIMINE_CONF: Name := [108, 105, 109, 105, 110, 101, 46, 99, 111, 110, 102]
  const KERNEL: Name := [107, 101, 114, 110, 101, 108]

  /** The calls of the tool (make_floppy.py:349-353). */
  function BootFloppy(sysb: seq<byte>, conf: seq<byte>, kernel: seq<byte>): seq<Op> {
    [Mkdir([], BOOT), AddFile([], LIMINE_SYS, sysb), AddFile([], LIMINE_CONF, conf), AddFile([BOOT], KERNEL, kernel)]
  }

  /** Where a name has its last dot. */
  lemma DotAt(n: Name, d: nat)
    requires d <= |n| && (d < |n| ==> n[d] == DOT) && forall i :: 0 <= i < |n| && i != d ==> n[i] != DOT
    ensures LastDot(n) == d
  {
  }

  lemma ProperOnes()
    ensures Proper(BOOT) && Proper(LIMINE_SYS) && Proper(LIMINE_CONF) && Proper(KERNEL)
  {
    hide Proper;
    ProperShort(BOOT);
    ProperLong(LIMINE_SYS, 11);
    ProperLong(LIMINE_CONF, 6);
    ProperShort(KERNEL);
  }

  /** Up to eight letters, digits, dashes and underscores. */
  lemma ProperShort(n: Name)
    requires 0 < |n| <= 8 && forall i :: 0 <= i < |n| ==> Allowed(n[i])
    ensures Proper(n)
  {
    hide LastDot;
    DotAt(n, |n|);
    NoSpacesSame(n);
  }

  /** A printable name without spaces, whose stem or extension is too long for 8.3. */
  lemma ProperLong(n: Name, d: nat)
    requires 0 < d < |n| < NAME_MAX && LongPart(n, d) && Printable(n) && SPACE !in n
    ensures Proper(n)
  {
    hide LastDot;
    DotAt(n, d);
    NoSpacesSame(n);
  }

  predicate LongPart(n: Name, d: nat) {
    && d < |n| && n[d] == DOT && (forall i :: 0 <= i < |n| && i != d ==> n[i] != DOT)
    && (d > 8 || |n| - d - 1 > 3)
  }

  /** How the entries of the root are told apart: by the first letter, or by that of the extension. */
  lemma ShortOnes()
    ensures ShortName(BOOT)[0] == 66 && ShortName(LIMINE_SYS)[0] == 76 == ShortName(LIMINE_CONF)[0]
    ensures ShortName(LIMINE_SYS)[8] == 83 && ShortName(LIMINE_CONF)[8] == 67
  {
    hide ShortName, Fold;
    ShortFirst(BOOT);
    ShortLong(LIMINE_SYS, 11);
    ShortLong(LIMINE_CONF, 6);
    FoldOnes();
  }

  lemma FoldOnes()
    ensures Fold(98) == 66 && Fold(108) == 76 && Fold(115) == 83 && Fold(99) == 67
  {
  }

  lemma ShortFirst(n: Name)
    requires 0 < |n| <= 8 && forall i :: 0 <= i < |n| ==> Allowed(n[i])
    ensures ShortName(n)[0] == Fold(n[0])
  {
    hide LastDot;
    DotAt(n, |n|);
    NoSpacesSame(n);
  }

  lemma ShortLong(n: Name, d: nat)
    requires 0 < d < |n| - 1 && LongPart(n, d) && SPACE !in n && |n| > 2
    ensures ShortName(n)[0] == Fold(n[0]) && ShortName(n)[8] == Fold(n[d + 1])
  {
    hide LastDot;
    DotAt(n, d);
    NoSpacesSame(n);
    CutAt(n, d);
  }

  lemma CutAt(n: Name, d: nat)
    requires 0 < d < |n| - 1 && LastDot(n) == d && TooLong(n)
    ensures var r := Padded8(Take(FullStem(n), 6) + [TILDE, ONE], Take(FullExt(n), 3));
            r[0] == Fold(n[0]) && r[8] == Fold(n[d + 1])
  {
    hide LastDot;
    assert FullStem(n)[0] == Fold(n[0]) && FullExt(n)[0] == Fold(n[d + 1]);
  }

  /** The tool's list is a catalog, whatever the files hold: both names cut to "LIMINE~1" differ in their extension. */
  lemma BootFloppyIsCatalog(sysb: seq<byte>, conf: seq<byte>, kernel: seq<byte>)
    ensures Catalog(BootFloppy(sysb, conf, kernel))
  {
    hide ShortName, Proper;
    ProperOnes();
    ShortOnes();
    NameEqSym(BOOT, BOOT);
    var ops := BootFloppy(sysb, conf, kernel);
    assert [BOOT][..1] == [BOOT];
    forall i, j | 0 <= i < j < |ops| ensures FullKey(ops[i]) != FullKey(ops[j]) {
      if j == 3 { assert |FullKey(ops[i])| == 1 && |FullKey(ops[j])| == 2; }
      else { assert FullKey(ops[i])[0] != FullKey(ops[j])[0]; }
    }
  }
}
