/**
 * Formatting a partition and mounting the result (kernel/src/fat.c:1400-1495): the
 * boot sector says what fat_bind reads back, and the new volume is well formed.
 */
module Formats {
  import opened Bytes
  import opened Names
  import opened Chains
  import opened Dirs
  import opened Trees
  import opened Wellformed
  import opened Ops
  import opened Paths
  import opened Geometries
  import opened Volumes

  const OEM: seq<byte> := [77, 83, 87, 73, 78, 52, 46, 49]
  const LABEL: seq<byte> := [68, 65, 84, 65, 32, 32, 32, 32, 32, 32, 32]
  const FSTYPE: seq<byte> := [70, 65, 84, 51, 50, 32, 32, 32]

  /** The first 32 bytes of the boot sector, then the fields behind them (fat.c:1413-1438). */
  function BootHead(spc: byte): (r: Sector)
    ensures R16(r, 11) == SECTOR && r[13] == spc && R16(r, 14) == 32 && r[16] == 2 && r[510] == 0 == r[511]
  {
    var z := Put(Put(Zeros(512), 0, [0xEB, 0x58, 0x90]), 3, OEM);
    var a := W16(z, 11, SECTOR)[13 := spc];
    var b := W16(a, 14, 32)[16 := 2][21 := 0xF8];
    W16(W16(b, 24, 63), 26, 255)
  }

  function BootSizes(s: Sector, lba: nat, nsec: nat, fatSz: nat): (r: Sector)
    requires lba < U32 && nsec < U32 && fatSz < U32
    ensures R32(r, 32) == nsec && R32(r, 36) == fatSz && R32(r, 44) == 2
    ensures r[..28] == s[..28]
  {
    var a := W32(W32(s, 28, lba), 32, nsec);
    W16(W16(W32(W32(a, 36, fatSz), 44, 2), 48, 1), 50, 6)
  }

  /** A volume's serial number and its 11-character label. */
  datatype Tag = Tag(serial: nat, text: seq<byte>)
  {
    predicate Fits() { serial < U32 && |text| == 11 }
  }

  const DATA_TAG: Tag := Tag(0xA0D10501, LABEL)

  function BootTail(s: Sector, tag: Tag): (r: Sector)
    requires tag.Fits()
    ensures r[..64] == s[..64] && r[510] == 0x55 && r[511] == 0xAA
  {
    var a := W32(s[64 := 0x80][66 := 0x29], 67, tag.serial);
    Put(Put(a, 71, tag.text), 82, FSTYPE)[510 := 0x55][511 := 0xAA]
  }

  function Boot(lba: nat, nsec: nat, spc: byte, fatSz: nat, tag: Tag): Sector
    requires lba < U32 && nsec < U32 && fatSz < U32 && tag.Fits()
  {
    BootTail(BootSizes(BootHead(spc), lba, nsec, fatSz), tag)
  }

  lemma SameWord(a: seq<byte>, b: seq<byte>, n: nat, o: nat)
    requires n <= |a| && n <= |b| && a[..n] == b[..n] && o + 2 <= n
    ensures R16(a, o) == R16(b, o) && (o + 4 <= n ==> R32(a, o) == R32(b, o)) && a[o] == b[o]
  {
    assert a[o] == a[..n][o] == b[o] && a[o+1] == a[..n][o+1] == b[o+1];
    if o + 4 <= n { assert a[o+2] == a[..n][o+2] == b[o+2] && a[o+3] == a[..n][o+3] == b[o+3]; }
  }

  lemma BootFields(lba: nat, nsec: nat, spc: byte, fatSz: nat, tag: Tag)
    requires lba < U32 && nsec < U32 && fatSz < U32 && tag.Fits()
    ensures var b := Boot(lba, nsec, spc, fatSz, tag);
            && R16(b, 11) == SECTOR && b[13] == spc && R16(b, 14) == 32 && b[16] == 2 && b[510] == 0x55
                 && b[511] == 0xAA
            && R32(b, 32) == nsec && R32(b, 36) == fatSz && R32(b, 44) == 2
  {
    hide R16, R32, BootHead, BootSizes, BootTail;
    var h := BootHead(spc);
    var s := BootSizes(h, lba, nsec, fatSz);
    var b := BootTail(s, tag);
    SameWord(s, h, 28, 11);
    SameWord(s, h, 28, 13);
    SameWord(s, h, 28, 14);
    SameWord(s, h, 28, 16);
    SameWord(b, s, 64, 11);
    SameWord(b, s, 64, 13);
    SameWord(b, s, 64, 14);
    SameWord(b, s, 64, 16);
    SameWord(b, s, 64, 32);
    SameWord(b, s, 64, 36);
    SameWord(b, s, 64, 44);
  }

  /** fat_bind reads back exactly the geometry the boot sector was made for. */
  lemma BindsBack(lba: nat, nsec: nat, spc: byte, fatSz: nat, clus: nat, tag: Tag)
    requires lba < U32 && nsec < U32 && fatSz < 0x80_0000 && Roomy(nsec, spc, fatSz, clus) && tag.Fits()
    ensures Bind(Boot(lba, nsec, spc, fatSz, tag)) == Bound(Geometry(spc, fatSz, RESERVED, 2, clus), nsec)
  {
    hide R16, R32, Boot, Derive, Quot;
    BootFields(lba, nsec, spc, fatSz, tag);
    DerivesBack(nsec, spc, fatSz, clus);
  }

  lemma DerivesBack(nsec: nat, spc: nat, fatSz: nat, clus: nat)
    requires nsec < U32 && 1 <= fatSz < 0x80_0000 && Roomy(nsec, spc, fatSz, clus)
    ensures Derive(spc, RESERVED, fatSz, 2, nsec) == Bound(Geometry(spc, fatSz, RESERVED, 2, clus), nsec) && nsec > 0
  {
    hide Quot;
    SpcTimes(spc, 0, clus);
  }

  // ---------------------------------------------------------------- boot sectors that bind and go wrong

  lemma BootBinds(nsec: nat, fatSz: nat)
    requires nsec < U32 && 0 < fatSz < U32 && nsec > 0
    ensures Bind(Boot(0, nsec, 8, fatSz, DATA_TAG)) == Derive(8, 32, fatSz, 2, nsec)
  {
    hide R16, R32, Boot, Derive;
    BootFields(0, nsec, 8, fatSz, DATA_TAG);
  }

  /**
   * One cluster behind two tables of 2^23 sectors: the boot sector binds, and the driver hands out
   * cluster 3, which lies behind the end of the partition.
   */
  lemma OneClusterOutside()
    ensures var nsec := 32 + 2 * 0x80_0000 + 8;
            Bind(Boot(0, nsec, 8, 0x80_0000, DATA_TAG)) == Bound(Geometry(8, 0x80_0000, 32, 2, 1), nsec)
              && Allocable(Geometry(8, 0x80_0000, 32, 2, 1), 3)
              && Lba32(Geometry(8, 0x80_0000, 32, 2, 1), 3) == nsec
  {
    hide Boot;
    BootBinds(32 + 2 * 0x80_0000 + 8, 0x80_0000);
  }

  /**
   * Two tables of 2^31 + 1 sectors on a partition of 1000: their end wraps to sector 34, the boot
   * sector binds with 120 clusters, and cluster 3 lies at sector 42, in the first table.
   */
  lemma WrappedTables()
    ensures Bind(Boot(0, 1000, 8, 0x8000_0001, DATA_TAG)) == Bound(Geometry(8, 0x8000_0001, 32, 2, 120), 1000)
    ensures var g := Geometry(8, 0x8000_0001, 32, 2, 120);
            Allocable(g, 3) && g.fatBegin <= Lba32(g, 3) == 42 < g.fatBegin + g.fatSz && !Inside(g, 1000, 3)
  {
    hide Boot;
    BootBinds(1000, 0x8000_0001);
  }

  // ---------------------------------------------------------------- writing it

  /** The first sector of each table: two reserved entries and the root's (fat.c:1467-1477). */
  function FirstFat(): (r: Sector)
    ensures R32(r, 0) == 0x0FFFFFF8 && R32(r, 4) == EOC_MARK && R32(r, 8) == EOC_MARK
    ensures forall e: nat :: 3 <= e < 128 ==> R32(r, e * 4) == 0
  {
    W32(W32(W32(Zeros(512), 0, 0x0FFFFFF8), 4, EOC_MARK), 8, EOC_MARK)
  }

  /** The first sector of the root directory: a volume label (fat.c:1486-1489). */
  function RootSector(): Sector { Put(Zeros(512), 0, LABEL)[11 := ATTR_VOL] }

  /** Both tables, of `fatSz` sectors each, from sector `fat1` on: empty but for three entries. */
  ghost predicate TablesWritten(d: seq<Sector>, fat1: nat, fatSz: nat) {
    && fat1 + 2 * fatSz <= |d|
    && forall j :: fat1 <= j < fat1 + 2 * fatSz ==>
         d[j] == if j == fat1 || j == fat1 + fatSz then FirstFat() else Zeros(512)
  }

  /** The root's cluster: a volume label, and the rest zero. */
  ghost predicate RootWritten(d: seq<Sector>, root: nat, spc: nat) {
    root + spc <= |d| && forall j :: root <= j < root + spc ==> d[j] == if j == root then RootSector() else Zeros(512)
  }

  /** What fat_mkfs leaves on the disk. */
  ghost predicate Formatted(d: seq<Sector>, lba: nat, nsec: nat, g: Geometry) {
    && lba + nsec <= |d| && g.fatBegin == RESERVED && g.rootClus == 2 && Roomy(nsec, g.spc, g.fatSz, g.total)
         && g.fatSz >= 32
    && Bind(d[lba]) == Bound(g, nsec)
    && TablesWritten(d, lba + RESERVED, g.fatSz) && RootWritten(d, lba + g.DataBegin(), g.spc)
  }

  /** Zero `n` sectors. */
  method Blank(disk: array<Sector>, from: nat, n: nat)
    requires from + n <= disk.Length
    modifies disk
    ensures forall j: nat :: j < disk.Length ==> disk[j] == if from <= j < from + n then Zeros(512) else old(disk[j])
  {
    var s := 0;
    while s < n
      invariant s <= n
      invariant forall j: nat :: j < disk.Length ==>
          disk[j] == if from <= j < from + s then Zeros(512) else old(disk[j])
    {
      disk[from + s] := Zeros(512);
      s := s + 1;
    }
  }

  /** fat_mkfs (fat.c:1400-1495): refuses fewer than 4096 sectors, and touches nothing outside the partition. */
  method FatMkfs(disk: array<Sector>, lba: nat, nsec: nat) returns (ok: bool, g: Geometry)
    requires lba < U32 && nsec < U32 && lba + nsec <= disk.Length
    modifies disk
    ensures ok <==> nsec >= 4096
    ensures ok ==> Formatted(disk[..], lba, nsec, g) && g.spc == 8 && g.fatSz < 0x80_0000 && g.total >= 256
    ensures forall j: nat :: j < disk.Length && (!ok || !(lba <= j < lba + nsec)) ==> disk[j] == old(disk[j])
  {
    hide Bind, Boot, Roomy, TablesWritten, RootWritten;
    g := Geometry(8, 0, RESERVED, 2, 0);
    if nsec < 4096 {
      return false, g;
    }
    var sized, spc, fatSz, clus;
    ghost var passes;
    sized, spc, fatSz, clus, passes := FatGeom(nsec);
    if !sized {
      return false, g;
    }
    RoomyIs(nsec, spc, fatSz, clus);
    BindsBack(lba, nsec, spc, fatSz, clus, DATA_TAG);
    WriteVolume(disk, lba, Boot(lba, nsec, spc, fatSz, DATA_TAG), spc, fatSz);
    ok, g := true, Geometry(spc, fatSz, RESERVED, 2, clus);
  }

  /** The writes of fat_mkfs, in order (fat.c:1439-1494). */
  method WriteVolume(disk: array<Sector>, lba: nat, boot: Sector, spc: nat, fatSz: nat)
    requires spc >= 1 && fatSz >= 1 && lba + RESERVED + 2 * fatSz + spc <= disk.Length
    modifies disk
    ensures disk[lba] == boot && TablesWritten(disk[..], lba + RESERVED, fatSz)
        && RootWritten(disk[..], lba + RESERVED + 2 * fatSz, spc)
    ensures forall j: nat :: j < disk.Length && !(lba <= j < lba + RESERVED + 2 * fatSz + spc) ==>
        disk[j] == old(disk[j])
  {
    hide FirstFat, RootSector, FsInfo;
    disk[lba] := boot;
    disk[lba + 6] := boot;
    disk[lba + 1] := FsInfo();
    var fat1 := lba + 32;
    Blank(disk, fat1, fatSz * 2);
    disk[fat1] := FirstFat();
    disk[fat1 + fatSz] := FirstFat();
    var data0 := fat1 + 2 * fatSz;
    Blank(disk, data0, spc);
    disk[data0] := RootSector();
  }

  lemma RoomyIs(nsec: nat, spc: nat, fatSz: nat, clus: nat)
    requires Roomy(nsec, spc, fatSz, clus)
    ensures spc in {1, 2, 4, 8} && RESERVED + 2 * fatSz + spc <= nsec && clus >= 1
  {
    SpcTimes(spc, 0, clus);
  }

  /** The FSInfo sector (fat.c:1445-1452). */
  function FsInfo(): Sector {
    W32(W32(W32(W32(Zeros(512), 0, 0x41615252), 484, 0x61417272), 488, 0xFFFFFFFF), 492,
        0xFFFFFFFF)[510 := 0x55][511 := 0xAA]
  }

  // ---------------------------------------------------------------- mounting it

  /** The chains of a new volume: the root's one cluster. */
  ghost function FreshLayout(): Layout { Layout(map[2 := [2]], map[2 := Place(2, 0)], map[], map[2 := 0]) }

  /** Three entries in use, the rest free. */
  ghost predicate FreshTable(fat: seq<nat>) {
    |fat| >= 3 && fat[2] == EOC_MARK && forall c :: 3 <= c < |fat| ==> fat[c] == 0
  }

  lemma FreshChains(fat: seq<nat>, limit: nat)
    requires FreshTable(fat) && 3 <= limit <= |fat| && limit <= BAD
    ensures ChainsOk(fat, limit, FreshLayout())
  {
  }

  lemma FreshTree(data: seq<seq<byte>>, limit: nat, per: nat)
    requires DataShape(data, limit, per) && limit >= 3 && Fits(data, FreshLayout(), per)
    requires FreshRoot(SlotsAt(data, FreshLayout(), per, 2)) && |SlotsAt(data, FreshLayout(), per, 2)| <= MAX_ITEMS
    ensures TreeOk(DirItems(data, FreshLayout(), per), FreshLayout(), 2)
  {
    hide DirSlots, Dotted, NumClus, EntClus, EntSize;
    var D, L := DirItems(data, FreshLayout(), per), FreshLayout();
    FreshItems(SlotsAt(data, L, per, 2), PerBytes(per));
    assert D[2] == ItemsOf(SlotsAt(data, L, per, 2), PerBytes(per));
    assert forall d: nat, i: nat :: !Owned(D, 2, d, i);
  }

  lemma {:induction false} SectorsByte(d: seq<Sector>, lba: nat, n: nat, k: nat, b: nat)
    requires lba + n <= |d| && k < n && b < 512
    ensures Sectors(d, lba, n)[k * 512 + b] == d[lba + k][b]
  {
    JoinedSector(d, lba, n, k);
    assert SectorOf(Sectors(d, lba, n), k)[b] == d[lba + k][b];
  }

  /** The root cluster of a formatted volume, slot by slot. */
  lemma RootSlots(d: seq<Sector>, root: nat, spc: nat)
    requires spc >= 1 && RootWritten(d, root, spc)
    ensures FreshRoot(SlotsOf(Sectors(d, root, spc)))
  {
    var c := Sectors(d, root, spc);
    forall i | 0 <= i < |c| / 32 ensures SlotsOf(c)[i][0] == if i == 0 then 68 else 0 { RootSlot(d, root, spc, i); }
    SectorsByte(d, root, spc, 0, 11);
    assert SlotsOf(c)[0][11] == c[11] == 8;
  }

  lemma RootSlot(d: seq<Sector>, root: nat, spc: nat, i: nat)
    requires RootWritten(d, root, spc) && i < |Sectors(d, root, spc)| / 32
    ensures SlotsOf(Sectors(d, root, spc))[i][0] == if i == 0 then 68 else 0
  {
    var c := Sectors(d, root, spc);
    assert SlotsOf(c)[i][0] == c[i * 32];
    hide SlotsOf, Sectors;
    SectorsByte(d, root, spc, i / 16, i % 16 * 32);
    assert i * 32 == i / 16 * 512 + i % 16 * 32;
  }

  lemma FreshFat(d: seq<Sector>, fat1: nat, fatSz: nat)
    requires fatSz >= 1 && TablesWritten(d, fat1, fatSz)
    ensures FreshTable(TableOf(d, fat1, fatSz * 128))
  {
    hide R32, FirstFat;
    var fat := TableOf(d, fat1, fatSz * 128);
    ZeroWords();
    forall c | 2 <= c < |fat| ensures fat[c] == if c == 2 then EOC_MARK else 0 {
      assert d[fat1 + c / 128] == if c / 128 == 0 then FirstFat() else Zeros(512);
    }
  }

  lemma ZeroWords()
    ensures forall e: nat :: e < 128 ==> R32(Zeros(512), e * 4) == 0
  {
  }

  lemma {:induction false} FreshFree(fat: seq<nat>, limit: nat)
    requires FreshTable(fat) && 3 <= limit <= |fat|
    ensures |FreeSet(fat, limit)| == limit - 3
    decreases limit
  {
    if limit > 3 {
      FreshFree(fat, limit - 1);
      assert FreeSet(fat, limit) == FreeSet(fat, limit - 1) + {limit - 1};
    } else {
      assert FreeSet(fat, limit) == {};
    }
  }

  /** What a disk holds, seen as a volume whose only chain is the root's. */
  ghost function FreshVol(d: seq<Sector>, lba: nat, g: Geometry): Vol
    requires g.Ok() && |d| >= lba + g.DataBegin() && |d| >= lba + g.DataBegin() + g.total * g.spc
  {
    Vol(TableOf(d, lba + g.fatBegin, g.Entries()), DataOf(d, lba, g), FreshLayout())
  }

  /** What fat_mkfs wrote, seen as a volume, is well formed and empty. */
  lemma FormattedSound(d: seq<Sector>, lba: nat, nsec: nat, g: Geometry)
    requires g.Ok() && |d| >= lba + g.DataBegin() && |d| >= lba + g.DataBegin() + g.total * g.spc
        && Formatted(d, lba, nsec, g)
    ensures var v := FreshVol(d, lba, g);
            && Sound(v, g.Limit(), 2, g.spc * 16) && NewRoot(SlotsAt(v.data, v.L, g.spc * 16, 2), g.spc * 16)
            && |FreeSet(v.fat, g.Limit())| == g.total - 1
  {
    hide Formatted, FreshTable, FreshRoot, ChainsOk, TreeOk, SlotsOf, Bind, FreeSet, TablesWritten, RootWritten;
    var per := g.spc * 16;
    var v := FreshVol(d, lba, g);
    FormattedParts(d, lba, nsec, g);
    FreshFat(d, lba + RESERVED, g.fatSz);
    FreshChains(v.fat, g.Limit());
    FreshFree(v.fat, g.Limit());
    RootSlots(d, lba + g.DataBegin(), g.spc);
    OneCluster(v.data, g.Limit(), per, g);
    assert v.data[2] == Sectors(d, lba + g.DataBegin(), g.spc);
    FreshTree(v.data, g.Limit(), per);
  }

  lemma FormattedParts(d: seq<Sector>, lba: nat, nsec: nat, g: Geometry)
    requires Formatted(d, lba, nsec, g)
    ensures g.fatBegin == RESERVED && g.fatSz >= 32 && TablesWritten(d, lba + RESERVED, g.fatSz)
        && RootWritten(d, lba + g.DataBegin(), g.spc)
  {
    hide Bind, TablesWritten, RootWritten, Roomy;
  }

  lemma OneCluster(data: seq<seq<byte>>, limit: nat, per: nat, g: Geometry)
    requires g.Ok() && per == g.spc * 16 && limit == g.Limit() && |data| == limit
    requires forall c :: 2 <= c < limit ==> |data[c]| == g.ClusterBytes()
    ensures DataShape(data, limit, per) && Fits(data, FreshLayout(), per)
    ensures SlotsAt(data, FreshLayout(), per, 2) == SlotsOf(data[2]) && |SlotsOf(data[2])| == per <= MAX_ITEMS
  {
    hide SlotsOf;
    assert [2][1..] == [];
    assert DirSlots(data, [], per) == [];
  }

  /**
   * Format a partition and mount it (fat.c:1400-1495, 1220-1293). The volume is well formed and
   * empty, with all but one of its clusters free, exactly when its cluster numbers stay below the
   * marks of the table: up to 2^31 sectors they do, from 2^31 + 2^25 on they do not.
   */
  method FormatAndMount(disk: array<Sector>, lba: nat, nsec: nat) returns (ok: bool, g: Geometry, vol: Volume?)
    requires lba < U32 && nsec < U32 && lba + nsec <= disk.Length
    modifies disk
    ensures ok <==> nsec >= 4096
    ensures ok ==> Bind(disk[lba]) == Bound(g, nsec) && Formatted(disk[..], lba, nsec, g)
    ensures vol != null <==> ok && g.Limit() <= BAD
    ensures ok && nsec <= 0x8000_0000 ==> g.Limit() <= BAD
    ensures nsec >= 0x8200_0000 ==> g.Limit() > EOC
    ensures vol != null ==>
        fresh(vol) && fresh(vol.fatCache) && fresh(vol.clusBuf) && g.total >= 256 && vol.Healthy() && vol.Mirrored()
          && !vol.dirty
    ensures vol != null ==> vol.disk == disk && vol.partLba == lba && vol.g == g
    ensures vol != null ==> |FreeSet(vol.fat, vol.g.Limit())| == vol.g.total - 1
    ensures vol != null ==> vol.Tree().Keys == {g.rootClus} && NewRoot(vol.Tree()[g.rootClus], vol.Per())
  {
    hide Bind, Formatted, Roomy, ChainsOk, TreeOk, FreshRoot, FreeSet, DirItems, AllSlots, DirSlots, TablesWritten;
    vol := null;
    ok, g := FatMkfs(disk, lba, nsec);
    if !ok {
      return;
    }
    FormattedLimit(disk[..], lba, nsec, g);
    assert Bind(disk[lba]) == Bound(g, nsec) by { FormattedBinds(disk[..], lba, nsec, g); }
    if g.Limit() > BAD {
      return;
    }
    FormattedOk(disk[..], lba, nsec, g);
    FormattedParts(disk[..], lba, nsec, g);
    FormattedSound(disk[..], lba, nsec, g);
    vol := new Volume.Mount(disk, lba, g, FreshLayout());
    vol.Heal();
    forall s: nat | s < g.fatSz
      ensures vol.Copy1(s) == vol.Copy2(s) { WrittenTwice(disk[..], lba + RESERVED, g.fatSz, s); }
  }

  /** A root of one cluster that holds a label and end marks. */
  ghost predicate NewRoot(s: Slots, per: nat) { FreshRoot(s) && |s| == per }

  lemma FormattedBinds(d: seq<Sector>, lba: nat, nsec: nat, g: Geometry)
    requires Formatted(d, lba, nsec, g)
    ensures lba < |d| && Bind(d[lba]) == Bound(g, nsec)
  {
    hide Bind, TablesWritten, RootWritten;
  }

  lemma FormattedLimit(d: seq<Sector>, lba: nat, nsec: nat, g: Geometry)
    requires Formatted(d, lba, nsec, g) && g.spc == 8 && g.fatSz < 0x80_0000
    ensures nsec <= 0x8000_0000 ==> g.Limit() <= BAD
    ensures nsec >= 0x8200_0000 ==> g.Limit() > EOC
  {
    hide Bind, TablesWritten, RootWritten;
  }

  lemma FormattedOk(d: seq<Sector>, lba: nat, nsec: nat, g: Geometry)
    requires Formatted(d, lba, nsec, g) && g.fatSz < 0x80_0000 && g.Limit() <= BAD
    ensures g.Ok() && g.rootClus == 2 && Bind(d[lba]) == Bound(g, nsec)
    ensures |d| >= lba + g.DataBegin() && |d| >= lba + g.DataBegin() + g.total * g.spc
  {
    hide Bind, R32, FirstFat, RootSector;
  }

  /**
   * Why a larger volume fails: once all clusters below the end mark are in use, the next one handed
   * out is the mark itself, and a file that goes on there reads back as if it ended before.
   */
  lemma PastTheMarks(fat: seq<nat>, data: seq<seq<byte>>, cb: nat, limit: nat, prev: nat)
    requires cb > 0 && EOC < limit == |data| <= |fat| && InRange(fat, limit) && fat[EOC] == 0 && 2 <= prev < EOC
    requires (forall c :: 3 <= c < EOC ==> fat[c] != 0 && fat[c] != BAD) && forall i :: 2 <= i < limit ==>
        |data[i]| == cb
    ensures NextFit(fat, 3, limit) == Found(EOC)
    ensures var f := fat[EOC := EOC_MARK][prev := EOC];
        InRange(f, limit) && ReadFrom(f, data, cb, prev, 2 * cb) == data[prev]
  {
    ScanFirst(fat, 3, limit);
    assert FreeFirst(fat, 3, limit, EOC);
    NextFitComplete(fat, 3, limit);
    var f := fat[EOC := EOC_MARK][prev := EOC];
    assert ReadFrom(f, data, cb, EOC, cb) == [];
  }

  /** Both tables of a formatted volume are the same. */
  lemma WrittenTwice(d: seq<Sector>, fat1: nat, fatSz: nat, s: nat)
    requires TablesWritten(d, fat1, fatSz) && s < fatSz
    ensures d[fat1 + s] == d[fat1 + fatSz + s]
  {
    hide FirstFat;
  }
}
